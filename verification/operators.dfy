/** The add-on's operators as transitions of the plugin's world: the saved
    preferences, the scene's API settings, the panel state and the shot list.
    Each operator returns whether it finished or was cancelled (and why), the
    new world and the request it sent itself, if any; the requests of a
    follow-up operator it invokes are stated through that operator. The
    reply from the service, the parse of pasted text and the file system are
    inputs. */
module Operators {
  import opened Common
  import opened Text
  import opened SceneState
  import opened ApiClient
  import Panels
  import Episode

  /** Everything the modelled operators read and write. `prefs` is `None`
      when the add-on's preferences cannot be found. */
  datatype World = World(
    prefs: Option<Config>,
    api: ApiSettings,
    state: PluginState,
    shots: seq<ShotItem>)

  /** Why an operator was cancelled. */
  datatype Failure =
    | MissingEndpointOrKey
    | MissingEpisodeId
    | MissingShowId
    | ConnectionFailed(info: ErrorBody)
    | NotConfigured
    | EpisodeIdNotSet
    | LoadFailed(info: ErrorBody)
    | EmptyConfigText
    | InvalidConfigJson
    | NoPreferences
    | PasteRaised
    | NoSavedPreferences
    | NoShotId
    | UpdateFailed(info: ErrorBody)
    | NoShotSelected
    | NoRenderedImage
    | UploadFailed(info: ErrorBody)
      // The follow-up operator invoked on success reported an error, which
      // Blender raises as an exception in the invoking operator.
    | FollowUpFailed(inner: Failure)

  datatype Status = Finished | Cancelled(reason: Failure)

  /** The outcome of running an operator. */
  datatype Run = Run(status: Status, world: World, sent: Option<HttpRequest>)

  // ---------------------------------------------------------------------
  // Configuration resolution
  // ---------------------------------------------------------------------

  /** `(prefs.x if prefs else None) or api.x`: the preference when there are
      preferences and the field is filled in there, the scene's value
      otherwise. */
  function ResolveField(prefs: Option<Config>, scene: Config, f: ConfigField): string {
    if prefs.Some? && FieldOf(prefs.value, f) != "" then FieldOf(prefs.value, f) else FieldOf(scene, f)
  }

  /** The settings an operator works with. */
  function ResolveConfig(prefs: Option<Config>, scene: Config): (r: Config)
    ensures forall f :: prefs.Some? && FieldOf(prefs.value, f) != "" ==> FieldOf(r, f) == FieldOf(prefs.value, f)
    ensures forall f :: (prefs.None? || FieldOf(prefs.value, f) == "") ==> FieldOf(r, f) == FieldOf(scene, f)
    ensures forall f :: FieldOf(r, f) == "" <==> FieldOf(scene, f) == "" && (prefs.None? || FieldOf(prefs.value, f) == "")
  {
    var r := Config(ResolveField(prefs, scene, Endpoint), ResolveField(prefs, scene, ApiKey),
                    ResolveField(prefs, scene, ShowId), ResolveField(prefs, scene, EpisodeId));
    r
  }

  /** The gate of the operators that talk to the service: the scene says it is
      configured, or an endpoint and a key can be resolved. */
  predicate CanConnect(w: World) {
    var r := ResolveConfig(w.prefs, w.api.config);
    w.api.isConfigured || (r.endpoint != "" && r.apiKey != "")
  }

  /** The client built from the resolved endpoint and key. */
  function ResolvedClient(w: World): Client {
    var r := ResolveConfig(w.prefs, w.api.config);
    NewClient(r.endpoint, r.apiKey)
  }

  /** The preferences panel asks to sync exactly when resolving would change
      the scene's settings. */
  lemma NeedsSyncIffResolveChanges(prefs: Option<Config>, scene: Config)
    ensures Panels.NeedsSync(prefs, scene) <==> prefs.Some? && ResolveConfig(prefs, scene) != scene
  {
    var r := ResolveConfig(prefs, scene);
    if prefs.Some? && r != scene {
      var f :| FieldOf(r, f) != FieldOf(scene, f) by {
        if r.endpoint != scene.endpoint {
          assert FieldOf(r, Endpoint) != FieldOf(scene, Endpoint);
        } else if r.apiKey != scene.apiKey {
          assert FieldOf(r, ApiKey) != FieldOf(scene, ApiKey);
        } else if r.showId != scene.showId {
          assert FieldOf(r, ShowId) != FieldOf(scene, ShowId);
        } else {
          assert FieldOf(r, EpisodeId) != FieldOf(scene, EpisodeId);
        }
      }
      assert Panels.Differs(prefs.value, scene, f);
    }
    if Panels.NeedsSync(prefs, scene) {
      var f :| Panels.Differs(prefs.value, scene, f);
      assert FieldOf(r, f) != FieldOf(scene, f);
    }
  }

  /** Resolving is idempotent: resolving against an already resolved scene
      changes nothing. */
  lemma ResolveIdempotent(prefs: Option<Config>, scene: Config)
    ensures ResolveConfig(prefs, ResolveConfig(prefs, scene)) == ResolveConfig(prefs, scene)
  {
    var r := ResolveConfig(prefs, scene);
    var r2 := ResolveConfig(prefs, r);
    assert FieldOf(r2, Endpoint) == FieldOf(r, Endpoint) && FieldOf(r2, ApiKey) == FieldOf(r, ApiKey);
    assert FieldOf(r2, ShowId) == FieldOf(r, ShowId) && FieldOf(r2, EpisodeId) == FieldOf(r, EpisodeId);
  }

  // ---------------------------------------------------------------------
  // Configure API
  // ---------------------------------------------------------------------

  /** Settings that were just saved to the scene (and to the preferences,
      when those exist) resolve to themselves. */
  lemma SavedSettingsResolve(prefs: Option<Config>, r: Config)
    requires prefs.None? || prefs == Some(r)
    ensures ResolveConfig(prefs, r) == r
  {
    var r2 := ResolveConfig(prefs, r);
    assert FieldOf(r2, Endpoint) == FieldOf(r, Endpoint) && FieldOf(r2, ApiKey) == FieldOf(r, ApiKey);
    assert FieldOf(r2, ShowId) == FieldOf(r, ShowId) && FieldOf(r2, EpisodeId) == FieldOf(r, EpisodeId);
  }

  /** The Configure API operator: validate the resolved settings, save them to
      the preferences and the scene, test the connection by fetching the
      episode, and on success mark the scene configured and invoke Load
      Episode (`loadReply` and `doc` are that run's reply and document). A
      load that reports an error raises out of this operator, after the
      settings and the configured flag were already stored. */
  function ConfigureApi(w: World, reply: Transport, loadReply: Transport, doc: EpisodeDoc): (run: Run)
    // Validation, in the order the messages are reported; nothing changes.
    ensures var r := ResolveConfig(w.prefs, w.api.config);
      (r.endpoint == "" || r.apiKey == "") ==>
        run == Run(Cancelled(MissingEndpointOrKey), w, None)
    ensures var r := ResolveConfig(w.prefs, w.api.config);
      (r.endpoint != "" && r.apiKey != "" && r.episodeId == "") ==>
        run == Run(Cancelled(MissingEpisodeId), w, None)
    ensures var r := ResolveConfig(w.prefs, w.api.config);
      (r.endpoint != "" && r.apiKey != "" && r.episodeId != "" && r.showId == "") ==>
        run == Run(Cancelled(MissingShowId), w, None)
    // Once valid, the settings are saved before the request, whatever follows.
    ensures Complete(ResolveConfig(w.prefs, w.api.config)) ==>
      && run.world.api.config == ResolveConfig(w.prefs, w.api.config)
      && run.world.prefs == (if w.prefs.Some? then Some(ResolveConfig(w.prefs, w.api.config)) else None)
      && run.sent == Dispatch(ResolvedClient(w), EpisodeCall(run.world.api.config.episodeId))
      && SameSelection(run.world.state, w.state)
    // The configured flag is set exactly when the connection test succeeds,
    // even if the follow-up load then fails.
    ensures run.world.api.isConfigured <==> w.api.isConfigured || Connected(w, reply)
    ensures Complete(ResolveConfig(w.prefs, w.api.config)) && !Connected(w, reply) ==>
      && run.status == Cancelled(ConnectionFailed(
           GetEpisode(ResolvedClient(w), ResolveConfig(w.prefs, w.api.config).episodeId, reply).result.info))
      && run.world.state == w.state && run.world.shots == w.shots
    // The follow-up load always passes its guards and fetches the same
    // episode; the operator finishes exactly when both fetches succeed.
    ensures run.status.Finished? <==> (Connected(w, reply) &&
      GetEpisode(ResolvedClient(w), ResolveConfig(w.prefs, w.api.config).episodeId, loadReply).result.Ok?)
    ensures run.status.Finished? ==>
      run.world.shots == Episode.Flatten(doc.segments) && run.world.state.episodeData == Some(doc)
    ensures Connected(w, reply) && run.status.Cancelled? ==>
      && run.status.reason == FollowUpFailed(LoadFailed(
           GetEpisode(ResolvedClient(w), ResolveConfig(w.prefs, w.api.config).episodeId, loadReply).result.info))
      && run.world.shots == w.shots
  {
    var r := ResolveConfig(w.prefs, w.api.config);
    if r.endpoint == "" || r.apiKey == "" then Run(Cancelled(MissingEndpointOrKey), w, None)
    else if r.episodeId == "" then Run(Cancelled(MissingEpisodeId), w, None)
    else if r.showId == "" then Run(Cancelled(MissingShowId), w, None)
    else
      var saved := w.(prefs := if w.prefs.Some? then Some(r) else None,
                      api := w.api.(config := r));
      var x := GetEpisode(NewClient(r.endpoint, r.apiKey), r.episodeId, reply);
      match x.result
      case Err(info) => Run(Cancelled(ConnectionFailed(info)), saved, x.sent)
      case Ok(_) =>
        var configured := saved.(api := saved.api.(isConfigured := true));
        SavedSettingsResolve(configured.prefs, r);
        var load := LoadEpisode(configured, loadReply, doc);
        Run(if load.status.Finished? then Finished else Cancelled(FollowUpFailed(load.status.reason)),
            load.world, x.sent)
  }

  /** The connection test of Configure API: the settings are complete and the
      episode fetch with them succeeds. */
  predicate Connected(w: World, reply: Transport) {
    var r := ResolveConfig(w.prefs, w.api.config);
    Complete(r) && GetEpisode(ResolvedClient(w), r.episodeId, reply).result.Ok?
  }

  // ---------------------------------------------------------------------
  // Load Episode
  // ---------------------------------------------------------------------

  /** Two panel states agree on everything except the loading flag and the
      cached episode. */
  predicate SameSelection(a: PluginState, b: PluginState) {
    a.(isLoadingEpisode := false, episodeData := None) == b.(isLoadingEpisode := false, episodeData := None)
  }

  /** The Load Episode operator. `doc` is the document the reply's `data`
      carries when the fetch succeeds. */
  function LoadEpisode(w: World, reply: Transport, doc: EpisodeDoc): (run: Run)
    ensures !CanConnect(w) ==> run == Run(Cancelled(NotConfigured), w, None)
    ensures CanConnect(w) && ResolveConfig(w.prefs, w.api.config).episodeId == "" ==>
      run == Run(Cancelled(EpisodeIdNotSet), w, None)
    // A request goes out exactly when both guards pass, and it is the episode GET.
    ensures run.sent.Some? <==> CanConnect(w) && ResolveConfig(w.prefs, w.api.config).episodeId != ""
    ensures run.sent.Some? ==>
      run.sent == Dispatch(ResolvedClient(w), EpisodeCall(ResolveConfig(w.prefs, w.api.config).episodeId))
    ensures run.status.Finished? <==> (run.sent.Some? &&
      GetEpisode(ResolvedClient(w), ResolveConfig(w.prefs, w.api.config).episodeId, reply).result.Ok?)
    // On success the shot list is rebuilt from the document; on failure it is kept.
    ensures run.status.Finished? ==>
      run.world.shots == Episode.Flatten(doc.segments) && run.world.state.episodeData == Some(doc)
    ensures run.status.Cancelled? ==>
      run.world.shots == w.shots && run.world.state.episodeData == w.state.episodeData
    // Once the request was attempted the loading flag is down again.
    ensures run.sent.Some? ==> !run.world.state.isLoadingEpisode
    ensures run.world.prefs == w.prefs && run.world.api == w.api
    ensures SameSelection(run.world.state, w.state)
  {
    var r := ResolveConfig(w.prefs, w.api.config);
    if !CanConnect(w) then Run(Cancelled(NotConfigured), w, None)
    else if r.episodeId == "" then Run(Cancelled(EpisodeIdNotSet), w, None)
    else
      var x := GetEpisode(NewClient(r.endpoint, r.apiKey), r.episodeId, reply);
      var done := w.state.(isLoadingEpisode := false);
      match x.result
      case Ok(_) =>
        Run(Finished, w.(state := done.(episodeData := Some(doc)), shots := Episode.Flatten(doc.segments)), x.sent)
      case Err(info) =>
        Run(Cancelled(LoadFailed(info)), w.(state := done), x.sent)
  }

  /** After a successful load, the shots of segment `i` appear in the shot
      list in order at its offset, each labelled from its segment's number. */
  lemma LoadedShotsFollowDocument(w: World, reply: Transport, doc: EpisodeDoc, i: nat, j: nat)
    requires LoadEpisode(w, reply, doc).status.Finished?
    requires i < |doc.segments| && j < |doc.segments[i].shots|
    ensures var shots := LoadEpisode(w, reply, doc).world.shots;
      var seg := doc.segments[i];
      var k := Episode.Offset(doc.segments, i) + j;
      && |shots| == Episode.TotalShots(doc.segments)
      && k < |shots|
      && shots[k].shotId == seg.shots[j].id.GetOr("")
      && shots[k].segmentId == seg.id.GetOr("")
      && shots[k].segmentNumber == seg.segmentNumber.GetOr(0)
      && shots[k].segmentTitle == seg.title.GetOr("")
      && shots[k].visual == seg.shots[j].visual.GetOr("")
      && shots[k].shotLabel == Episode.ShotLabel(seg.segmentNumber.GetOr(0), seg.shots[j].shotNumber)
  {
    Episode.FlattenIndex(doc.segments, i, j);
    Episode.FlattenLength(doc.segments);
  }

  // ---------------------------------------------------------------------
  // Paste API Configuration
  // ---------------------------------------------------------------------

  /** The keys read from pasted configuration, in the order they are
      applied, with the setting each one fills. */
  const PastedKeys: seq<(string, ConfigField)> :=
    [("apiKey", ApiKey), ("apiEndpoint", Endpoint), ("showId", ShowId), ("episodeId", EpisodeId)]

  /** Python's `key in config` on a parsed JSON value: key membership for an
      object, substring for a string, element equality for a list; `None`
      when the test raises (a number, a boolean or null). */
  function PyContains(config: Json, key: string): Option<bool> {
    match config
    case JObject(m) => Some(key in m)
    case JString(s) => Some(Contains(s, key))
    case JArray(items) => Some(JString(key) in items)
    case _ => None
  }

  /** Applying the pasted keys to the preferences either completes, or raises
      part way, leaving the preferences assigned so far. */
  datatype PasteOutcome = Pasted(prefs: Config) | Raised(partial: Config)

  /** The `if key in config: prefs.x = config[key]` sequence. Indexing a
      string or a list with a string key raises, and so does assigning a
      value that is not a string to a setting. */
  function PasteKeys(config: Json, keys: seq<(string, ConfigField)>, p: Config): PasteOutcome
    decreases |keys|
  {
    if keys == [] then Pasted(p)
    else
      var key := keys[0].0;
      match PyContains(config, key)
      case None => Raised(p)
      case Some(false) => PasteKeys(config, keys[1..], p)
      case Some(true) =>
        if config.JObject? && config.fields[key].JString? then
          PasteKeys(config, keys[1..], WithField(p, keys[0].1, config.fields[key].s))
        else
          Raised(p)
  }

  predicate DistinctFields(keys: seq<(string, ConfigField)>) {
    forall i, j :: 0 <= i < j < |keys| ==> keys[i].1 != keys[j].1
  }

  /** The value a pasted object gives a setting whose current value is `current`. */
  function PastedValue(m: map<string, Json>, key: string, current: string): string {
    if key in m && m[key].JString? then m[key].s else current
  }

  /** Pasting an object: it completes exactly when every listed key it has
      holds a string; each listed setting then takes the object's string or
      keeps its value, and every other setting is untouched. */
  lemma {:induction false} PasteKeysObject(m: map<string, Json>, keys: seq<(string, ConfigField)>, p: Config)
    requires DistinctFields(keys)
    ensures PasteKeys(JObject(m), keys, p).Pasted? <==>
      forall i :: 0 <= i < |keys| && keys[i].0 in m ==> m[keys[i].0].JString?
    ensures PasteKeys(JObject(m), keys, p).Pasted? ==> forall i :: 0 <= i < |keys| ==>
      FieldOf(PasteKeys(JObject(m), keys, p).prefs, keys[i].1) == PastedValue(m, keys[i].0, FieldOf(p, keys[i].1))
    ensures PasteKeys(JObject(m), keys, p).Pasted? ==> forall f ::
      (forall i :: 0 <= i < |keys| ==> keys[i].1 != f) ==>
      FieldOf(PasteKeys(JObject(m), keys, p).prefs, f) == FieldOf(p, f)
    decreases |keys|
  {
    if keys != [] {
      var key := keys[0].0;
      var f0 := keys[0].1;
      var rest := keys[1..];
      assert DistinctFields(rest);
      var p' := if key in m && m[key].JString? then WithField(p, f0, m[key].s) else p;
      PasteKeysObject(m, rest, p');
      var out := PasteKeys(JObject(m), keys, p);
      if key in m && !m[key].JString? {
        assert out.Raised?;
      } else {
        assert out == PasteKeys(JObject(m), rest, p');
        assert forall i :: 1 <= i < |keys| ==> keys[i] == rest[i - 1];
        if out.Pasted? {
          forall i | 1 <= i < |keys|
            ensures FieldOf(out.prefs, keys[i].1) == PastedValue(m, keys[i].0, FieldOf(p, keys[i].1))
          {
            assert keys[i].1 != f0;
          }
          forall f | forall i :: 0 <= i < |keys| ==> keys[i].1 != f
            ensures FieldOf(out.prefs, f) == FieldOf(p, f)
          {
            assert forall i :: 0 <= i < |rest| ==> rest[i].1 != f by {
              forall i | 0 <= i < |rest| ensures rest[i].1 != f {
                assert rest[i] == keys[i + 1];
              }
            }
            assert keys[0].1 != f;
          }
        }
      }
    }
  }

  /** The Paste API Configuration operator: `text` is what was pasted and
      `parsed` its JSON parse (`None` when it does not parse). Once the keys
      are applied and copied to the scene it invokes Configure API (with
      `reply`, and `loadReply`/`doc` for that run's own follow-up); an error
      reported there lands in this operator's exception handler. */
  function PasteConfig(text: string, parsed: Option<Json>, w: World,
                       reply: Transport, loadReply: Transport, doc: EpisodeDoc): (run: Run)
    ensures text == "" ==> run == Run(Cancelled(EmptyConfigText), w, None)
    ensures text != "" && parsed.None? ==> run == Run(Cancelled(InvalidConfigJson), w, None)
    ensures text != "" && parsed.Some? && w.prefs.None? ==> run == Run(Cancelled(NoPreferences), w, None)
    // When applying raises, what was assigned stays in the preferences and the scene is untouched.
    ensures run.status == Cancelled(PasteRaised) <==> (text != "" && parsed.Some? && w.prefs.Some? &&
      PasteKeys(parsed.value, PastedKeys, w.prefs.value).Raised?)
    ensures run.status == Cancelled(PasteRaised) ==>
      run.world == w.(prefs := Some(PasteKeys(parsed.value, PastedKeys, w.prefs.value).partial))
    // Once applied, the preferences hold the pasted settings and the scene mirrors them,
    // whatever the follow-up does.
    ensures Applied(text, parsed, w) ==>
      var p := PasteKeys(parsed.value, PastedKeys, w.prefs.value).prefs;
      run.world.prefs == Some(p) && run.world.api.config == p
    // It finishes exactly when the pasted settings are complete and both the
    // connection test and the follow-up load succeed with them.
    ensures run.status.Finished? <==> (Applied(text, parsed, w) &&
      var p := PasteKeys(parsed.value, PastedKeys, w.prefs.value).prefs;
      && Complete(p)
      && GetEpisode(NewClient(p.endpoint, p.apiKey), p.episodeId, reply).result.Ok?
      && GetEpisode(NewClient(p.endpoint, p.apiKey), p.episodeId, loadReply).result.Ok?)
    ensures run.status.Finished? ==>
      run.world.api.isConfigured && run.world.shots == Episode.Flatten(doc.segments)
    ensures Applied(text, parsed, w) && run.status.Cancelled? ==> run.status.reason.FollowUpFailed?
    ensures !Applied(text, parsed, w) ==>
      run.world.api.isConfigured == w.api.isConfigured && run.world.state == w.state && run.world.shots == w.shots
    ensures run.sent.None?
  {
    if text == "" then Run(Cancelled(EmptyConfigText), w, None)
    else if parsed.None? then Run(Cancelled(InvalidConfigJson), w, None)
    else if w.prefs.None? then Run(Cancelled(NoPreferences), w, None)
    else
      match PasteKeys(parsed.value, PastedKeys, w.prefs.value)
      case Raised(partial) => Run(Cancelled(PasteRaised), w.(prefs := Some(partial)), None)
      case Pasted(p) =>
        var pasted := w.(prefs := Some(p), api := w.api.(config := p));
        SavedSettingsResolve(Some(p), p);
        var c := ConfigureApi(pasted, reply, loadReply, doc);
        Run(if c.status.Finished? then Finished else Cancelled(FollowUpFailed(c.status.reason)), c.world, None)
  }

  /** The pasted keys were applied without raising. */
  predicate Applied(text: string, parsed: Option<Json>, w: World) {
    text != "" && parsed.Some? && w.prefs.Some? && PasteKeys(parsed.value, PastedKeys, w.prefs.value).Pasted?
  }

  /** Pasting a JSON object whose present keys all hold strings stores those
      strings in the preferences, keeps the settings whose key is absent, and
      copies the result to the scene; only the follow-up can still fail. */
  lemma PasteObjectConfig(text: string, m: map<string, Json>, w: World,
                          reply: Transport, loadReply: Transport, doc: EpisodeDoc)
    requires text != "" && w.prefs.Some?
    requires forall i :: 0 <= i < |PastedKeys| && PastedKeys[i].0 in m ==> m[PastedKeys[i].0].JString?
    ensures var run := PasteConfig(text, Some(JObject(m)), w, reply, loadReply, doc);
      var p := w.prefs.value;
      && (run.status.Finished? || run.status.reason.FollowUpFailed?)
      && run.world.api.config == run.world.prefs.value
      && run.world.prefs.value == Config(
           PastedValue(m, "apiEndpoint", p.endpoint), PastedValue(m, "apiKey", p.apiKey),
           PastedValue(m, "showId", p.showId), PastedValue(m, "episodeId", p.episodeId))
  {
    PasteKeysObject(m, PastedKeys, w.prefs.value);
    var q := PasteKeys(JObject(m), PastedKeys, w.prefs.value).prefs;
    assert FieldOf(q, PastedKeys[0].1) == q.apiKey;
    assert FieldOf(q, PastedKeys[1].1) == q.endpoint;
    assert FieldOf(q, PastedKeys[2].1) == q.showId;
    assert FieldOf(q, PastedKeys[3].1) == q.episodeId;
  }

  /** A listed key holding anything but a string makes the paste fail; the
      scene's settings are untouched. */
  lemma PasteRejectsNonString(text: string, m: map<string, Json>, w: World, i: nat,
                              reply: Transport, loadReply: Transport, doc: EpisodeDoc)
    requires text != "" && w.prefs.Some?
    requires i < |PastedKeys| && PastedKeys[i].0 in m && !m[PastedKeys[i].0].JString?
    ensures PasteConfig(text, Some(JObject(m)), w, reply, loadReply, doc).status == Cancelled(PasteRaised)
    ensures PasteConfig(text, Some(JObject(m)), w, reply, loadReply, doc).world.api == w.api
  {
    PasteKeysObject(m, PastedKeys, w.prefs.value);
  }

  /** Pasted JSON that is a number, a boolean or null fails on the first key
      test, before any setting is assigned. */
  lemma PasteScalarRaises(text: string, config: Json, w: World,
                          reply: Transport, loadReply: Transport, doc: EpisodeDoc)
    requires text != "" && w.prefs.Some?
    requires config.JNull? || config.JBool? || config.JInt? || config.JReal?
    ensures PasteConfig(text, Some(config), w, reply, loadReply, doc) == Run(Cancelled(PasteRaised), w, None)
  {
  }

  // ---------------------------------------------------------------------
  // Sync Preferences
  // ---------------------------------------------------------------------

  /** The Sync Preferences operator: copy each filled-in preference to the
      scene and mark the scene configured when all four are filled in. */
  function SyncPreferences(w: World): (run: Run)
    ensures w.prefs.None? ==> run == Run(Cancelled(NoSavedPreferences), w, None)
    ensures w.prefs.Some? ==> run.status.Finished?
    ensures run.world.api.config == ResolveConfig(w.prefs, w.api.config)
    ensures run.world.api.isConfigured <==> w.api.isConfigured || (w.prefs.Some? && Complete(w.prefs.value))
    ensures run.world.prefs == w.prefs && run.world.state == w.state && run.world.shots == w.shots
    ensures run.sent.None?
  {
    if w.prefs.None? then Run(Cancelled(NoSavedPreferences), w, None)
    else
      var p := w.prefs.value;
      var c0 := w.api.config;
      var c1 := if p.endpoint != "" then c0.(endpoint := p.endpoint) else c0;
      var c2 := if p.apiKey != "" then c1.(apiKey := p.apiKey) else c1;
      var c3 := if p.showId != "" then c2.(showId := p.showId) else c2;
      var c4 := if p.episodeId != "" then c3.(episodeId := p.episodeId) else c3;
      var configured := w.api.isConfigured || Complete(p);
      Run(Finished, w.(api := ApiSettings(c4, configured)), None)
  }

  /** After a sync the preferences panel no longer offers one, and a second
      sync changes nothing. */
  lemma SyncSettles(w: World)
    ensures !Panels.NeedsSync(SyncPreferences(w).world.prefs, SyncPreferences(w).world.api.config)
    ensures SyncPreferences(SyncPreferences(w).world).world == SyncPreferences(w).world
  {
    var w' := SyncPreferences(w).world;
    ResolveIdempotent(w.prefs, w.api.config);
    NeedsSyncIffResolveChanges(w'.prefs, w'.api.config);
  }

  /** A fresh scene (the property defaults: only the endpoint filled in, not
      configured) without the add-on's preferences cannot reach the service:
      loading is refused, Configure API stops at its first check and Sync
      Preferences has nothing to copy. */
  lemma FreshSceneNeedsConfiguring(state: PluginState, shots: seq<ShotItem>,
                                   reply: Transport, loadReply: Transport, doc: EpisodeDoc)
    ensures var w := World(None, DefaultApiSettings, state, shots);
      && !CanConnect(w)
      && LoadEpisode(w, reply, doc) == Run(Cancelled(NotConfigured), w, None)
      && ConfigureApi(w, reply, loadReply, doc) == Run(Cancelled(MissingEndpointOrKey), w, None)
      && SyncPreferences(w) == Run(Cancelled(NoSavedPreferences), w, None)
  {
  }

  // ---------------------------------------------------------------------
  // Edit Shot Visual
  // ---------------------------------------------------------------------

  /** The local update after a successful edit: the first shot with the id
      gets the new visual text and the loop stops there. */
  function SetVisual(shots: seq<ShotItem>, shotId: string, visual: string): (r: seq<ShotItem>)
    ensures Panels.FindShot(shots, shotId).None? ==> r == shots
    ensures Panels.FindShot(shots, shotId).Some? ==>
      var i := Panels.FindShot(shots, shotId).value;
      r == shots[i := shots[i].(visual := visual)]
    decreases |shots|
  {
    if shots == [] then []
    else if shots[0].shotId == shotId then [shots[0].(visual := visual)] + shots[1..]
    else
      var rest := SetVisual(shots[1..], shotId, visual);
      assert shots == [shots[0]] + shots[1..];
      [shots[0]] + rest
  }

  /** The Edit Visual operator for shot `shotId` with the edited text. */
  function EditShotVisual(w: World, shotId: string, visual: string, reply: Transport): (run: Run)
    ensures shotId == "" ==> run == Run(Cancelled(NoShotId), w, None)
    ensures shotId != "" && !CanConnect(w) ==> run == Run(Cancelled(NotConfigured), w, None)
    // The request is a PUT carrying only the visual text.
    ensures shotId != "" && CanConnect(w) ==>
      run.sent == UpdateShot(ResolvedClient(w), shotId, None, Some(visual), None, None, reply).sent
    ensures run.status.Finished? <==> (shotId != "" && CanConnect(w) &&
      UpdateShot(ResolvedClient(w), shotId, None, Some(visual), None, None, reply).result.Ok?)
    ensures run.status.Finished? ==> run.world == w.(shots := SetVisual(w.shots, shotId, visual))
    ensures run.status.Cancelled? ==> run.world == w
  {
    if shotId == "" then Run(Cancelled(NoShotId), w, None)
    else if !CanConnect(w) then Run(Cancelled(NotConfigured), w, None)
    else
      var x := UpdateShot(ResolvedClient(w), shotId, None, Some(visual), None, None, reply);
      match x.result
      case Ok(_) => Run(Finished, w.(shots := SetVisual(w.shots, shotId, visual)), x.sent)
      case Err(info) => Run(Cancelled(UpdateFailed(info)), w, x.sent)
  }

  /** A successful edit changes exactly one row, the first with the id, and
      only its visual text; the Shots panel then describes the new text. */
  lemma EditChangesOneShot(w: World, shotId: string, visual: string, reply: Transport, k: nat)
    requires EditShotVisual(w, shotId, visual, reply).status.Finished?
    requires k < |w.shots|
    ensures var shots := EditShotVisual(w, shotId, visual, reply).world.shots;
      && |shots| == |w.shots|
      && (Panels.FindShot(w.shots, shotId) == Some(k) ==> shots[k] == w.shots[k].(visual := visual))
      && (Panels.FindShot(w.shots, shotId) != Some(k) ==> shots[k] == w.shots[k])
  {
  }

  // ---------------------------------------------------------------------
  // Upload Rendered Image
  // ---------------------------------------------------------------------

  /** The three path arguments of the upload: the render goes in the slot the
      user chose, and no slot gets it when none is chosen. */
  datatype SlotPaths = SlotPaths(main: Option<string>, start: Option<string>, end: Option<string>)

  function ChooseSlot(t: ImageType, path: string): (s: SlotPaths)
    ensures t.NoImage? <==> s == SlotPaths(None, None, None)
    ensures s.main.Some? <==> t.MainImage?
    ensures s.start.Some? <==> t.StartFrame?
    ensures s.end.Some? <==> t.EndFrame?
    ensures s.main.Some? ==> s.main.value == path
    ensures s.start.Some? ==> s.start.value == path
    ensures s.end.Some? ==> s.end.value == path
  {
    match t
    case MainImage => SlotPaths(Some(path), None, None)
    case StartFrame => SlotPaths(None, Some(path), None)
    case EndFrame => SlotPaths(None, None, Some(path))
    case NoImage => SlotPaths(None, None, None)
  }

  /** The upload the operator performs once its guards pass. */
  function RenderUpload(w: World, fs: FileSystem, reply: Transport): Exchange {
    var slots := ChooseSlot(w.state.selectedImageType, w.state.renderedImagePath);
    UploadShotImages(ResolvedClient(w), w.state.selectedShotId, slots.main, slots.start, slots.end, fs, reply)
  }

  /** The operator's guards: the service can be reached, a shot is selected,
      and the render exists on disk. */
  predicate UploadReady(w: World, fs: FileSystem) {
    CanConnect(w) && w.state.selectedShotId != ""
    && w.state.renderedImagePath != "" && w.state.renderedImagePath in fs.existing
  }

  /** The upload succeeded with the operator's guards passing: the point
      where it invokes Load Episode. */
  predicate Uploaded(w: World, fs: FileSystem, reply: Transport) {
    UploadReady(w, fs) && RenderUpload(w, fs, reply).result.Ok?
  }

  /** The Upload & Overwrite operator. After a successful upload it invokes
      Load Episode (`loadReply` and `doc` are that run's reply and document);
      an error reported there lands in this operator's exception handler
      before the preview is closed. The uploading flag is lowered on every
      path that raised it. */
  function UploadRenderedImage(w: World, fs: FileSystem, reply: Transport,
                               loadReply: Transport, doc: EpisodeDoc): (run: Run)
    ensures !CanConnect(w) ==> run == Run(Cancelled(NotConfigured), w, None)
    ensures CanConnect(w) && w.state.selectedShotId == "" ==> run == Run(Cancelled(NoShotSelected), w, None)
    ensures CanConnect(w) && w.state.selectedShotId != "" && !UploadReady(w, fs) ==>
      run == Run(Cancelled(NoRenderedImage), w, None)
    ensures UploadReady(w, fs) ==> run.sent == RenderUpload(w, fs, reply).sent
    // A failed upload reports the service's error and changes nothing else.
    ensures UploadReady(w, fs) && !Uploaded(w, fs, reply) ==>
      && run.status == Cancelled(UploadFailed(RenderUpload(w, fs, reply).result.info))
      && run.world == w.(state := w.state.(isUploadingImage := false))
    // It finishes exactly when the upload and the follow-up load both succeed.
    ensures run.status.Finished? <==> (Uploaded(w, fs, reply) &&
      var episodeId := ResolveConfig(w.prefs, w.api.config).episodeId;
      episodeId != "" && GetEpisode(ResolvedClient(w), episodeId, loadReply).result.Ok?)
    // After both the preview closes, the slot choice resets and the shot list is reloaded.
    ensures run.status.Finished? ==>
      && run.world.state == w.state.(showRenderPreview := false, selectedImageType := NoImage,
                                     isUploadingImage := false, isLoadingEpisode := false,
                                     episodeData := Some(doc))
      && run.world.shots == Episode.Flatten(doc.segments)
    // A failed reload leaves the preview open and the slot choice as it was.
    ensures Uploaded(w, fs, reply) && run.status.Cancelled? ==>
      && run.status.reason.FollowUpFailed?
      && run.world.shots == w.shots
      && SameSelection(run.world.state, w.state.(isUploadingImage := false))
    ensures run.world.prefs == w.prefs && run.world.api == w.api
  {
    if !CanConnect(w) then Run(Cancelled(NotConfigured), w, None)
    else if w.state.selectedShotId == "" then Run(Cancelled(NoShotSelected), w, None)
    else if w.state.renderedImagePath == "" || w.state.renderedImagePath !in fs.existing then
      Run(Cancelled(NoRenderedImage), w, None)
    else
      var x := RenderUpload(w, fs, reply);
      match x.result
      case Err(info) =>
        Run(Cancelled(UploadFailed(info)), w.(state := w.state.(isUploadingImage := false)), x.sent)
      case Ok(_) =>
        var load := LoadEpisode(w.(state := w.state.(isUploadingImage := true)), loadReply, doc);
        var after := load.world.state.(isUploadingImage := false);
        if load.status.Finished? then
          Run(Finished, load.world.(state := after.(showRenderPreview := false, selectedImageType := NoImage)), x.sent)
        else
          Run(Cancelled(FollowUpFailed(load.status.reason)), load.world.(state := after), x.sent)
  }

  /** With no slot chosen the operator passes its guards but uploads nothing:
      it fails without contacting the service. */
  lemma UploadWithoutSlotSendsNothing(w: World, fs: FileSystem, reply: Transport,
                                      loadReply: Transport, doc: EpisodeDoc)
    requires UploadReady(w, fs) && w.state.selectedImageType.NoImage?
    ensures UploadRenderedImage(w, fs, reply, loadReply, doc).sent.None?
    ensures UploadRenderedImage(w, fs, reply, loadReply, doc).status ==
      Cancelled(UploadFailed(map["error" := JString("No images provided or files don't exist")]))
  {
    assert UploadParts(None, None, None, fs) == [];
  }

  /** The form field and file-name prefix of a chosen slot. */
  function SlotField(t: ImageType): string {
    match t
    case MainImage => "mainImage"
    case StartFrame => "startFrame"
    case EndFrame => "endFrame"
    case NoImage => ""
  }

  function SlotPrefix(t: ImageType): string {
    match t
    case MainImage => "main"
    case StartFrame => "start"
    case EndFrame => "end"
    case NoImage => ""
  }

  lemma ChosenSlotPart(t: ImageType, path: string, fs: FileSystem)
    requires !t.NoImage? && path != "" && path in fs.existing
    ensures var slots := ChooseSlot(t, path);
      UploadParts(slots.main, slots.start, slots.end, fs) == [ImagePart(SlotField(t), SlotPrefix(t), path)]
  {
    var part := ImagePart(SlotField(t), SlotPrefix(t), path);
    assert OptionalPart(SlotField(t), SlotPrefix(t), Some(path), fs) == [part];
    match t
    case MainImage =>
      assert ChooseSlot(t, path) == SlotPaths(Some(path), None, None);
      assert UploadParts(Some(path), None, None, fs) == [part] + [] + [];
    case StartFrame =>
      assert ChooseSlot(t, path) == SlotPaths(None, Some(path), None);
      assert UploadParts(None, Some(path), None, fs) == [] + [part] + [];
    case EndFrame =>
      assert ChooseSlot(t, path) == SlotPaths(None, None, Some(path));
      assert UploadParts(None, None, Some(path), fs) == [] + [] + [part];
  }

  /** With a slot chosen and a render that opens, the operator POSTs exactly
      one part: the render, under the chosen slot's field and file-name
      prefix. */
  lemma UploadSendsChosenSlot(w: World, fs: FileSystem, reply: Transport,
                              loadReply: Transport, doc: EpisodeDoc)
    requires UploadReady(w, fs) && !w.state.selectedImageType.NoImage?
    requires w.state.renderedImagePath !in fs.openErrors
    ensures UploadRenderedImage(w, fs, reply, loadReply, doc).sent.Some?
    ensures UploadRenderedImage(w, fs, reply, loadReply, doc).sent.value.files ==
      Some([ImagePart(SlotField(w.state.selectedImageType), SlotPrefix(w.state.selectedImageType),
                      w.state.renderedImagePath)])
  {
    var t := w.state.selectedImageType;
    var path := w.state.renderedImagePath;
    var slots := ChooseSlot(t, path);
    var parts := UploadParts(slots.main, slots.start, slots.end, fs);
    ChosenSlotPart(t, path, fs);
    assert FirstOpenError(parts, fs).None?;
    assert UploadShotImages(ResolvedClient(w), w.state.selectedShotId, slots.main, slots.start, slots.end, fs, reply)
        == SendUpload(ResolvedClient(w), w.state.selectedShotId, parts, fs, reply);
  }

  // ---------------------------------------------------------------------
  // Shots Page
  // ---------------------------------------------------------------------

  /** The Shots Page operator: `NEXT` moves one page on, `PREV` one page back
      but not below zero, anything else stays put. */
  function ShotsPage(page: int, direction: string): (r: int)
    ensures page >= 0 ==> r >= 0
    ensures direction == "NEXT" ==> r == page + 1
    ensures direction == "PREV" ==> r == if page > 0 then page - 1 else 0
    ensures direction != "NEXT" && direction != "PREV" ==> r == page
  {
    if direction == "NEXT" then page + 1
    else if direction == "PREV" then (if page - 1 > 0 then page - 1 else 0)
    else page
  }

  /** Paging forward and then back returns to the page the user was on;
      paging back from a later page and forward again does too. */
  lemma PagingRoundTrip(page: nat)
    ensures ShotsPage(ShotsPage(page, "NEXT"), "PREV") == page
    ensures page > 0 ==> ShotsPage(ShotsPage(page, "PREV"), "NEXT") == page
    ensures ShotsPage(ShotsPage(0, "PREV"), "NEXT") == 1
  {
  }
}
