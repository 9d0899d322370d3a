/** The decisions the sidebar panels make before drawing: whether saved
    preferences differ from the scene, the de-duplicated segment list, the
    shots of the selected segment, the selected shot, and the wrapped visual
    description. */
module Panels {
  import opened Common
  import opened SceneState
  import opened TextWrap

  // ---------------------------------------------------------------------
  // API configuration panel
  // ---------------------------------------------------------------------

  /** Field `f` of the preferences is filled in and differs from the scene's. */
  predicate Differs(prefs: Config, scene: Config, f: ConfigField) {
    FieldOf(prefs, f) != "" && FieldOf(prefs, f) != FieldOf(scene, f)
  }

  /** Whether the panel offers to load the saved settings: the preferences
      exist and one of endpoint, key, show id, episode id is set there and
      differs from the scene. */
  function NeedsSync(prefs: Option<Config>, scene: Config): (r: bool)
    ensures r <==> prefs.Some? && exists f :: Differs(prefs.value, scene, f)
  {
    if prefs.None? then false
    else
      var p := prefs.value;
      if p.endpoint != "" && p.endpoint != scene.endpoint then
        assert Differs(p, scene, Endpoint);
        true
      else if p.apiKey != "" && p.apiKey != scene.apiKey then
        assert Differs(p, scene, ApiKey);
        true
      else if p.showId != "" && p.showId != scene.showId then
        assert Differs(p, scene, ShowId);
        true
      else if p.episodeId != "" && p.episodeId != scene.episodeId then
        assert Differs(p, scene, EpisodeId);
        true
      else
        assert !Differs(p, scene, Endpoint) && !Differs(p, scene, ApiKey);
        assert !Differs(p, scene, ShowId) && !Differs(p, scene, EpisodeId);
        false
  }

  // ---------------------------------------------------------------------
  // Segment selector panel
  // ---------------------------------------------------------------------

  /** The entry the selector keeps for a segment: id, number and title with
      the defaults `""`, `0` and `""` for missing keys. */
  datatype SegmentSummary = SegmentSummary(id: string, number: int, title: string)

  function SegmentId(s: SegmentDoc): string {
    s.id.GetOr("")
  }

  function Summary(s: SegmentDoc): SegmentSummary {
    SegmentSummary(SegmentId(s), s.segmentNumber.GetOr(0), s.title.GetOr(""))
  }

  /** Some entry of `r` has id `id`. */
  predicate HasId(r: seq<SegmentSummary>, id: string) {
    exists k :: 0 <= k < |r| && r[k].id == id
  }

  /** Segment `j` is the first one in the list with its id. */
  predicate FirstWithItsId(segs: seq<SegmentDoc>, j: int) {
    0 <= j < |segs| && forall i :: 0 <= i < j ==> SegmentId(segs[i]) != SegmentId(segs[j])
  }

  /** Entry `k` of `r` summarises the first segment with its id. */
  predicate FromFirst(segs: seq<SegmentDoc>, r: seq<SegmentSummary>, k: int)
    requires 0 <= k < |r|
  {
    exists j :: 0 <= j < |segs| && FirstWithItsId(segs, j) && r[k] == Summary(segs[j])
  }

  /** The selector's segment dictionary: one entry per distinct id, taken
      from the first segment with that id. `UniqueSegmentsInOrder` shows the
      entries are in insertion order. */
  function UniqueSegments(segs: seq<SegmentDoc>): (r: seq<SegmentSummary>)
    ensures forall k, l :: 0 <= k < l < |r| ==> r[k].id != r[l].id
    ensures forall i :: 0 <= i < |segs| ==> HasId(r, SegmentId(segs[i]))
    ensures forall k :: 0 <= k < |r| ==> FromFirst(segs, r, k)
    decreases |segs|
  {
    if segs == [] then []
    else
      var init := segs[..|segs| - 1];
      var last := segs[|segs| - 1];
      var r := UniqueSegments(init);
      assert forall k :: 0 <= k < |r| ==> FromFirst(segs, r, k) by {
        forall k | 0 <= k < |r| ensures FromFirst(segs, r, k) {
          assert FromFirst(init, r, k);
          var j :| 0 <= j < |init| && FirstWithItsId(init, j) && r[k] == Summary(init[j]);
          assert init[j] == segs[j];
          assert FirstWithItsId(segs, j) by {
            forall i | 0 <= i < j ensures SegmentId(segs[i]) != SegmentId(segs[j]) {
              assert init[i] == segs[i];
            }
          }
        }
      }
      assert forall i :: 0 <= i < |init| ==> HasId(r, SegmentId(segs[i])) by {
        forall i | 0 <= i < |init| ensures HasId(r, SegmentId(segs[i])) {
          assert init[i] == segs[i];
        }
      }
      if HasId(r, SegmentId(last)) then
        r
      else
        NewEntry(segs, r)
  }

  /** Appending the last segment's summary when its id is new keeps the three
      properties of `UniqueSegments`. */
  function NewEntry(segs: seq<SegmentDoc>, r: seq<SegmentSummary>): (r': seq<SegmentSummary>)
    requires |segs| > 0
    requires forall k, l :: 0 <= k < l < |r| ==> r[k].id != r[l].id
    requires forall i :: 0 <= i < |segs| - 1 ==> HasId(r, SegmentId(segs[i]))
    requires forall k :: 0 <= k < |r| ==> FromFirst(segs, r, k)
    requires !HasId(r, SegmentId(segs[|segs| - 1]))
    ensures forall k, l :: 0 <= k < l < |r'| ==> r'[k].id != r'[l].id
    ensures forall i :: 0 <= i < |segs| ==> HasId(r', SegmentId(segs[i]))
    ensures forall k :: 0 <= k < |r'| ==> FromFirst(segs, r', k)
  {
    NewEntryDistinct(segs, r);
    NewEntryCovers(segs, r);
    NewEntryFromFirst(segs, r);
    r + [Summary(segs[|segs| - 1])]
  }

  lemma NewEntryDistinct(segs: seq<SegmentDoc>, r: seq<SegmentSummary>)
    requires |segs| > 0
    requires forall k, l :: 0 <= k < l < |r| ==> r[k].id != r[l].id
    requires !HasId(r, SegmentId(segs[|segs| - 1]))
    ensures var r' := r + [Summary(segs[|segs| - 1])];
      forall k, l :: 0 <= k < l < |r'| ==> r'[k].id != r'[l].id
  {
  }

  lemma NewEntryCovers(segs: seq<SegmentDoc>, r: seq<SegmentSummary>)
    requires |segs| > 0
    requires forall i :: 0 <= i < |segs| - 1 ==> HasId(r, SegmentId(segs[i]))
    ensures var r' := r + [Summary(segs[|segs| - 1])];
      forall i :: 0 <= i < |segs| ==> HasId(r', SegmentId(segs[i]))
  {
    var r' := r + [Summary(segs[|segs| - 1])];
    forall i | 0 <= i < |segs| ensures HasId(r', SegmentId(segs[i])) {
      if i < |segs| - 1 {
        assert HasId(r, SegmentId(segs[i]));
        var k :| 0 <= k < |r| && r[k].id == SegmentId(segs[i]);
        assert r'[k] == r[k];
      } else {
        assert r'[|r|].id == SegmentId(segs[i]);
      }
    }
  }

  lemma NewEntryFromFirst(segs: seq<SegmentDoc>, r: seq<SegmentSummary>)
    requires |segs| > 0
    requires forall i :: 0 <= i < |segs| - 1 ==> HasId(r, SegmentId(segs[i]))
    requires forall k :: 0 <= k < |r| ==> FromFirst(segs, r, k)
    requires !HasId(r, SegmentId(segs[|segs| - 1]))
    ensures var r' := r + [Summary(segs[|segs| - 1])];
      forall k :: 0 <= k < |r'| ==> FromFirst(segs, r', k)
  {
    var last := segs[|segs| - 1];
    var r' := r + [Summary(last)];
    assert r'[|r|] == Summary(last);
    assert FirstWithItsId(segs, |segs| - 1) by {
      forall i | 0 <= i < |segs| - 1 ensures SegmentId(segs[i]) != SegmentId(last) {
        assert HasId(r, SegmentId(segs[i]));
      }
    }
    assert FromFirst(segs, r', |r|);
    forall k | 0 <= k < |r| ensures FromFirst(segs, r', k) {
      assert FromFirst(segs, r, k);
      assert r'[k] == r[k];
    }
  }

  /** The ids of a list of segments. */
  function Ids(segs: seq<SegmentDoc>): set<string> {
    set i | 0 <= i < |segs| :: SegmentId(segs[i])
  }

  /** The dictionary loop read front to back: each segment whose id is not
      yet a key (nor in `seen`) adds its summary at the end. */
  function InsertionOrder(segs: seq<SegmentDoc>, seen: set<string>): seq<SegmentSummary>
    decreases |segs|
  {
    if segs == [] then []
    else if SegmentId(segs[0]) in seen then InsertionOrder(segs[1..], seen)
    else [Summary(segs[0])] + InsertionOrder(segs[1..], seen + {SegmentId(segs[0])})
  }

  /** One more segment at the end of the loop adds its summary exactly when
      its id is new. */
  lemma {:induction false} InsertionOrderSnoc(a: seq<SegmentDoc>, x: SegmentDoc, seen: set<string>)
    ensures InsertionOrder(a + [x], seen) ==
      InsertionOrder(a, seen) + (if SegmentId(x) in seen + Ids(a) then [] else [Summary(x)])
    decreases |a|
  {
    if a == [] {
      assert a + [x] == [x];
      assert Ids(a) == {};
    } else {
      assert (a + [x])[0] == a[0];
      assert (a + [x])[1..] == a[1..] + [x];
      assert Ids(a) == {SegmentId(a[0])} + Ids(a[1..]) by {
        forall id | id in Ids(a) ensures id in {SegmentId(a[0])} + Ids(a[1..]) {
          var i :| 0 <= i < |a| && SegmentId(a[i]) == id;
          if i > 0 {
            assert a[1..][i - 1] == a[i];
          }
        }
        forall id | id in Ids(a[1..]) ensures id in Ids(a) {
          var i :| 0 <= i < |a[1..]| && SegmentId(a[1..][i]) == id;
          assert a[1..][i] == a[i + 1];
        }
      }
      var id0 := SegmentId(a[0]);
      if id0 in seen {
        InsertionOrderSnoc(a[1..], x, seen);
      } else {
        InsertionOrderSnoc(a[1..], x, seen + {id0});
        assert (seen + {id0}) + Ids(a[1..]) == seen + Ids(a);
      }
    }
  }

  /** The selector's dictionary lists its entries in the order their ids
      first appear: it is the front-to-back loop's result. */
  lemma {:induction false} UniqueSegmentsInOrder(segs: seq<SegmentDoc>)
    ensures UniqueSegments(segs) == InsertionOrder(segs, {})
    decreases |segs|
  {
    if segs != [] {
      var init := segs[..|segs| - 1];
      var last := segs[|segs| - 1];
      var r := UniqueSegments(init);
      UniqueSegmentsInOrder(init);
      assert segs == init + [last];
      InsertionOrderSnoc(init, last, {});
      assert HasId(r, SegmentId(last)) <==> SegmentId(last) in Ids(init) by {
        if HasId(r, SegmentId(last)) {
          var k :| 0 <= k < |r| && r[k].id == SegmentId(last);
          assert FromFirst(init, r, k);
          var j :| 0 <= j < |init| && FirstWithItsId(init, j) && r[k] == Summary(init[j]);
          assert SegmentId(init[j]) in Ids(init);
        }
        if SegmentId(last) in Ids(init) {
          var i :| 0 <= i < |init| && SegmentId(init[i]) == SegmentId(last);
          assert HasId(r, SegmentId(init[i]));
        }
      }
    }
  }

  // ---------------------------------------------------------------------
  // Shots panel
  // ---------------------------------------------------------------------

  /** The positions of the shots that belong to segment `segmentId`, in
      increasing order. */
  function MatchingIndices(shots: seq<ShotItem>, segmentId: string): (ix: seq<nat>)
    ensures forall k :: 0 <= k < |ix| ==> ix[k] < |shots| && shots[ix[k]].segmentId == segmentId
    ensures forall k, l :: 0 <= k < l < |ix| ==> ix[k] < ix[l]
    ensures forall i :: 0 <= i < |shots| && shots[i].segmentId == segmentId ==> i in ix
    decreases |shots|
  {
    if shots == [] then []
    else
      var ix := MatchingIndices(shots[..|shots| - 1], segmentId);
      if shots[|shots| - 1].segmentId == segmentId then ix + [|shots| - 1] else ix
  }

  /** `[s for s in shots if s.segment_id == segmentId]`. */
  function ShotsInSegment(shots: seq<ShotItem>, segmentId: string): (r: seq<ShotItem>)
    decreases |shots|
  {
    if shots == [] then []
    else
      var r := ShotsInSegment(shots[..|shots| - 1], segmentId);
      if shots[|shots| - 1].segmentId == segmentId then r + [shots[|shots| - 1]] else r
  }

  /** The filtered list is the subsequence of shots at the matching
      positions: exactly the shots of the segment, in their original order. */
  lemma {:induction false} ShotsInSegmentIsSubsequence(shots: seq<ShotItem>, segmentId: string)
    ensures var r := ShotsInSegment(shots, segmentId);
      var ix := MatchingIndices(shots, segmentId);
      |r| == |ix| && forall k :: 0 <= k < |r| ==> r[k] == shots[ix[k]]
    decreases |shots|
  {
    if shots != [] {
      var init := shots[..|shots| - 1];
      var last := shots[|shots| - 1];
      ShotsInSegmentIsSubsequence(init, segmentId);
      var r := ShotsInSegment(init, segmentId);
      var ix := MatchingIndices(init, segmentId);
      assert forall k :: 0 <= k < |ix| ==> init[ix[k]] == shots[ix[k]];
      if last.segmentId == segmentId {
        var r', ix' := r + [last], ix + [|shots| - 1];
        assert ShotsInSegment(shots, segmentId) == r' && MatchingIndices(shots, segmentId) == ix';
        forall k | 0 <= k < |r'| ensures r'[k] == shots[ix'[k]] {
          if k < |r| {
            assert r'[k] == r[k] && ix'[k] == ix[k];
          }
        }
      } else {
        assert ShotsInSegment(shots, segmentId) == r && MatchingIndices(shots, segmentId) == ix;
      }
    }
  }

  /** The position of the first shot with id `shotId`. */
  function FindShot(shots: seq<ShotItem>, shotId: string): (r: Option<nat>)
    ensures r.Some? ==> r.value < |shots| && shots[r.value].shotId == shotId
    ensures r.Some? ==> forall j :: 0 <= j < r.value ==> shots[j].shotId != shotId
    ensures r.None? ==> forall j :: 0 <= j < |shots| ==> shots[j].shotId != shotId
    decreases |shots|
  {
    if shots == [] then None
    else if shots[0].shotId == shotId then Some(0)
    else
      match FindShot(shots[1..], shotId)
      case None => None
      case Some(i) => Some(i + 1)
  }

  /** What a panel shows under "Visual Description": `(none)` for an empty
      description, otherwise the wrapped lines. */
  datatype Description = NoDescription | DescriptionLines(lines: seq<string>)

  function Describe(visual: string): (d: Description)
    ensures d.NoDescription? <==> visual == ""
    ensures d.DescriptionLines? ==> JoinSpace(d.lines) == JoinSpace(SplitWords(visual))
    ensures d.DescriptionLines? ==> forall i :: 0 <= i < |d.lines| ==>
      d.lines[i] != "" && (|d.lines[i]| <= MaxLineLength || d.lines[i] in SplitWords(visual))
    ensures d.DescriptionLines? ==> Greedy(d.lines)
  {
    WrapTextProperties(visual);
    if visual == "" then NoDescription else DescriptionLines(WrapText(visual))
  }

  datatype SelectedShotView = SelectedShotView(shotLabel: string, description: Description)

  /** What the Shots panel shows: a hint to pick a segment, a hint that the
      segment is empty, or the number of shots with the selected shot. */
  datatype ShotsListView =
    | PickSegmentHint
    | NoShotsHint
    | ShotListing(available: nat, selected: Option<SelectedShotView>)

  function ShotView(shot: ShotItem): SelectedShotView {
    SelectedShotView(shot.shotLabel, Describe(shot.visual))
  }

  /** The Shots panel for the current selection. */
  function ShotsListPanel(state: PluginState, shots: seq<ShotItem>): (v: ShotsListView)
    ensures v.PickSegmentHint? <==> state.selectedSegmentId == ""
    ensures v.NoShotsHint? <==>
      (state.selectedSegmentId != "" && ShotsInSegment(shots, state.selectedSegmentId) == [])
    ensures v.ShotListing? ==> v.available == |ShotsInSegment(shots, state.selectedSegmentId)| > 0
    // A shot is shown exactly when a shot id is selected and the segment has
    // a shot with that id; it is the first such shot of the segment.
    ensures v.ShotListing? ==>
      (v.selected.Some? <==>
        (state.selectedShotId != ""
         && FindShot(ShotsInSegment(shots, state.selectedSegmentId), state.selectedShotId).Some?))
    ensures v.ShotListing? && v.selected.Some? ==>
      var filtered := ShotsInSegment(shots, state.selectedSegmentId);
      v.selected.value == ShotView(filtered[FindShot(filtered, state.selectedShotId).value])
  {
    if state.selectedSegmentId == "" then PickSegmentHint
    else
      var filtered := ShotsInSegment(shots, state.selectedSegmentId);
      if filtered == [] then NoShotsHint
      else
        var selected :=
          if state.selectedShotId == "" then None
          else match FindShot(filtered, state.selectedShotId)
            case None => None
            case Some(i) => Some(ShotView(filtered[i]));
        ShotListing(|filtered|, selected)
  }

  /** What the Shot Images panel shows: the selected shot's label and
      description, or that the shot was not found. */
  datatype ShotImagesView = ShotNotFound | ShotImages(view: SelectedShotView)

  /** The Shot Images panel: it looks the selected shot up in the whole list. */
  function ShotImagesPanel(state: PluginState, shots: seq<ShotItem>): (v: ShotImagesView)
    ensures v.ShotNotFound? <==> forall j :: 0 <= j < |shots| ==> shots[j].shotId != state.selectedShotId
    ensures v.ShotImages? ==> exists j :: 0 <= j < |shots| && shots[j].shotId == state.selectedShotId
                                         && v.view == ShotView(shots[j])
                                         && forall k :: 0 <= k < j ==> shots[k].shotId != state.selectedShotId
  {
    match FindShot(shots, state.selectedShotId)
    case None => ShotNotFound
    case Some(i) => ShotImages(ShotView(shots[i]))
  }

  lemma {:induction false} FindShotInSegment(shots: seq<ShotItem>, segmentId: string, shotId: string)
    requires FindShot(shots, shotId).Some?
    requires shots[FindShot(shots, shotId).value].segmentId == segmentId
    ensures FindShot(ShotsInSegment(shots, segmentId), shotId).Some?
    ensures ShotsInSegment(shots, segmentId)[FindShot(ShotsInSegment(shots, segmentId), shotId).value]
         == shots[FindShot(shots, shotId).value]
  {
    var i := FindShot(shots, shotId).value;
    var r := ShotsInSegment(shots, segmentId);
    var ix := MatchingIndices(shots, segmentId);
    ShotsInSegmentIsSubsequence(shots, segmentId);
    assert i in ix;
    var k :| 0 <= k < |ix| && ix[k] == i;
    assert r[k] == shots[i];
    forall l | 0 <= l < k ensures r[l].shotId != shotId {
      assert ix[l] < ix[k];
    }
    var fr := FindShot(r, shotId);
    assert fr.Some?;
    assert fr.value == k;
  }

  /** The two panels draw the same description: when the selected shot's first
      occurrence lies in the selected segment, the Shots panel and the Shot
      Images panel show the same label and the same wrapped lines. */
  lemma PanelsShowSameShot(state: PluginState, shots: seq<ShotItem>)
    requires state.selectedSegmentId != "" && state.selectedShotId != ""
    requires FindShot(shots, state.selectedShotId).Some?
    requires shots[FindShot(shots, state.selectedShotId).value].segmentId == state.selectedSegmentId
    ensures ShotsListPanel(state, shots).ShotListing?
    ensures ShotImagesPanel(state, shots).ShotImages?
    ensures ShotsListPanel(state, shots).selected == Some(ShotImagesPanel(state, shots).view)
  {
    FindShotInSegment(shots, state.selectedSegmentId, state.selectedShotId);
  }
}
