# Concepto Blender plugin — a Dafny model of its core logic

This project models the pure logic of the Concepto add-on for Blender and proves properties about it. The add-on connects a Blender scene to the Concepto production-tracking service. It loads an episode's segments and shots, shows a shot's visual description in the sidebar, lets the user edit that text, and uploads rendered frames as the shot's main image, start frame or end frame.

The model covers:

- **Text wrap** (`wrap.dfy`, module `TextWrap`): the greedy 24-character word wrap the Shots and Shot Images panels apply to a visual description. It is defined once, as a function over the whitespace-split words. A loop method follows the panel's own loop step by step.
- **Panels** (`panels.py` → `panels.dfy`, module `Panels`):
  - the "preferences differ from the scene" check;
  - the first-wins de-duplication of segments by id;
  - the per-segment shot filter;
  - the first-match lookup of the selected shot;
  - what the Shots and Shot Images panels show.
- **REST client** (`api_client.py` → `api_client.dfy`, module `ApiClient`):
  - endpoint normalisation and URL building;
  - header merging;
  - method dispatch;
  - the total classifier from a reply (or a transport exception) to success or a coded error;
  - the `update_shot` payload;
  - the multipart parts and MIME types of an image upload.
- **Operators** (`operators.py` → `operators.dfy` and `episode.dfy`, modules `Operators` and `Episode`): each operator is a function from the world to an outcome. The world is the saved preferences, the scene's API settings, the panel state and the shot list. The outcome is finished or cancelled with a reason, plus the new world and the request sent, if any. The operators covered are:
  - Configure API;
  - Load Episode, including the flattening of segments into shot rows and the `SCnn - Shot k` label;
  - Paste API Configuration;
  - Sync Preferences;
  - Edit Visual;
  - Upload & Overwrite;
  - Shots Page.
- **Shared definitions**:
  - `common.dfy`: `Option`, and a JSON value type;
  - `text.dfy`: the Python string operations the code relies on, which are `isspace`, `strip`, `rstrip('/')`, `in`, ASCII `upper`/`lower`, slicing, `str(int)` and `:02d`;
  - `scene.dfy`: the settings record, the shot row, the panel state and the episode document.

The network, the file system and JSON parsing are inputs to the model:

- A reply is a `Transport` value: a response record with its content type, body text, status and the outcome of parsing the body, or the exception the HTTP library raised.
- The file system is the set of existing paths plus the paths whose opening raises.
- Pasted text comes with its parse.
- A successful episode fetch comes with the typed episode document that its `data` holds.

## Model

| member | source | states |
|---|---|---|
| TextWrap.WrapDescription | blender-plugin/concepto_blender_plugin/panels.py:207-233 | The panel's loop computes the wrap function. Its lines, joined by single spaces, are the text's words joined by single spaces. Every line is non-empty and is at most 24 characters, unless it is a single longer word. There are no lines exactly when the text has no words. Each line was ended only because the next line's first word would not fit. |
| TextWrap.WrapProperties | blender-plugin/concepto_blender_plugin/panels.py:213-233 | For any list of words, the wrap loses, reorders and breaks no word. It also respects the 24-character bound except for a single over-long word, emits no empty line, and is greedy. |
| TextWrap.WrapTextProperties | blender-plugin/concepto_blender_plugin/panels.py:207-233 | The same properties, for the text itself. Re-splitting the joined lines gives back exactly the words of `visual.split()`. |
| TextWrap.SplitJoinRoundTrip | blender-plugin/concepto_blender_plugin/panels.py:208 | `str.split()` inverts joining words with single spaces. |
| Panels.NeedsSync | blender-plugin/concepto_blender_plugin/panels.py:27-36 | True if and only if preferences exist and one of endpoint, key, show id and episode id is filled in there and differs from the scene's value. |
| Panels.UniqueSegments | blender-plugin/concepto_blender_plugin/panels.py:132-140 | One entry per distinct segment id. Every segment's id has an entry. Each entry is the summary of the first segment with that id, with the defaults `''`, `0` and `''`. |
| Panels.UniqueSegmentsInOrder | blender-plugin/concepto_blender_plugin/panels.py:132-140 | The entries are in the order their ids first appear: the list equals the front-to-back loop that adds a summary for each id not yet a key. |
| Panels.MatchingIndices | blender-plugin/concepto_blender_plugin/panels.py:175 | The strictly increasing positions of exactly the shots whose segment id is the selected one. |
| Panels.ShotsInSegmentIsSubsequence | blender-plugin/concepto_blender_plugin/panels.py:175 | The filtered list is the subsequence of the shots at those positions: exactly the segment's shots, in their original order. |
| Panels.FindShot | blender-plugin/concepto_blender_plugin/panels.py:262-266 | The first shot with the id, or none when no shot has it. The Shots panel's loop at lines 188-193 is the same search. |
| Panels.Describe | blender-plugin/concepto_blender_plugin/panels.py:203-241 | `(none)` exactly for an empty description. Otherwise the lines are the wrapped words: content-preserving, bounded, non-empty and greedy. |
| Panels.ShotsListPanel | blender-plugin/concepto_blender_plugin/panels.py:171-198 | The "select a segment" hint shows exactly when no segment is selected. The "no shots" hint shows exactly when a segment is selected but the filtered list is empty. Otherwise the count shown is the filtered list's length. A shot is shown exactly when a shot id is selected and the segment has a shot with that id; it is the first such shot, with its label and description. |
| Panels.ShotImagesPanel | blender-plugin/concepto_blender_plugin/panels.py:261-272 | "Shot not found" shows exactly when no shot in the whole list has the selected id. Otherwise the panel shows the first shot that has it. |
| Panels.PanelsShowSameShot | blender-plugin/concepto_blender_plugin/panels.py:281-307 | The Shot Images panel repeats the Shots panel's wrap. So when the first shot with the selected id lies in the selected segment, both panels show that shot, with the same label and the same wrapped description lines. |
| ApiClient.NewClient | blender-plugin/concepto_blender_plugin/api_client.py:10-16 | The stored endpoint is the given one without its trailing run of `/`. The client headers are exactly `X-API-Key` with the key and `Content-Type: application/json`. |
| ApiClient.TrailingSlashesIgnored | blender-plugin/concepto_blender_plugin/api_client.py:11-20 | Trailing slashes on the configured endpoint never change a request URL. |
| ApiClient.RequestHeaders | blender-plugin/concepto_blender_plugin/api_client.py:21-34 | The sent headers are the union of the caller's and the client's, and the client's values win. A multipart upload drops `Content-Type`. |
| ApiClient.ApiKeyAlwaysSent | blender-plugin/concepto_blender_plugin/api_client.py:13-34 | Whatever headers the caller passes, the key is sent. `Content-Type` is absent exactly for multipart. |
| ApiClient.Dispatch | blender-plugin/concepto_blender_plugin/api_client.py:18-38 | A request exists exactly when the method, upper-cased, is GET, PUT or POST, and its verb is that method. Its URL is endpoint plus path. Its headers are the merged headers, made multipart exactly for a POST with files. The `files` argument always passes through. GET and a file POST pass the `json` argument through. PUT and a non-file POST send the JSON body, defaulting to `{}`. `Content-Type` is absent exactly for a file POST, or when nobody set it. |
| ApiClient.MakeRequest | blender-plugin/concepto_blender_plugin/api_client.py:18-38 | An unsupported method returns "Unsupported method: m" and sends nothing. Otherwise the result is the classification of the reply. |
| ApiClient.UnsupportedMethodSendsNothing | blender-plugin/concepto_blender_plugin/api_client.py:37-38 | For an unsupported method, the outcome does not depend on the network at all. |
| ApiClient.RejectedReply | blender-plugin/concepto_blender_plugin/api_client.py:59-74 | A non-2xx, non-HTML reply is always an error. An unparseable body gives HTTP_ERROR. An object body (an empty body counts as `{}`) gives its own error fields with defaults. Any other JSON body gives UNEXPECTED_ERROR. |
| ApiClient.Classify | blender-plugin/concepto_blender_plugin/api_client.py:40-86 | The cases, in order: <br>• A `RequestException` gives NETWORK_ERROR, and any other exception gives UNEXPECTED_ERROR. <br>• An HTML reply gives INVALID_ENDPOINT, whatever its status. <br>• Success holds exactly for a non-HTML 200/201 reply whose body parses, and it carries that body. <br>• An unparseable 200/201 reply gives INVALID_JSON. <br>• Any other status with an unparseable body gives HTTP_ERROR. <br>• An object body gives error, code and details from the body, with the defaults. <br>• A non-object body gives UNEXPECTED_ERROR. |
| ApiClient.EmptyErrorBodyDefaults | blender-plugin/concepto_blender_plugin/api_client.py:59-67 | An error reply with an empty body reports `HTTP <status>`, `UNKNOWN_ERROR` and empty details. |
| ApiClient.GetEpisode | blender-plugin/concepto_blender_plugin/api_client.py:88-90 | A GET of `<endpoint>/episodes/<id>` with the client's headers and no body. Its result is the classification of the reply. |
| ApiClient.ShotUpdatePayload | blender-plugin/concepto_blender_plugin/api_client.py:101-109 | The key set is exactly the given arguments, under `audio`, `visual`, `wordCount` and `runtime`, with their values. |
| ApiClient.UpdateShot | blender-plugin/concepto_blender_plugin/api_client.py:96-111 | A PUT of that payload to `<endpoint>/shots/<id>`. |
| ApiClient.Extension | blender-plugin/concepto_blender_plugin/api_client.py:126 | The `splitext` extension. It is empty exactly when the path has no split point: a dot with no dot or `/` after it and some non-dot character of the same file name before it. Otherwise it is the suffix from that split point. It has no `/` and no further `.`. |
| ApiClient.ImagePart | blender-plugin/concepto_blender_plugin/api_client.py:122-142 | The file name is prefix plus extension, with `.png` when there is none. The MIME type is `image/png` exactly when the extension is `.png` or absent, and `image/jpeg` otherwise. |
| ApiClient.FirstOpenError | blender-plugin/concepto_blender_plugin/api_client.py:121-150 | An upload fails on opening exactly when some included file fails to open. |
| ApiClient.UploadPartsSpec | blender-plugin/concepto_blender_plugin/api_client.py:118-142 | The parts are one per given, non-empty, existing path. They are under `mainImage`, `startFrame` and `endFrame`, in that order. |
| ApiClient.SendUpload | blender-plugin/concepto_blender_plugin/api_client.py:121-150 | A request is sent exactly when there is some part and every part's file opens. It is a multipart POST of exactly those parts to `<endpoint>/shots/<id>/images` without `Content-Type`, and its result is the classification of the reply. A file that fails to open gives UPLOAD_ERROR. No parts gives "No images provided or files don't exist". |
| ApiClient.PostParts | blender-plugin/concepto_blender_plugin/api_client.py:147 | The upload request is a POST to `<endpoint>/shots/<id>/images` carrying the parts as files and no `Content-Type`. It is exactly the generic `_make_request` of `POST` on that path with the parts as `files`. |
| Episode.ShotLabelReadsBack | blender-plugin/concepto_blender_plugin/operators.py:202 | The label is `SC`, then the digits whose value is the segment number, then ` - Shot ` and the shot number's text. The digits are zero-padded to two for a number below 10 and otherwise have the number's own length and no leading zero. |
| Episode.FlattenLength | blender-plugin/concepto_blender_plugin/operators.py:187-214 | The loaded list has one row per shot of the document. |
| Episode.FlattenIndex | blender-plugin/concepto_blender_plugin/operators.py:187-214 | Row `offset(i) + j` is shot `j` of segment `i`. The list is segment-major and shot-minor, with nothing dropped, repeated or reordered. |
| Episode.FlattenRowsFromSegments | blender-plugin/concepto_blender_plugin/operators.py:187-214 | Every row comes from some shot of some segment. |
| Operators.ResolveConfig | blender-plugin/concepto_blender_plugin/operators.py:100-103 | Each field is the preference when preferences exist and the preference is filled in, and the scene's value otherwise. A field is empty exactly when both sources are. |
| Operators.ResolveIdempotent | blender-plugin/concepto_blender_plugin/operators.py:100-103 | Resolving against an already resolved scene changes nothing. |
| Operators.SavedSettingsResolve | blender-plugin/concepto_blender_plugin/operators.py:118-128 | Once the resolved settings are saved, resolving them again, as the invoked Load Episode does, gives the same settings. |
| Operators.FreshSceneNeedsConfiguring | blender-plugin/concepto_blender_plugin/properties.py:8-49 | A scene with the property defaults and no add-on preferences cannot reach the service. Load Episode is refused, Configure API stops at its first check, and Sync Preferences has nothing to copy. |
| Operators.NeedsSyncIffResolveChanges | blender-plugin/concepto_blender_plugin/panels.py:27-36 | The sync prompt shows exactly when preferences exist and resolving would change the scene's settings. |
| Operators.ConfigureApi | blender-plugin/concepto_blender_plugin/operators.py:94-148 | Validation is ordered: endpoint or key, then episode, then show. A failure changes nothing and sends nothing. Otherwise the resolved settings are saved to the preferences (if any) and the scene, and the episode GET is sent. The configured flag becomes set exactly when that GET succeeds and is never cleared. A failed GET cancels with its error and keeps the panel state and shots. After a successful GET the operator invokes Load Episode. It finishes exactly when both fetches succeed, with the shot list rebuilt from the document. If the load fails, the load's error is raised out of the operator and the shots are kept. |
| Operators.LoadEpisode | blender-plugin/concepto_blender_plugin/operators.py:157-231 | The guards are: configured or endpoint plus key, then an episode id. A request is sent exactly when both pass, and it is the episode GET. Success replaces the shot list with the flattened document and caches the document. Failure keeps the shot list. The loading flag is down afterwards, and the settings and selection are untouched. |
| Operators.LoadedShotsFollowDocument | blender-plugin/concepto_blender_plugin/operators.py:187-214 | After a load, the count equals the total number of shots. Each row carries its shot's id and visual, its segment's id, number and title, and its label. |
| Operators.PasteConfig | blender-plugin/concepto_blender_plugin/operators.py:44-85 | The checks are ordered: empty text, then invalid JSON, then missing preferences, and each of these changes nothing. An assignment raises exactly when applying the keys fails; then the preferences assigned so far remain and the scene is untouched. Once the keys are applied, the preferences hold the pasted settings and the scene mirrors them, whatever follows. The operator then invokes Configure API. It finishes exactly when the pasted settings are complete and both the connection test and the follow-up load succeed. Any error there lands in the exception handler and cancels. |
| Operators.PasteKeysObject | blender-plugin/concepto_blender_plugin/operators.py:58-66 | Pasting an object completes exactly when every listed key present holds a string. Each listed setting then takes that string or keeps its value, and nothing else changes. |
| Operators.PasteObjectConfig | blender-plugin/concepto_blender_plugin/operators.py:58-78 | Pasting such an object sets exactly the present keys' settings in the preferences and copies all four settings to the scene. Only the invoked Configure API can still make it fail. |
| Operators.PasteRejectsNonString | blender-plugin/concepto_blender_plugin/operators.py:58-85 | A present key holding a non-string value cancels the paste, and the scene is untouched. |
| Operators.PasteScalarRaises | blender-plugin/concepto_blender_plugin/operators.py:58-85 | A pasted number, boolean or null cancels the paste before any assignment. |
| Operators.SyncPreferences | blender-plugin/concepto_blender_plugin/operators.py:653-677 | Without preferences it cancels. Otherwise the scene's settings become the resolved settings, so only filled-in preferences are copied. The configured flag is the old flag, or all four preferences filled in, so it is never cleared. |
| Operators.SyncSettles | blender-plugin/concepto_blender_plugin/operators.py:663-674 | After a sync the panel no longer offers one, and a second sync changes nothing. |
| Operators.SetVisual | blender-plugin/concepto_blender_plugin/operators.py:719-722 | Only the first shot with the id gets the new visual. With no such shot, the list is unchanged. |
| Operators.EditShotVisual | blender-plugin/concepto_blender_plugin/operators.py:697-726 | An empty shot id cancels and changes nothing. Not being configured also cancels and changes nothing. Otherwise it sends the PUT carrying only `visual`. On success only the local list changes; on failure nothing does. |
| Operators.EditChangesOneShot | blender-plugin/concepto_blender_plugin/operators.py:716-723 | After a successful edit the list keeps its length. The first matching row has its visual replaced, and every other row is unchanged. |
| Operators.ChooseSlot | blender-plugin/concepto_blender_plugin/operators.py:399-408 | The render goes to exactly the chosen slot, and to no slot when none is chosen. |
| Operators.UploadRenderedImage | blender-plugin/concepto_blender_plugin/operators.py:371-443 | The guards are: configured, then a shot selected, then the render exists. A guard failure changes nothing. Once the guards pass, the upload of the chosen slot is performed. A failed upload cancels with its error and changes nothing but the uploading flag. A successful upload invokes Load Episode. The operator finishes exactly when that load succeeds; then the preview closes, the slot choice resets and the shot list is rebuilt. A failed load raises before the preview is closed, so the selection and shots are kept. The uploading flag is down afterwards. |
| Operators.UploadWithoutSlotSendsNothing | blender-plugin/concepto_blender_plugin/operators.py:399-414 | With no slot chosen, the operator passes its guards but fails with "No images provided" and contacts nothing. |
| Operators.UploadSendsChosenSlot | blender-plugin/concepto_blender_plugin/operators.py:399-414 | With a slot chosen and a render that opens, exactly one part is POSTed: the render, under the slot's field and prefix. |
| Operators.ShotsPage | blender-plugin/concepto_blender_plugin/operators.py:598-607 | NEXT goes to page+1. PREV goes to page−1 from a positive page, and to 0 otherwise. Other directions stay put. A non-negative page stays non-negative. |
| Operators.PagingRoundTrip | blender-plugin/concepto_blender_plugin/operators.py:602-605 | NEXT then PREV returns to the page. PREV then NEXT does too, from any page but the first. |

## Left out

- **Timeline engine and DaVinci scripts:** the timeline-synchronisation engine and the DaVinci Resolve scripts are not part of this model.
- **Blender-side effects:**
  - rendering, image loading and packing, temporary files, UI drawing and redraws;
  - the render-preview cancel operator;
  - the select and enlarge operators, which only assign a property or show images;
  - the panels' `poll` visibility gates.

  These are side effects on Blender with no logic to state.
- **Registration, properties and `UpdateShotVisual`:**
  - registration and reload plumbing, and the property declarations, except the API settings' defaults, which `SceneState.DefaultApiSettings` holds;
  - the `UpdateShotVisual` operator, a second PUT path that the Edit Visual operator supersedes.
- **Invoked operators:** Configure API, Paste API Configuration and Upload & Overwrite invoke another operator through `bpy.ops`. The model runs that operator's function. An error it reports becomes a raised exception in the caller, with reason `FollowUpFailed`. The request of the invoked operator is stated through that operator's own outcome, not the caller's `sent`. The reply and document the invoked operator receives are separate inputs. Nothing ties them to the caller's own reply.
- **Segment dictionary:** the Segment Selector panel builds the dictionary of `UniqueSegments` but never reads it. Its dropdown shows the scene's `selected_segment_enum` property instead; that property's definition is not part of this model.
- **Report messages:** the text of the report messages is not modelled. A cancellation carries a reason constructor, and the error dictionary where the source shows one.
- **I/O:** real HTTP (`requests`), file opening and closing, `os.path.exists`, and JSON parsing and serialisation are inputs as described above.
- **Loaded-document decoding:** Load Episode takes the typed episode document as an input. The decoding of the reply's JSON into that document is not modelled. So are the exceptions that wrong-typed values raise there (a `null` or non-string id assigned to a string property, a non-integer segment number under `:02d`, a non-list `shots`).
- **Non-integer numbers:** shot numbers are integers or strings, and segment numbers are integers. Floating-point numbers in the document and the 32-bit range of Blender's integer properties are not modelled.
- **Case mapping:** `upper()` and `lower()` are modelled on ASCII letters only. Other Unicode case mappings are not.
- **Paths:** `os.path.splitext` is the POSIX form. The Windows form, with `\` and drive letters, is not modelled.
- Operators.LoadEpisode: the loaded document is an input tied to the reply only by the success of the fetch, because body decoding is left out as above.
- Operators.ShotsPage: does not model Blender's clamping of the page property to its minimum of 0 or its 32-bit range. The function is stated for any integer page.
- Operators.PasteConfig: an exception raised while applying the keys is one reason, `PasteRaised`. The exception's message is not modelled.
- Operators.ConfigureApi: the invoked load runs outside any exception handler, so its error escapes the operator. The model gives the cancelled outcome Blender turns an escaping exception into; the traceback is not modelled.
