/** The REST client for the production-tracking service: endpoint
    normalisation, the request `_make_request` hands to the HTTP library, the
    classification of the reply into success or a typed error, the shot-update
    payload, and the multipart parts of an image upload.

    The HTTP library, the file system and the JSON parser are inputs: a reply
    is a `Transport` value (a response with its already-attempted JSON parse,
    or the exception the library raised), and the file system is a record of
    which paths exist and which fail to open. */
module ApiClient {
  import opened Common
  import opened Text

  const ApiKeyHeader := "X-API-Key"
  const ContentTypeHeader := "Content-Type"

  // Error codes the client reports in the `code` field.
  const InvalidEndpoint := "INVALID_ENDPOINT"
  const InvalidJson := "INVALID_JSON"
  const HttpError := "HTTP_ERROR"
  const NetworkError := "NETWORK_ERROR"
  const UnexpectedError := "UNEXPECTED_ERROR"
  const UnknownError := "UNKNOWN_ERROR"
  const UploadError := "UPLOAD_ERROR"

  /** A configured client: the endpoint without trailing slashes, the key and
      the headers every request carries. */
  datatype Client = Client(endpoint: string, apiKey: string, headers: map<string, string>)

  /** `ConceptoAPIClient(api_endpoint, api_key)`. */
  function NewClient(endpoint: string, apiKey: string): (c: Client)
    ensures |c.endpoint| <= |endpoint| && endpoint == c.endpoint + endpoint[|c.endpoint|..]
    ensures forall k :: |c.endpoint| <= k < |endpoint| ==> endpoint[k] == '/'
    ensures c.endpoint == "" || c.endpoint[|c.endpoint| - 1] != '/'
    ensures c.headers.Keys == {ApiKeyHeader, ContentTypeHeader}
    ensures c.headers[ApiKeyHeader] == apiKey
    ensures c.headers[ContentTypeHeader] == "application/json"
  {
    Client(RStripChar(endpoint, '/'), apiKey,
           map[ApiKeyHeader := apiKey, ContentTypeHeader := "application/json"])
  }

  /** The URL of a request: the normalised endpoint followed by the path. */
  function Url(c: Client, path: string): string {
    c.endpoint + path
  }

  /** Trailing slashes on the configured endpoint never reach a request URL:
      an endpoint with extra slashes builds the same URLs as one without. */
  lemma TrailingSlashesIgnored(endpoint: string, slashes: string, apiKey: string, path: string)
    requires forall k :: 0 <= k < |slashes| ==> slashes[k] == '/'
    ensures Url(NewClient(endpoint + slashes, apiKey), path) == Url(NewClient(endpoint, apiKey), path)
  {
    SlashesStripped(endpoint, slashes);
  }

  lemma {:induction false} SlashesStripped(s: string, slashes: string)
    requires forall k :: 0 <= k < |slashes| ==> slashes[k] == '/'
    ensures RStripChar(s + slashes, '/') == RStripChar(s, '/')
    decreases |slashes|
  {
    if slashes != [] {
      var t := s + slashes;
      assert t[..|t| - 1] == s + slashes[..|slashes| - 1];
      SlashesStripped(s, slashes[..|slashes| - 1]);
    } else {
      assert s + slashes == s;
    }
  }

  /** The headers a request is sent with: the caller's headers overridden by
      the client's, minus `Content-Type` for a multipart upload. */
  function RequestHeaders(c: Client, caller: map<string, string>, multipart: bool): (h: map<string, string>)
    ensures h.Keys == (caller.Keys + c.headers.Keys) - (if multipart then {ContentTypeHeader} else {})
    ensures forall k :: k in c.headers && !(multipart && k == ContentTypeHeader) ==> h[k] == c.headers[k]
    ensures forall k :: k in caller && k !in c.headers && !(multipart && k == ContentTypeHeader) ==>
      h[k] == caller[k]
  {
    var merged := caller + c.headers;
    if multipart then merged - {ContentTypeHeader} else merged
  }

  /** Whatever headers a caller passes, a request from a constructed client
      carries its API key. */
  lemma ApiKeyAlwaysSent(endpoint: string, apiKey: string, caller: map<string, string>, multipart: bool)
    ensures ApiKeyHeader in RequestHeaders(NewClient(endpoint, apiKey), caller, multipart)
    ensures RequestHeaders(NewClient(endpoint, apiKey), caller, multipart)[ApiKeyHeader] == apiKey
    ensures multipart <==> ContentTypeHeader !in RequestHeaders(NewClient(endpoint, apiKey), caller, multipart)
  {
  }

  /** One file of a multipart upload: the form field, the file name sent, the
      local path read, and the MIME type. */
  datatype FilePart = FilePart(field: string, fileName: string, path: string, mime: string)

  /** A `_make_request` call: the method name, the path, and the optional
      `headers`, `json` and `files` keyword arguments. */
  datatype Call = Call(
    verbName: string,
    path: string,
    headers: map<string, string>,
    json: Option<Json>,
    files: Option<seq<FilePart>>)

  datatype Verb = Get | Put | Post

  /** What `_make_request` hands to the HTTP library: the verb, the URL, the
      headers and the `json` and `files` arguments. */
  datatype HttpRequest = HttpRequest(
    verb: Verb,
    url: string,
    headers: map<string, string>,
    json: Option<Json>,
    files: Option<seq<FilePart>>)

  /** The request for a call, or `None` when the method is not GET, PUT or
      POST in any letter case. */
  function Dispatch(c: Client, call: Call): (r: Option<HttpRequest>)
    ensures r.None? <==> Upper(call.verbName) !in {"GET", "PUT", "POST"}
    // The verb is the method name in upper case.
    ensures r.Some? ==> (r.value.verb == Get <==> Upper(call.verbName) == "GET")
    ensures r.Some? ==> (r.value.verb == Put <==> Upper(call.verbName) == "PUT")
    ensures r.Some? ==> (r.value.verb == Post <==> Upper(call.verbName) == "POST")
    ensures r.Some? ==> r.value.url == Url(c, call.path)
    // Only a POST with files is multipart; every other request keeps the merged headers.
    ensures r.Some? ==> r.value.headers == RequestHeaders(c, call.headers, r.value.verb == Post && call.files.Some?)
    // The files argument always passes through; the JSON argument passes
    // through for GET and for a multipart POST, and defaults to `{}` otherwise.
    ensures r.Some? ==> r.value.files == call.files
    ensures r.Some? && (r.value.verb == Get || call.files.Some?) && r.value.verb != Put ==> r.value.json == call.json
    ensures r.Some? && ApiKeyHeader in c.headers ==>
      ApiKeyHeader in r.value.headers && r.value.headers[ApiKeyHeader] == c.headers[ApiKeyHeader]
    ensures r.Some? && r.value.verb == Put ==> r.value.json == Some(call.json.GetOr(EmptyObject))
    ensures r.Some? && r.value.verb == Post && call.files.None? ==> r.value.json == Some(call.json.GetOr(EmptyObject))
    ensures r.Some? ==> (ContentTypeHeader !in r.value.headers <==>
      (r.value.verb == Post && call.files.Some?) || (ContentTypeHeader !in call.headers && ContentTypeHeader !in c.headers))
  {
    var url := Url(c, call.path);
    var verb := Upper(call.verbName);
    if verb == "GET" then
      Some(HttpRequest(Get, url, RequestHeaders(c, call.headers, false), call.json, call.files))
    else if verb == "PUT" then
      Some(HttpRequest(Put, url, RequestHeaders(c, call.headers, false), Some(call.json.GetOr(EmptyObject)), call.files))
    else if verb == "POST" then
      if call.files.Some? then
        Some(HttpRequest(Post, url, RequestHeaders(c, call.headers, true), call.json, call.files))
      else
        Some(HttpRequest(Post, url, RequestHeaders(c, call.headers, false), Some(call.json.GetOr(EmptyObject)), None))
    else
      None
  }

  /** A reply from the service: the `Content-Type` header if any, the body
      text, the status code, and the outcome of parsing the body as JSON
      (`None` when `response.json()` raises a decode error). */
  datatype Response = Response(contentType: Option<string>, text: string, status: int, parsed: Option<Json>)

  /** What the HTTP library produced: a response, a `RequestException`
      (connection, timeout, ...) with its message, or any other exception. */
  datatype Transport =
    | Replied(response: Response)
    | RequestFailed(message: string)
    | OtherFailure(message: string)

  /** The error dictionary the client returns on failure. */
  type ErrorBody = map<string, Json>

  /** `(True, body)` or `(False, error dictionary)`. */
  datatype ApiResult = Ok(body: Json) | Err(info: ErrorBody)

  /** The `code` of an error result, when it has a string one. */
  function Code(r: ApiResult): Option<string> {
    if r.Err? && "code" in r.info && r.info["code"].JString? then Some(r.info["code"].s) else None
  }

  /** The three-entry error dictionary the client builds itself. */
  function ErrorDict(error: string, code: string, details: string): (e: ErrorBody)
    ensures e.Keys == {"error", "code", "details"}
    ensures e["error"] == JString(error) && e["code"] == JString(code) && e["details"] == JString(details)
  {
    map["error" := JString(error), "code" := JString(code), "details" := JString(details)]
  }

  /** The reply looks like an HTML page: an HTML content type, or a body that
      starts with a doctype or an `<html` tag once surrounding whitespace is
      removed. */
  predicate LooksLikeHtml(r: Response) {
    || Contains(Lower(r.contentType.GetOr("")), "text/html")
    || StartsWith(Strip(r.text), "<!DOCTYPE")
    || StartsWith(Strip(r.text), "<html")
  }

  /** The body a non-2xx reply is read as: `{}` when it is empty, its parse otherwise. */
  function ErrorPayload(r: Response): Option<Json> {
    if r.text == "" then Some(EmptyObject) else r.parsed
  }

  /** `d.get(key, default)` for a JSON object `d`. */
  function Field(fields: map<string, Json>, key: string, default: Json): Json {
    if key in fields then fields[key] else default
  }

  /** The error a non-2xx reply reports from its JSON object body: its
      `error`, `code` and `details` entries, defaulting to `HTTP <status>`,
      `UNKNOWN_ERROR` and the empty string. */
  function ServiceError(m: map<string, Json>, status: int): ErrorBody {
    map[
      "error" := Field(m, "error", JString("HTTP " + Decimal(status))),
      "code" := Field(m, "code", JString(UnknownError)),
      "details" := Field(m, "details", JString(""))]
  }

  /** A reply that is not an HTML page. */
  predicate JsonReply(t: Transport) {
    t.Replied? && !LooksLikeHtml(t.response)
  }

  /** A reply with one of the two statuses the client treats as success. */
  predicate Accepted(t: Transport) {
    t.Replied? && (t.response.status == 200 || t.response.status == 201)
  }

  /** The classification of a reply sent to `url`. */
  function Classify(url: string, t: Transport): (r: ApiResult)
    // A transport failure is a network error when the library raised one of
    // its own request exceptions, an unexpected error otherwise.
    ensures t.RequestFailed? ==> Code(r) == Some(NetworkError)
    ensures t.OtherFailure? ==> Code(r) == Some(UnexpectedError)
    // An HTML reply is an endpoint error whatever its status.
    ensures t.Replied? && LooksLikeHtml(t.response) ==> Code(r) == Some(InvalidEndpoint)
    // Success exactly for a non-HTML 200/201 reply whose body parses; it
    // carries the parsed body.
    ensures r.Ok? <==> (JsonReply(t) && Accepted(t) && t.response.parsed.Some?)
    ensures r.Ok? ==> r.body == t.response.parsed.value
    ensures (JsonReply(t) && Accepted(t) && t.response.parsed.None?) ==> Code(r) == Some(InvalidJson)
    // Any other status: a body that does not parse is an HTTP error; an
    // object body supplies error, code and details, with defaults; any other
    // parsed body makes `.get` raise, which is reported as unexpected.
    ensures (JsonReply(t) && !Accepted(t) && ErrorPayload(t.response).None?) ==> Code(r) == Some(HttpError)
    ensures (JsonReply(t) && !Accepted(t) && ErrorPayload(t.response).Some?
             && ErrorPayload(t.response).value.JObject?) ==>
      r == Err(ServiceError(ErrorPayload(t.response).value.fields, t.response.status))
    ensures (JsonReply(t) && !Accepted(t) && ErrorPayload(t.response).Some?
             && !ErrorPayload(t.response).value.JObject?) ==>
      Code(r) == Some(UnexpectedError)
  {
    match t
    case RequestFailed(msg) => Err(NetworkFailure(url, msg))
    case OtherFailure(msg) => Err(OtherException(url, msg))
    case Replied(resp) => ClassifyReply(url, resp, LooksLikeHtml(resp))
  }

  /** The classification of a response, given whether it looks like HTML. */
  function ClassifyReply(url: string, resp: Response, html: bool): (r: ApiResult)
    ensures html ==> Code(r) == Some(InvalidEndpoint)
    ensures r.Ok? <==> !html && (resp.status == 200 || resp.status == 201) && resp.parsed.Some?
    ensures r.Ok? ==> r.body == resp.parsed.value
    ensures !html && (resp.status == 200 || resp.status == 201) && resp.parsed.None? ==>
      Code(r) == Some(InvalidJson)
    ensures !html && !(resp.status == 200 || resp.status == 201) ==> r == RejectedReply(url, resp)
  {
    if html then Err(HtmlError(url))
    else if resp.status == 200 || resp.status == 201 then AcceptedReply(url, resp)
    else RejectedReply(url, resp)
  }

  /** The error reported when the library raised a request exception. */
  function NetworkFailure(url: string, msg: string): (e: ErrorBody)
    ensures "code" in e && e["code"] == JString(NetworkError)
  {
    ErrorDict("Network error: " + msg, NetworkError, "URL: " + url)
  }

  /** The error reported for any other exception. */
  function OtherException(url: string, msg: string): (e: ErrorBody)
    ensures "code" in e && e["code"] == JString(UnexpectedError)
  {
    ErrorDict("Unexpected error: " + msg, UnexpectedError, "URL: " + url)
  }

  /** The error reported for an HTML reply. */
  function HtmlError(url: string): (e: ErrorBody)
    ensures "code" in e && e["code"] == JString(InvalidEndpoint)
  {
    ErrorDict(
      "Received HTML instead of JSON. " + "The API endpoint may be incorrect. " + "URL: " + url,
      InvalidEndpoint,
      "Expected JSON but got HTML. " + "Please check your API endpoint URL. " + "It should end with '/api/external'")
  }

  /** A non-HTML 200/201 reply: its parsed body, or an invalid-JSON error. */
  function AcceptedReply(url: string, resp: Response): (r: ApiResult)
    ensures r.Ok? <==> resp.parsed.Some?
    ensures r.Ok? ==> r.body == resp.parsed.value
    ensures r.Err? ==> Code(r) == Some(InvalidJson)
  {
    match resp.parsed
    case Some(body) => Ok(body)
    case None =>
      Err(ErrorDict("Invalid JSON response from server. URL: " + url, InvalidJson,
                    "Response preview: " + Take(resp.text, 200)))
  }

  /** A non-HTML reply with any other status: an HTTP error when the body does
      not parse, the body's own error fields when it is an object, and an
      unexpected error otherwise. */
  function RejectedReply(url: string, resp: Response): (r: ApiResult)
    ensures r.Err?
    ensures ErrorPayload(resp).None? ==> Code(r) == Some(HttpError)
    ensures ErrorPayload(resp).Some? && ErrorPayload(resp).value.JObject? ==>
      r == Err(ServiceError(ErrorPayload(resp).value.fields, resp.status))
    ensures ErrorPayload(resp).Some? && !ErrorPayload(resp).value.JObject? ==>
      Code(r) == Some(UnexpectedError)
  {
    match ErrorPayload(resp)
    case None =>
      Err(ErrorDict("HTTP " + Decimal(resp.status) + " - Non-JSON error response", HttpError,
                    "URL: " + url + ", Response preview: " + Take(resp.text, 200)))
    case Some(JObject(m)) =>
      Err(ServiceError(m, resp.status))
    case Some(other) =>
      // `.get` on a parsed list, string, number or null raises
      // AttributeError, which the generic handler reports.
      Err(ErrorDict("Unexpected error: '" + PythonTypeName(other) + "' object has no attribute 'get'",
                    UnexpectedError, "URL: " + url))
  }

  /** An error reply with an empty body falls back to the status-derived
      defaults: error `HTTP <status>`, code `UNKNOWN_ERROR`, empty details. */
  lemma EmptyErrorBodyDefaults(url: string, contentType: Option<string>, status: int, parsed: Option<Json>)
    requires status != 200 && status != 201
    requires !Contains(Lower(contentType.GetOr("")), "text/html")
    ensures Classify(url, Replied(Response(contentType, "", status, parsed)))
         == Err(ErrorDict("HTTP " + Decimal(status), UnknownError, ""))
  {
    var resp := Response(contentType, "", status, parsed);
    EmptyBodyNotHtml(resp);
    assert Classify(url, Replied(resp)) == ClassifyReply(url, resp, false);
    EmptyBodyRejected(url, resp);
    EmptyObjectDefaults(status);
  }

  lemma EmptyBodyRejected(url: string, resp: Response)
    requires resp.text == ""
    ensures RejectedReply(url, resp) == Err(ServiceError(map[], resp.status))
  {
    assert ErrorPayload(resp) == Some(EmptyObject);
  }

  lemma EmptyObjectDefaults(status: int)
    ensures ServiceError(map[], status) == ErrorDict("HTTP " + Decimal(status), UnknownError, "")
  {
    var m: map<string, Json> := map[];
    assert Field(m, "error", JString("HTTP " + Decimal(status))) == JString("HTTP " + Decimal(status));
    assert Field(m, "code", JString(UnknownError)) == JString(UnknownError);
    assert Field(m, "details", JString("")) == JString("");
  }

  lemma EmptyBodyNotHtml(resp: Response)
    requires resp.text == ""
    requires !Contains(Lower(resp.contentType.GetOr("")), "text/html")
    ensures !LooksLikeHtml(resp)
  {
    assert LStrip("") == "" && Strip("") == "";
  }

  /** One exchange with the service: the request sent (none when the method
      is not supported) and the result the client returns. */
  datatype Exchange = Exchange(sent: Option<HttpRequest>, result: ApiResult)

  /** `_make_request(method, path, ...)` with the library's reply `reply`. */
  function MakeRequest(c: Client, call: Call, reply: Transport): (x: Exchange)
    ensures x.sent == Dispatch(c, call)
    ensures x.sent.None? ==> x.result == Err(map["error" := JString("Unsupported method: " + call.verbName)])
    ensures x.sent.Some? ==> x.result == Classify(Url(c, call.path), reply)
  {
    match Dispatch(c, call)
    case None => Exchange(None, Err(map["error" := JString("Unsupported method: " + call.verbName)]))
    case Some(req) => Exchange(Some(req), Classify(req.url, reply))
  }

  /** An unsupported method fails the same way whatever the network would
      have done, and sends nothing. */
  lemma UnsupportedMethodSendsNothing(c: Client, call: Call, reply1: Transport, reply2: Transport)
    requires Upper(call.verbName) !in {"GET", "PUT", "POST"}
    ensures MakeRequest(c, call, reply1) == MakeRequest(c, call, reply2)
    ensures MakeRequest(c, call, reply1).sent.None?
    ensures MakeRequest(c, call, reply1).result.Err?
  {
  }

  /** The call `get_episode(episode_id)` makes. */
  function EpisodeCall(episodeId: string): Call {
    Call("GET", "/episodes/" + episodeId, map[], None, None)
  }

  /** `get_episode(episode_id)`: a GET of `/episodes/<id>` with the client's
      own headers and no body. */
  function GetEpisode(c: Client, episodeId: string, reply: Transport): (x: Exchange)
    ensures x.sent == Dispatch(c, EpisodeCall(episodeId))
    ensures x.sent.Some? && x.sent.value.verb == Get
    ensures x.sent.value.url == Url(c, "/episodes/" + episodeId)
    ensures x.sent.value.headers == c.headers
    ensures x.sent.value.json.None? && x.sent.value.files.None?
    ensures x.result == Classify(x.sent.value.url, reply)
  {
    var call := EpisodeCall(episodeId);
    var req := HttpRequest(Get, Url(c, call.path), RequestHeaders(c, map[], false), None, None);
    assert Upper("GET") == "GET";
    assert Dispatch(c, call) == Some(req);
    assert RequestHeaders(c, map[], false) == c.headers;
    Exchange(Some(req), Classify(req.url, reply))
  }

  /** The JSON body of `update_shot`: only the fields given, under the
      service's names. */
  function ShotUpdatePayload(audio: Option<string>, visual: Option<string>,
                             wordCount: Option<int>, runtime: Option<real>): (p: map<string, Json>)
    ensures p.Keys == (if audio.Some? then {"audio"} else {})
                    + (if visual.Some? then {"visual"} else {})
                    + (if wordCount.Some? then {"wordCount"} else {})
                    + (if runtime.Some? then {"runtime"} else {})
    ensures audio.Some? ==> p["audio"] == JString(audio.value)
    ensures visual.Some? ==> p["visual"] == JString(visual.value)
    ensures wordCount.Some? ==> p["wordCount"] == JInt(wordCount.value)
    ensures runtime.Some? ==> p["runtime"] == JReal(runtime.value)
  {
    var p0: map<string, Json> := map[];
    var p1 := if audio.Some? then p0["audio" := JString(audio.value)] else p0;
    var p2 := if visual.Some? then p1["visual" := JString(visual.value)] else p1;
    var p3 := if wordCount.Some? then p2["wordCount" := JInt(wordCount.value)] else p2;
    if runtime.Some? then p3["runtime" := JReal(runtime.value)] else p3
  }

  /** `update_shot(shot_id, ...)`: a PUT of the payload to `/shots/<id>`. */
  function UpdateShot(c: Client, shotId: string, audio: Option<string>, visual: Option<string>,
                      wordCount: Option<int>, runtime: Option<real>, reply: Transport): (x: Exchange)
    ensures x.sent.Some?
    ensures x.sent.value.verb == Put
    ensures x.sent.value.url == Url(c, "/shots/" + shotId)
    ensures x.sent.value.json == Some(JObject(ShotUpdatePayload(audio, visual, wordCount, runtime)))
    ensures x.result == Classify(x.sent.value.url, reply)
  {
    MakeRequest(c, Call("PUT", "/shots/" + shotId, map[],
                        Some(JObject(ShotUpdatePayload(audio, visual, wordCount, runtime))), None), reply)
  }

  // ---------------------------------------------------------------------
  // Image upload
  // ---------------------------------------------------------------------

  /** The index of the last occurrence of `c` in `s`, or -1. */
  function LastIndex(s: string, c: char): (i: int)
    ensures -1 <= i < |s|
    ensures i >= 0 ==> s[i] == c
    ensures forall k :: i < k < |s| ==> s[k] != c
    decreases |s|
  {
    if s == [] then -1
    else if s[|s| - 1] == c then |s| - 1
    else LastIndex(s[..|s| - 1], c)
  }

  /** Some character of `s[lo..hi]` is not a dot. */
  predicate HasNonDot(s: string, lo: int, hi: int)
    requires 0 <= lo <= hi <= |s|
  {
    exists k :: lo <= k < hi && s[k] != '.'
  }

  /** `path` splits into root and extension at `d`: a dot with neither a dot
      nor a separator after it, preceded in the same file name by some
      character other than a dot (so `.bashrc` has no extension). */
  predicate SplitsAt(path: string, d: int) {
    && 0 <= d < |path| && path[d] == '.'
    && (forall k :: d < k < |path| ==> path[k] != '.' && path[k] != '/')
    && exists j :: 0 <= j < d && path[j] != '.' && forall k :: j <= k < d ==> path[k] != '/'
  }

  /** The split point, when there is one, is the last dot, and it lies after
      the last separator with a non-dot character in between. */
  lemma SplitPointIsLastDot(path: string)
    ensures var sep := LastIndex(path, '/');
      var dot := LastIndex(path, '.');
      (dot > sep && HasNonDot(path, sep + 1, dot)) <==> exists d :: SplitsAt(path, d)
    ensures forall d :: SplitsAt(path, d) ==> d == LastIndex(path, '.')
  {
    var sep := LastIndex(path, '/');
    var dot := LastIndex(path, '.');
    forall d | SplitsAt(path, d) ensures d == dot && dot > sep && HasNonDot(path, sep + 1, dot) {
      assert d <= dot;
      var j :| 0 <= j < d && path[j] != '.' && forall k :: j <= k < d ==> path[k] != '/';
      assert sep < j;
      assert path[j] != '.';
    }
    if dot > sep && HasNonDot(path, sep + 1, dot) {
      var j :| sep + 1 <= j < dot && path[j] != '.';
      assert SplitsAt(path, dot);
    }
  }

  /** `os.path.splitext(path)[1]` with POSIX separators: from the split
      point to the end, or empty when there is none. */
  function Extension(path: string): (ext: string)
    ensures ext == "" <==> forall d :: 0 <= d < |path| ==> !SplitsAt(path, d)
    ensures ext != "" ==> SplitsAt(path, |path| - |ext|) && ext == path[|path| - |ext|..]
    ensures ext == "" || (ext[0] == '.' && path == path[..|path| - |ext|] + ext)
    ensures forall k :: 0 <= k < |ext| ==> ext[k] != '/'
    ensures forall k :: 1 <= k < |ext| ==> ext[k] != '.'
  {
    SplitPointIsLastDot(path);
    var sep := LastIndex(path, '/');
    var dot := LastIndex(path, '.');
    if dot > sep && HasNonDot(path, sep + 1, dot) then path[dot..] else ""
  }

  /** The local file system as the upload sees it: the paths that exist,
      and the paths whose opening raises, with the error text. */
  datatype FileSystem = FileSystem(existing: set<string>, openErrors: map<string, string>)

  /** A path argument is uploaded when it is given, non-empty, and exists. */
  predicate Included(path: Option<string>, fs: FileSystem) {
    path.Some? && path.value != "" && path.value in fs.existing
  }

  /** The part for one image: file name `<prefix><ext>` with `.png` when the
      path has no extension, and `image/png` only for exactly `.png`. */
  function ImagePart(field: string, prefix: string, path: string): (p: FilePart)
    ensures p.field == field && p.path == path
    ensures p.fileName == prefix + (if Extension(path) == "" then ".png" else Extension(path))
    ensures p.mime == "image/png" <==> (Extension(path) == "" || Extension(path) == ".png")
    ensures p.mime == "image/png" || p.mime == "image/jpeg"
  {
    var ext := if Extension(path) == "" then ".png" else Extension(path);
    FilePart(field, prefix + ext, path, if ext == ".png" then "image/png" else "image/jpeg")
  }

  /** The part for one path argument: present only when the path is included. */
  function OptionalPart(field: string, prefix: string, path: Option<string>, fs: FileSystem): (ps: seq<FilePart>)
    ensures |ps| == if Included(path, fs) then 1 else 0
    ensures forall i :: 0 <= i < |ps| ==> ps[i] == ImagePart(field, prefix, path.value)
  {
    if Included(path, fs) then [ImagePart(field, prefix, path.value)] else []
  }

  /** The parts of an upload, in the order main image, start frame, end frame. */
  function UploadParts(mainPath: Option<string>, startPath: Option<string>, endPath: Option<string>,
                       fs: FileSystem): seq<FilePart>
  {
    OptionalPart("mainImage", "main", mainPath, fs)
    + OptionalPart("startFrame", "start", startPath, fs)
    + OptionalPart("endFrame", "end", endPath, fs)
  }

  /** The form fields of a list of parts, in order. */
  function Fields(parts: seq<FilePart>): (fs: seq<string>)
    ensures |fs| == |parts|
    ensures forall i :: 0 <= i < |parts| ==> fs[i] == parts[i].field
  {
    seq(|parts|, i requires 0 <= i < |parts| => parts[i].field)
  }

  /** The first part, in upload order, whose file fails to open. */
  function FirstOpenError(parts: seq<FilePart>, fs: FileSystem): (e: Option<string>)
    ensures e.Some? <==> exists i :: 0 <= i < |parts| && parts[i].path in fs.openErrors
    decreases |parts|
  {
    if parts == [] then None
    else if parts[0].path in fs.openErrors then Some(fs.openErrors[parts[0].path])
    else
      var e := FirstOpenError(parts[1..], fs);
      assert e.Some? ==> exists i :: 1 <= i < |parts| && parts[i].path in fs.openErrors by {
        if e.Some? {
          var j :| 0 <= j < |parts[1..]| && parts[1..][j].path in fs.openErrors;
          assert parts[j + 1].path in fs.openErrors;
        }
      }
      e
  }

  /** The rest of `upload_shot_images` once its parts are built: open every
      file, refuse an empty upload, otherwise POST the parts to
      `/shots/<id>/images`. A request is sent exactly when there are parts
      and all their files open, and it is a multipart POST without
      `Content-Type`. */
  function SendUpload(c: Client, shotId: string, parts: seq<FilePart>, fs: FileSystem, reply: Transport): (x: Exchange)
    ensures x.sent.Some? <==> parts != [] && FirstOpenError(parts, fs).None?
    ensures x.sent.Some? ==> && x.sent.value.verb == Post
                             && x.sent.value.url == Url(c, "/shots/" + shotId + "/images")
                             && x.sent.value.files == Some(parts)
                             && ContentTypeHeader !in x.sent.value.headers
    ensures x.sent.Some? ==> x.result == Classify(x.sent.value.url, reply)
    ensures FirstOpenError(parts, fs).Some? ==> x.result.Err? && "code" in x.result.info && x.result.info["code"] == JString(UploadError)
    ensures parts == [] ==> x.result == Err(map["error" := JString("No images provided or files don't exist")])
  {
    match FirstOpenError(parts, fs)
    case Some(msg) =>
      Exchange(None, Err(map["error" := JString("Upload error: " + msg), "code" := JString(UploadError)]))
    case None =>
      if parts == [] then
        Exchange(None, Err(map["error" := JString("No images provided or files don't exist")]))
      else
        PostParts(c, shotId, parts, reply)
  }

  /** The multipart POST of `parts` to `/shots/<id>/images`. */
  function PostParts(c: Client, shotId: string, parts: seq<FilePart>, reply: Transport): (x: Exchange)
    ensures x.sent.Some? && x.sent.value.verb == Post
    ensures x.sent.value.url == Url(c, "/shots/" + shotId + "/images")
    ensures x.sent.value.files == Some(parts)
    ensures ContentTypeHeader !in x.sent.value.headers
    ensures x.result == Classify(x.sent.value.url, reply)
    // It is the generic request with the upload's arguments.
    ensures x == MakeRequest(c, Call("POST", "/shots/" + shotId + "/images", map[], None, Some(parts)), reply)
  {
    assert Upper("POST") == "POST";
    var url := Url(c, "/shots/" + shotId + "/images");
    var req := HttpRequest(Post, url, RequestHeaders(c, map[], true), None, Some(parts));
    Exchange(Some(req), Classify(url, reply))
  }

  /** `upload_shot_images(shot_id, main, start, end)`. */
  function UploadShotImages(c: Client, shotId: string, mainPath: Option<string>, startPath: Option<string>,
                            endPath: Option<string>, fs: FileSystem, reply: Transport): Exchange
  {
    SendUpload(c, shotId, UploadParts(mainPath, startPath, endPath, fs), fs, reply)
  }

  lemma FieldsAppend(a: seq<FilePart>, b: seq<FilePart>)
    ensures Fields(a + b) == Fields(a) + Fields(b)
  {
  }

  lemma FieldsOptionalPart(field: string, prefix: string, path: Option<string>, fs: FileSystem)
    ensures Fields(OptionalPart(field, prefix, path, fs)) == if Included(path, fs) then [field] else []
  {
    var ps := OptionalPart(field, prefix, path, fs);
    if Included(path, fs) {
      assert ps[0].field == field;
    }
  }

  /** The parts of an upload: one per path given, non-empty and existing,
      under the fields `mainImage`, `startFrame`, `endFrame` in that order. */
  lemma UploadPartsSpec(mainPath: Option<string>, startPath: Option<string>, endPath: Option<string>,
                        fs: FileSystem)
    ensures Fields(UploadParts(mainPath, startPath, endPath, fs)) ==
      (if Included(mainPath, fs) then ["mainImage"] else [])
      + (if Included(startPath, fs) then ["startFrame"] else [])
      + (if Included(endPath, fs) then ["endFrame"] else [])
  {
    var m := OptionalPart("mainImage", "main", mainPath, fs);
    var s := OptionalPart("startFrame", "start", startPath, fs);
    var e := OptionalPart("endFrame", "end", endPath, fs);
    FieldsAppend(m + s, e);
    FieldsAppend(m, s);
    FieldsOptionalPart("mainImage", "main", mainPath, fs);
    FieldsOptionalPart("startFrame", "start", startPath, fs);
    FieldsOptionalPart("endFrame", "end", endPath, fs);
  }

}
