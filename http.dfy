/** The REST client (bhaicord/http.py): the byte sink the multipart writer
    writes into, the session headers, the `attachments` list added to a
    multipart payload, and the URL, content-type, body and status decisions of
    `request`. The network round trip is the `status` parameter. */
module Http {
  import opened Wrappers
  import opened PyValues
  import opened PyStrings
  import PyDict
  import Files

  /** `Writer`: a growing `bytearray`. */
  class Writer {
    var buffer: seq<byte>

    constructor ()
      ensures buffer == []
    {
      buffer := [];
    }

    /** `write(data)`: appends, keeping what was there. */
    method Write(data: seq<byte>)
      modifies this
      ensures buffer == old(buffer) + data
      ensures buffer[..|old(buffer)|] == old(buffer) && buffer[|old(buffer)|..] == data
    {
      buffer := buffer + data;
    }
  }

  /** The boundary shared by every multipart body. */
  const BOUNDARY: string := "boundary"

  const JSON_CONTENT_TYPE: string := "application/json"
  const MULTIPART_CONTENT_TYPE: string := "multipart/form-data; boundary=\"" + BOUNDARY + "\""

  /** The session's default headers set by `authenticate`; the project URL and
      version in the user agent are parameters. */
  function AuthHeaders(botToken: string, github: string, version: string): (r: seq<(string, Value)>)
    ensures Index(VDict(r), "Authorization") == Ok(VStr("Bot " + botToken))
    ensures Index(VDict(r), "Accept") == Ok(VStr(JSON_CONTENT_TYPE))
    ensures PyDict.Keys(r) == ["Authorization", "Accept", "User-Agent"]
  {
    var d := [("Authorization", VStr("Bot " + botToken)),
              ("Accept", VStr(JSON_CONTENT_TYPE)),
              ("User-Agent", VStr("DiscordBot (" + github + ", " + version + ")"))];
    PyDict.LookupAt(d, 0);
    PyDict.LookupAt(d, 1);
    d
  }

  /** The URL `request` works with: a leading "/" is added when missing. */
  function NormalisedUrl(url: string): (r: string)
    ensures StartsWith(r, "/")
    ensures StartsWith(url, "/") ==> r == url
    ensures !StartsWith(url, "/") ==> r == "/" + url
  {
    EnsurePrefix(url, "/")
  }

  /** Normalising is idempotent, and a URL with or without its leading slash
      reaches the same endpoint. */
  lemma NormalisedUrlIdempotent(url: string)
    ensures NormalisedUrl(NormalisedUrl(url)) == NormalisedUrl(url)
    ensures !StartsWith(url, "/") ==> NormalisedUrl("/" + url) == NormalisedUrl(url)
  {
    if !StartsWith(url, "/") {
      assert ("/" + url)[..1] == "/";
    }
  }

  /** One attachment description per file, in order, with the file's index as id. */
  function Attachments(files: seq<Files.File>): (r: seq<Value>)
    ensures |r| == |files|
    ensures forall i :: 0 <= i < |files| ==> r[i] == VDict(Files.ToDict(files[i], i))
  {
    seq(|files|, i requires 0 <= i < |files| => VDict(Files.ToDict(files[i], i)))
  }

  /** The payload `multipart_handler` sends as `payload_json`: the dict with its
      `attachments` replaced. A string is handed to `json.load`, which needs a file
      and raises AttributeError; anything other than a dict cannot take the item
      assignment and raises TypeError. */
  function MultipartPayload(data: Value, files: seq<Files.File>): (r: Result<Value>)
    ensures r.Ok? <==> data.VDict?
    ensures data.VStr? ==> r.Err? && r.error.kind == AttributeError
    ensures r.Ok? ==> r.value.VDict?
  {
    match data
    case VDict(entries) => Ok(VDict(PyDict.Set(entries, "attachments", VList(Attachments(files)))))
    case VStr(_) => Fail(AttributeError)
    case _ => Fail(TypeError)
  }

  /** The multipart payload lists attachment `i` with id `i` and the i-th file's
      name and description, and keeps every other key of the payload as it was. */
  lemma MultipartPayloadAttachments(entries: seq<(string, Value)>, files: seq<Files.File>)
    ensures var r := MultipartPayload(VDict(entries), files);
      && r.Ok?
      && Index(r.value, "attachments") == Ok(VList(Attachments(files)))
      && (forall k :: k != "attachments" ==> PyDict.Lookup(r.value.entries, k) == PyDict.Lookup(entries, k))
      && (forall i :: 0 <= i < |files| ==>
            var a := VList(Attachments(files)).items[i];
            Index(a, "id") == Ok(VInt(i)) && Index(a, "filename") == Ok(VStr(files[i].filename))
            && Index(a, "description") == Ok(files[i].description))
  {
    var atts := VList(Attachments(files));
    PyDict.LookupSet(entries, "attachments", atts, "attachments");
    forall k | k != "attachments"
      ensures PyDict.Lookup(PyDict.Set(entries, "attachments", atts), k) == PyDict.Lookup(entries, k)
    {
      PyDict.LookupSet(entries, "attachments", atts, k);
    }
  }

  /** `multipart_handler(data, files)`: the `payload_json` part it writes. The file
      parts themselves are not modelled. */
  method MultipartHandler(data: Value, files: seq<Files.File>) returns (r: Result<Value>)
    ensures r == MultipartPayload(data, files)
  {
    if data.VStr? {
      return Fail(AttributeError);
    }
    if !data.VDict? {
      return Fail(TypeError);
    }
    var attachments: seq<Value> := [];
    var i := 0;
    while i < |files|
      invariant 0 <= i <= |files|
      invariant |attachments| == i
      invariant forall j :: 0 <= j < i ==> attachments[j] == VDict(Files.ToDict(files[j], j))
    {
      attachments := attachments + [VDict(Files.ToDict(files[i], i))];
      i := i + 1;
    }
    assert attachments == Attachments(files);
    r := Ok(VDict(PyDict.Set(data.entries, "attachments", VList(attachments))));
  }

  /** How the payload travels. */
  datatype Body = NoBody | JsonBody(payload: Value) | MultipartBody(payload: Value, files: seq<Files.File>)

  /** What goes to the session: method, full endpoint, body and content type. */
  datatype Sent = Sent(verb: string, endpoint: string, body: Body, contentType: string)

  /** The arguments of a `request` call. */
  datatype Call = Call(verb: string, url: string, payload: Value, files: Option<seq<Files.File>>)

  /** `if files:` */
  predicate HasFiles(files: Option<seq<Files.File>>)
  {
    files.Some? && files.value != []
  }

  /** What `request` hands to the session for a call. */
  function Prepare(apiUrl: string, call: Call): (r: Result<Sent>)
    ensures r.Ok? ==> r.value.verb == call.verb && r.value.endpoint == apiUrl + NormalisedUrl(call.url)
    ensures r.Err? <==> HasFiles(call.files) && !call.payload.VDict?
    ensures r.Ok? ==> (r.value.contentType == MULTIPART_CONTENT_TYPE <==> HasFiles(call.files))
    ensures r.Ok? && !HasFiles(call.files) ==>
      r.value.contentType == JSON_CONTENT_TYPE
      && (r.value.body.NoBody? <==> !Truthy(call.payload))
      && (r.value.body.JsonBody? ==> r.value.body.payload == call.payload)
    ensures r.Ok? && HasFiles(call.files) ==>
      r.value.body == MultipartBody(MultipartPayload(call.payload, call.files.value).value, call.files.value)
  {
    var endpoint := apiUrl + NormalisedUrl(call.url);
    if HasFiles(call.files) then
      match MultipartPayload(call.payload, call.files.value)
      case Err(e) => Err(e)
      case Ok(p) => Ok(Sent(call.verb, endpoint, MultipartBody(p, call.files.value), MULTIPART_CONTENT_TYPE))
    else
      Ok(Sent(call.verb, endpoint, if Truthy(call.payload) then JsonBody(call.payload) else NoBody, JSON_CONTENT_TYPE))
  }

  /** The response handling: Ok(false) is the `None` returned for 204, Ok(true)
      the response itself; aiohttp's `ok` means a status below 400. */
  function Respond(status: int): (r: Result<bool>)
    ensures r == Ok(false) <==> status == 204
    ensures r.Err? <==> status != 204 && status >= 400
    ensures r.Err? ==> r.error == Error(Exception, "HTTP error")
  {
    if status == 204 then Ok(false)
    else if status >= 400 then Raise("HTTP error")
    else Ok(true)
  }

  /** `request` on a client whose session is `session` (None before
      `authenticate`): what is sent, if anything, and the outcome. */
  function Requested(session: Option<seq<(string, Value)>>, apiUrl: string, call: Call, status: int): (r: (Option<Sent>, Result<bool>))
    ensures r.1.Ok? ==> r.0.Some? && session.Some? && status < 400
    ensures r.0.Some? ==> Prepare(apiUrl, call).Ok? && r.0.value == Prepare(apiUrl, call).value
  {
    match Prepare(apiUrl, call)
    case Err(e) => (None, Err(e))
    case Ok(sent) =>
      if session.None? then (None, Fail(AttributeError)) else (Some(sent), Respond(status))
  }

  /** A call is sent exactly when its payload can be prepared and the session
      exists; only then does the status decide the outcome. */
  lemma SentOnlyWithSession(session: Option<seq<(string, Value)>>, apiUrl: string, call: Call, status: int)
    ensures Requested(session, apiUrl, call, status).0.Some? <==> session.Some? && Prepare(apiUrl, call).Ok?
    ensures Requested(session, apiUrl, call, status).0.Some? ==>
      Requested(session, apiUrl, call, status).1 == Respond(status)
    ensures session.None? ==> Requested(session, apiUrl, call, status).1.Err?
  {
  }

  class HTTPClient {
    const botToken: string
    const apiUrl: string
    var session: Option<seq<(string, Value)>>   // the session's default headers

    constructor (botToken: string, apiUrl: string)
      ensures this.botToken == botToken && this.apiUrl == apiUrl && session.None?
    {
      this.botToken := botToken;
      this.apiUrl := apiUrl;
      session := None;
    }

    /** `authenticate`: a new session carrying the bot token. */
    method Authenticate(github: string, version: string)
      modifies this
      ensures session == Some(AuthHeaders(botToken, github, version))
    {
      session := Some(AuthHeaders(botToken, github, version));
    }

    /** `request(method, url, payload, files)`, with the status the server answers. */
    method Request(call: Call, status: int) returns (sent: Option<Sent>, r: Result<bool>)
      ensures (sent, r) == Requested(session, apiUrl, call, status)
    {
      var url := call.url;
      if !StartsWith(url, "/") {
        url := "/" + url;
      }
      var endpoint := apiUrl + url;
      var body: Body;
      var contentType := JSON_CONTENT_TYPE;
      if call.files.Some? && call.files.value != [] {
        contentType := MULTIPART_CONTENT_TYPE;
        var data := MultipartHandler(call.payload, call.files.value);
        if data.Err? {
          return None, Err(data.error);
        }
        body := MultipartBody(data.value, call.files.value);
      } else {
        body := if Truthy(call.payload) then JsonBody(call.payload) else NoBody;
      }
      if session.None? {
        return None, Fail(AttributeError);
      }
      sent := Some(Sent(call.verb, endpoint, body, contentType));
      r := Respond(status);
    }
  }
}
