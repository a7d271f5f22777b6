/** Executing a webhook (bhaicord/APIBase/webhook_base.py, `async_send`): the
    argument checks and normalisation, the endpoint with its query string, the
    content type, and the handling of the response. The request goes through a
    fresh unauthenticated session; the `Message` built from the response is
    opaque. */
module WebhookBase {
  import opened Wrappers
  import opened PyValues
  import opened PyStrings
  import PyDict
  import Embeds
  import Files
  import Http
  import MessageBase

  /** The content type of a multipart webhook body: the shared boundary, unquoted. */
  const WEBHOOK_MULTIPART_CONTENT_TYPE: string := "multipart/form-data; boundary=" + Http.BOUNDARY

  /** `isinstance(x, (int, str))`; a bool is an int. */
  predicate IsIntOrStr(v: Value)
  {
    v.VInt? || v.VBool? || v.VStr?
  }

  /** The endpoint as written: `?wait=true` whenever `wait` is a bool, False
      included, and `&thread_id=...` whenever the thread id is an int or a string. */
  function SendEndpoint(id: Value, token: Value, wait: Value, threadId: Value): (r: string)
    ensures var base := "/webhooks/" + Str(id) + "/" + Str(token);
      && |base| <= |r| && r[..|base|] == base
      && (wait.VBool? <==> |r| >= |base| + 10 && r[|base|..|base| + 10] == "?wait=true")
  {
    var base := "/webhooks/" + Str(id) + "/" + Str(token);
    var query := (if wait.VBool? then "?wait=true" else "")
                 + (if IsIntOrStr(threadId) then "&thread_id=" + Str(threadId) else "");
    assert |query| > 0 ==> query[0] == (if wait.VBool? then '?' else '&');
    assert (base + query)[|base|..] == query;
    assert |query| >= 10 ==> (base + query)[|base|..|base| + 10] == query[..10] && query[..10][0] == query[0];
    base + query
  }

  /** With the default `wait=False` the endpoint still asks the server to wait. */
  lemma WaitFalseStillWaits(id: Value, token: Value)
    ensures SendEndpoint(id, token, VBool(false), VNone) == "/webhooks/" + Str(id) + "/" + Str(token) + "?wait=true"
  {
  }

  /** The query string as written is the wait part, then the thread part: a
      thread id that is an int or a string always comes last, as
      `&thread_id=<id>`; any other thread id adds nothing. */
  lemma SendEndpointThreadSuffix(id: Value, token: Value, wait: Value, threadId: Value)
    ensures var base := "/webhooks/" + Str(id) + "/" + Str(token);
      var waitPart := if wait.VBool? then "?wait=true" else "";
      var suffix := "&thread_id=" + Str(threadId);
      var r := SendEndpoint(id, token, wait, threadId);
      && (IsIntOrStr(threadId) ==> r == base + waitPart + suffix
                                   && |r| >= |suffix| && r[|r| - |suffix|..] == suffix)
      && (!IsIntOrStr(threadId) ==> r == base + waitPart)
  {
    var base := "/webhooks/" + Str(id) + "/" + Str(token);
    var waitPart := if wait.VBool? then "?wait=true" else "";
    var threadPart := if IsIntOrStr(threadId) then "&thread_id=" + Str(threadId) else "";
    assert SendEndpoint(id, token, wait, threadId) == base + (waitPart + threadPart);
    assert base + (waitPart + threadPart) == base + waitPart + threadPart;
    EndsWith(base + waitPart, threadPart);
  }

  /** A concatenation ends with its second part. */
  lemma EndsWith(a: string, b: string)
    ensures (a + b)[|a + b| - |b|..] == b
  {
  }

  /** A thread id without a bool `wait` opens the query string with "&": the
      endpoint has no "?" after its path, so the server never sees the thread. */
  lemma ThreadWithoutWait(id: Value, token: Value, t: int)
    ensures var base := "/webhooks/" + Str(id) + "/" + Str(token);
      var r := SendEndpoint(id, token, VNone, VInt(t));
      && r == base + "&thread_id=" + IntToString(t)
      && r[|base|] == '&'
  {
    SendEndpointThreadSuffix(id, token, VNone, VInt(t));
  }

  /** The query string of the corrected endpoint: `wait=true` only for a true
      `wait`, and the thread id opening the query string when nothing precedes it. */
  function IntendedQuery(wait: Value, threadId: Value): string
  {
    var waits := wait == VBool(true);
    (if waits then "?wait=true" else "")
    + (if IsIntOrStr(threadId) then (if waits then "&" else "?") + "thread_id=" + Str(threadId) else "")
  }

  /** The endpoint with the corrected query string. */
  function SendEndpointIntended(id: Value, token: Value, wait: Value, threadId: Value): string
  {
    "/webhooks/" + Str(id) + "/" + Str(token) + IntendedQuery(wait, threadId)
  }

  /** The corrected query asks to wait exactly when `wait` is True, and starts with "?". */
  lemma IntendedQueryShape(wait: Value, threadId: Value)
    ensures var q := IntendedQuery(wait, threadId);
      && (wait == VBool(true) <==> |q| >= 10 && q[..10] == "?wait=true")
      && (|q| > 0 ==> q[0] == '?')
  {
    var q := IntendedQuery(wait, threadId);
    if wait != VBool(true) && IsIntOrStr(threadId) {
      assert q == "?thread_id=" + Str(threadId);
      assert q[1] == 't';
    }
  }

  /** The corrected endpoint carries `wait=true` exactly when `wait` is True, and its
      query string always starts with "?". */
  lemma SendEndpointIntendedQuery(id: Value, token: Value, wait: Value, threadId: Value)
    ensures var base := "/webhooks/" + Str(id) + "/" + Str(token);
      var r := SendEndpointIntended(id, token, wait, threadId);
      && r[..|base|] == base
      && (wait == VBool(true) <==> |r| >= |base| + 10 && r[|base|..|base| + 10] == "?wait=true")
      && (|r| > |base| ==> r[|base|] == '?')
  {
    IntendedQueryShape(wait, threadId);
    AfterPrefix("/webhooks/" + Str(id) + "/" + Str(token), IntendedQuery(wait, threadId));
  }

  /** What follows a prefix in a concatenation is the second part. */
  lemma AfterPrefix(base: string, q: string)
    ensures (base + q)[..|base|] == base
    ensures |base + q| >= |base| + 10 <==> |q| >= 10
    ensures |q| >= 10 ==> (base + q)[|base|..|base| + 10] == q[..10]
    ensures |q| > 0 ==> (base + q)[|base|] == q[0]
  {
  }

  /** The JSON payload of a webhook execution. */
  function SendData(content: Value, username: Value, avatarUrl: Value, tts: Value,
                    embeds: seq<Embeds.EmbedState>, allowedMentions: Value): (r: seq<(string, Value)>)
    ensures PyDict.Keys(r) == ["content", "username", "avatar_url", "tts", "embeds", "allowed_mentions"]
  {
    [("content", MessageBase.ContentArg(content)),
     ("username", username),
     ("avatar_url", avatarUrl),
     ("tts", tts),
     ("embeds", VList(MessageBase.EmbedDicts(embeds))),
     ("allowed_mentions", if allowedMentions.VNone? then VDict([]) else allowedMentions)]
  }

  /** `async_send(...)`: what goes to the session, or the exception raised first. */
  function AsyncSend(apiUrl: string, content: Value, username: Value, avatarUrl: Value, tts: Value,
                     embed: Option<Embeds.EmbedState>, embeds: Option<seq<Embeds.EmbedState>>,
                     file: Option<Files.File>, files: Option<seq<Files.File>>,
                     allowedMentions: Value, wait: Value, threadId: Value, id: Value, token: Value): (r: Result<Http.Sent>)
    ensures r.Err? <==> (embed.Some? && embeds.Some?) || (file.Some? && files.Some?)
    ensures r.Ok? ==> r.value.verb == "POST" && r.value.endpoint == apiUrl + "/" + SendEndpoint(id, token, wait, threadId)
  {
    if embed.Some? && embeds.Some? then Raise("Either embed or embeds")
    else if file.Some? && files.Some? then Raise("Either file or files")
    else
      var fileList := MessageBase.Gathered(files, file);
      var data := VDict(SendData(content, username, avatarUrl, tts, MessageBase.Gathered(embeds, embed), allowedMentions));
      var url := apiUrl + "/" + SendEndpoint(id, token, wait, threadId);
      if fileList != [] then
        Ok(Http.Sent("POST", url, Http.MultipartBody(Http.MultipartPayload(data, fileList).value, fileList),
                     WEBHOOK_MULTIPART_CONTENT_TYPE))
      else
        Ok(Http.Sent("POST", url, Http.JsonBody(data), Http.JSON_CONTENT_TYPE))
  }

  /** `async_send` raises exactly when an item is given both singly and as a list;
      otherwise it posts to `{api_url}/` followed by the endpoint, as multipart
      exactly when there is a file, and always carries the payload (its content a
      string or None, its embeds normalised, its allowed mentions `{}` by
      default). */
  lemma AsyncSendArguments(apiUrl: string, content: Value, username: Value, avatarUrl: Value, tts: Value,
                           embed: Option<Embeds.EmbedState>, embeds: Option<seq<Embeds.EmbedState>>,
                           file: Option<Files.File>, files: Option<seq<Files.File>>,
                           allowedMentions: Value, wait: Value, threadId: Value, id: Value, token: Value)
    ensures var r := AsyncSend(apiUrl, content, username, avatarUrl, tts, embed, embeds, file, files,
                               allowedMentions, wait, threadId, id, token);
      && (r.Err? <==> (embed.Some? && embeds.Some?) || (file.Some? && files.Some?))
      && (r.Ok? ==>
            var hasFiles := file.Some? || (files.Some? && files.value != []);
            var p := r.value.body.payload;
            && r.value.verb == "POST"
            && r.value.endpoint == apiUrl + "/" + SendEndpoint(id, token, wait, threadId)
            && (r.value.contentType == WEBHOOK_MULTIPART_CONTENT_TYPE <==> hasFiles)
            && (!hasFiles ==> r.value.contentType == Http.JSON_CONTENT_TYPE && r.value.body.JsonBody?)
            && Index(p, "content") == Ok(if content.VNone? then VNone else VStr(Str(content)))
            && Index(p, "embeds") == Ok(VList(MessageBase.EmbedDicts(
                 if embed.Some? then [embed.value] else if embeds.Some? then embeds.value else [])))
            && Index(p, "allowed_mentions") == Ok(if allowedMentions.VNone? then VDict([]) else allowedMentions))
  {
    var r := AsyncSend(apiUrl, content, username, avatarUrl, tts, embed, embeds, file, files,
                       allowedMentions, wait, threadId, id, token);
    if r.Ok? {
      var es := MessageBase.Gathered(embeds, embed);
      var d := SendData(content, username, avatarUrl, tts, es, allowedMentions);
      MessageBase.GatheredOne(embeds, embed);
      var fileList := MessageBase.Gathered(files, file);
      MessageBase.GatheredOne(files, file);
      SendDataKeys(content, username, avatarUrl, tts, es, allowedMentions);
      if fileList != [] {
        KeptByMultipart(d, fileList, "content");
        KeptByMultipart(d, fileList, "embeds");
        KeptByMultipart(d, fileList, "allowed_mentions");
      }
    }
  }

  /** The keys of the JSON payload hold the normalised arguments. */
  lemma SendDataKeys(content: Value, username: Value, avatarUrl: Value, tts: Value,
                     embeds: seq<Embeds.EmbedState>, allowedMentions: Value)
    ensures var p := VDict(SendData(content, username, avatarUrl, tts, embeds, allowedMentions));
      && Index(p, "content") == Ok(MessageBase.ContentArg(content))
      && Index(p, "embeds") == Ok(VList(MessageBase.EmbedDicts(embeds)))
      && Index(p, "allowed_mentions") == Ok(if allowedMentions.VNone? then VDict([]) else allowedMentions)
  {
    var d := SendData(content, username, avatarUrl, tts, embeds, allowedMentions);
    assert Index(VDict(d), "content") == Ok(MessageBase.ContentArg(content)) by { PyDict.LookupAt(d, 0); }
    assert Index(VDict(d), "embeds") == Ok(VList(MessageBase.EmbedDicts(embeds))) by { PyDict.LookupAt(d, 4); }
    PyDict.LookupAt(d, 5);
  }

  /** Adding the attachments list leaves every other key of a payload as it was. */
  lemma KeptByMultipart(d: seq<(string, Value)>, files: seq<Files.File>, key: string)
    requires key != "attachments"
    ensures Index(Http.MultipartPayload(VDict(d), files).value, key) == Index(VDict(d), key)
  {
    Http.MultipartPayloadAttachments(d, files);
  }

  /** The response: 204 gives None, anything else the message built from its body
      (there is no status check). */
  function SendResult(status: int, built: Result<Value>): (r: Result<Option<Value>>)
    ensures status == 204 ==> r == Ok(None)
    ensures status != 204 ==> (r.Ok? <==> built.Ok?) && (r.Ok? ==> r.value == Some(built.value))
  {
    if status == 204 then Ok(None)
    else
      match built
      case Err(e) => Err(e)
      case Ok(m) => Ok(Some(m))
  }
}
