/** Message endpoints (bhaicord/APIBase/message_base.py): the argument
    normalisation of `create_message` and `edit_message`, the DELETE call, and
    `fetch_message_base` on the bounded message cache. A call is the `request`
    arguments it produces; the `Message` built from a response is opaque. */
module MessageBase {
  import opened Wrappers
  import opened PyValues
  import opened LookupCache
  import PyDict
  import PyStrings
  import Embeds
  import Files
  import Http

  /** `embeds` (or `files`) after the checks: the list given, or a one-element list
      of the single item, or empty. */
  function Gathered<T>(many: Option<seq<T>>, one: Option<T>): seq<T>
  {
    (if many.Some? then many.value else []) + (if one.Some? then [one.value] else [])
  }

  /** When at most one of the two is given, the gathered list is that one. */
  lemma GatheredOne<T>(many: Option<seq<T>>, one: Option<T>)
    requires !(many.Some? && one.Some?)
    ensures Gathered(many, one) == if one.Some? then [one.value] else if many.Some? then many.value else []
  {
    if one.Some? {
      assert Gathered(many, one) == [] + [one.value];
    } else if many.Some? {
      assert Gathered(many, one) == many.value + [];
    }
  }

  /** `[em.to_dict() for em in embeds]` */
  function EmbedDicts(embeds: seq<Embeds.EmbedState>): (r: seq<Value>)
    ensures |r| == |embeds|
    ensures forall i :: 0 <= i < |embeds| ==> r[i] == VDict(Embeds.EmbedDict(Embeds.Attributes(embeds[i])))
  {
    seq(|embeds|, i requires 0 <= i < |embeds| => VDict(Embeds.EmbedDict(Embeds.Attributes(embeds[i]))))
  }

  /** `str(content)` unless it is None. */
  function ContentArg(content: Value): Value
  {
    if content.VNone? then VNone else VStr(Str(content))
  }

  /** `create_message(...)`: the POST it issues. `client` says whether a client
      is current; `get_client()` is called first. */
  function CreateMessage(channelId: Value, content: Value, tts: Value,
                         embeds: Option<seq<Embeds.EmbedState>>, embed: Option<Embeds.EmbedState>,
                         file: Option<Files.File>, files: Option<seq<Files.File>>,
                         allowedMentions: Value, client: bool): (r: Result<Http.Call>)
    ensures r.Err? <==> !client || (embeds.Some? && embed.Some?) || (files.Some? && file.Some?)
    ensures r.Ok? ==> r.value.verb == "POST" && r.value.payload.VDict? && r.value.files.Some?
    ensures r.Ok? ==> r.value.url == "/channels/" + Str(channelId) + "/messages"
  {
    if !client then Err(NO_CLIENT)
    else if embeds.Some? && embed.Some? then Raise("Either embed or embeds")
    else if files.Some? && file.Some? then Raise("Either file or files")
    else
      Ok(Http.Call("POST", "/channels/" + Str(channelId) + "/messages",
                   CreatePayload(content, tts, Gathered(embeds, embed), allowedMentions),
                   Some(Gathered(files, file))))
  }

  /** The JSON body `create_message` builds once the checks pass. */
  function CreatePayload(content: Value, tts: Value, embeds: seq<Embeds.EmbedState>, allowedMentions: Value): Value
  {
    VDict([("content", ContentArg(content)),
           ("tts", tts),
           ("embeds", VList(EmbedDicts(embeds))),
           ("allowed_mentions", if allowedMentions.VNone? then VDict([]) else allowedMentions)])
  }

  /** Each of the four keys of the body holds its argument. */
  lemma CreatePayloadKeys(content: Value, tts: Value, embeds: seq<Embeds.EmbedState>, allowedMentions: Value)
    ensures var p := CreatePayload(content, tts, embeds, allowedMentions);
      && Index(p, "content") == Ok(ContentArg(content))
      && Index(p, "tts") == Ok(tts)
      && Index(p, "embeds") == Ok(VList(EmbedDicts(embeds)))
      && Index(p, "allowed_mentions") == Ok(if allowedMentions.VNone? then VDict([]) else allowedMentions)
  {
    var p := CreatePayload(content, tts, embeds, allowedMentions);
    var d := p.entries;
    assert Index(p, "content") == Ok(ContentArg(content)) by { PyDict.LookupAt(d, 0); }
    assert Index(p, "tts") == Ok(tts) by { PyDict.LookupAt(d, 1); }
    assert Index(p, "embeds") == Ok(VList(EmbedDicts(embeds))) by { PyDict.LookupAt(d, 2); }
    PyDict.LookupAt(d, 3);
  }

  /** `create_message` raises ClientNotFound without a current client, and
      otherwise raises exactly when an item is given both singly and as a list;
      otherwise the payload carries the content as a string (None stays
      None), the embeds' dicts in order (a single embed as a one-element list),
      `{}` for absent allowed mentions, and the files as a list. */
  lemma CreateMessageArguments(channelId: Value, content: Value, tts: Value,
                               embeds: Option<seq<Embeds.EmbedState>>, embed: Option<Embeds.EmbedState>,
                               file: Option<Files.File>, files: Option<seq<Files.File>>,
                               allowedMentions: Value, client: bool)
    ensures var r := CreateMessage(channelId, content, tts, embeds, embed, file, files, allowedMentions, client);
      && (!client ==> r == Err(NO_CLIENT))
      && (r.Err? <==> !client || (embeds.Some? && embed.Some?) || (files.Some? && file.Some?))
      && (client && embeds.Some? && embed.Some? ==> r == Raise("Either embed or embeds"))
      && (r.Ok? ==>
            var p := r.value.payload;
            && r.value.verb == "POST"
            && Index(p, "content") == Ok(if content.VNone? then VNone else VStr(Str(content)))
            && Index(p, "tts") == Ok(tts)
            && Index(p, "embeds") == Ok(VList(EmbedDicts(
                 if embed.Some? then [embed.value] else if embeds.Some? then embeds.value else [])))
            && Index(p, "allowed_mentions") == Ok(if allowedMentions.VNone? then VDict([]) else allowedMentions)
            && r.value.files == Some(if file.Some? then [file.value] else if files.Some? then files.value else []))
  {
    var r := CreateMessage(channelId, content, tts, embeds, embed, file, files, allowedMentions, client);
    if r.Ok? {
      CreatePayloadKeys(content, tts, Gathered(embeds, embed), allowedMentions);
      GatheredOne(embeds, embed);
      GatheredOne(files, file);
    }
  }

  /** Whatever files it carries, a message that passes the checks can always be
      prepared by `request` (its payload is a dict), at `/channels/{id}/messages`. */
  lemma CreateMessagePrepared(apiUrl: string, channelId: Value, content: Value, tts: Value,
                              embeds: Option<seq<Embeds.EmbedState>>, embed: Option<Embeds.EmbedState>,
                              file: Option<Files.File>, files: Option<seq<Files.File>>,
                              allowedMentions: Value, client: bool)
    requires CreateMessage(channelId, content, tts, embeds, embed, file, files, allowedMentions, client).Ok?
    ensures var call := CreateMessage(channelId, content, tts, embeds, embed, file, files, allowedMentions, client).value;
      && Http.Prepare(apiUrl, call).Ok?
      && Http.Prepare(apiUrl, call).value.endpoint == apiUrl + "/channels/" + Str(channelId) + "/messages"
      && (Http.Prepare(apiUrl, call).value.contentType == Http.MULTIPART_CONTENT_TYPE <==> file.Some? || (files.Some? && files.value != []))
  {
    var call := CreateMessage(channelId, content, tts, embeds, embed, file, files, allowedMentions, client).value;
    var id := Str(channelId);
    assert call.url == "/channels/" + id + "/messages" && call.payload.VDict? && call.files == Some(Gathered(files, file));
    SlashedPrepared(apiUrl, call);
    AppendRegrouped(apiUrl, "/channels/", id, "/messages");
    GatheredOne(files, file);
  }

  /** A call whose URL already starts with "/" and whose payload is a dict is
      prepared at the API root followed by that URL, as multipart exactly when it
      carries files. */
  lemma SlashedPrepared(apiUrl: string, call: Http.Call)
    requires PyStrings.StartsWith(call.url, "/") && call.payload.VDict?
    ensures Http.Prepare(apiUrl, call).Ok?
    ensures Http.Prepare(apiUrl, call).value.endpoint == apiUrl + call.url
    ensures Http.Prepare(apiUrl, call).value.contentType == Http.MULTIPART_CONTENT_TYPE <==> Http.HasFiles(call.files)
  {
  }

  lemma AppendRegrouped(p: string, a: string, b: string, c: string)
    ensures p + (a + b + c) == p + a + b + c
  {
  }

  /** `edit_message(...)`: the PATCH it issues. `allowed_mentions` is passed on as
      given, None included, and missing ids are formatted as "None".
      `get_client()` is called first. */
  function EditMessage(channelId: Value, messageId: Value, content: Value,
                       embed: Option<Embeds.EmbedState>, embeds: Option<seq<Embeds.EmbedState>>,
                       allowedMentions: Value, client: bool): (r: Result<Http.Call>)
    ensures r.Err? <==> !client || (embed.Some? && embeds.Some?)
    ensures r.Ok? ==> r.value.verb == "PATCH" && r.value.payload.VDict? && r.value.files.None?
  {
    if !client then Err(NO_CLIENT)
    else if embed.Some? && embeds.Some? then Raise("Either embeds or embed")
    else
      Ok(Http.Call("PATCH", "channels/" + Str(channelId) + "/messages/" + Str(messageId),
                   VDict([("content", ContentArg(content)),
                          ("embeds", VList(EmbedDicts(Gathered(embeds, embed)))),
                          ("allowed_mentions", allowedMentions)]),
                   None))
  }

  /** `edit_message` raises ClientNotFound without a current client, and
      otherwise raises exactly when both `embed` and `embeds` are given;
      otherwise the payload carries the content as a string (None stays None),
      the normalised embeds, and the allowed mentions as given. */
  lemma EditMessageArguments(channelId: Value, messageId: Value, content: Value,
                             embed: Option<Embeds.EmbedState>, embeds: Option<seq<Embeds.EmbedState>>,
                             allowedMentions: Value, client: bool)
    ensures var r := EditMessage(channelId, messageId, content, embed, embeds, allowedMentions, client);
      && (!client ==> r == Err(NO_CLIENT))
      && (r.Err? <==> !client || (embed.Some? && embeds.Some?))
      && (r.Ok? ==>
            var p := r.value.payload;
            && r.value.verb == "PATCH"
            && r.value.url == "channels/" + Str(channelId) + "/messages/" + Str(messageId)
            && Index(p, "content") == Ok(if content.VNone? then VNone else VStr(Str(content)))
            && Index(p, "embeds") == Ok(VList(EmbedDicts(
                 if embed.Some? then [embed.value] else if embeds.Some? then embeds.value else [])))
            && Index(p, "allowed_mentions") == Ok(allowedMentions))
  {
    var r := EditMessage(channelId, messageId, content, embed, embeds, allowedMentions, client);
    if r.Ok? {
      var d := r.value.payload.entries;
      PyDict.LookupAt(d, 0);
      PyDict.LookupAt(d, 1);
      PyDict.LookupAt(d, 2);
      GatheredOne(embeds, embed);
    }
  }

  /** `request` adds the leading slash an edit's URL lacks; the edit carries no
      files, so its payload goes as JSON. */
  lemma EditMessageSent(apiUrl: string, channelId: Value, messageId: Value, content: Value,
                        embed: Option<Embeds.EmbedState>, embeds: Option<seq<Embeds.EmbedState>>,
                        allowedMentions: Value, client: bool)
    requires EditMessage(channelId, messageId, content, embed, embeds, allowedMentions, client).Ok?
    ensures var call := EditMessage(channelId, messageId, content, embed, embeds, allowedMentions, client).value;
      Http.Prepare(apiUrl, call)
      == Ok(Http.Sent("PATCH", apiUrl + "/channels/" + Str(channelId) + "/messages/" + Str(messageId),
                      Http.JsonBody(call.payload), Http.JSON_CONTENT_TYPE))
  {
    var call := EditMessage(channelId, messageId, content, embed, embeds, allowedMentions, client).value;
    ChannelsPathSlash(apiUrl, Str(channelId), Str(messageId));
    assert Truthy(call.payload);
  }

  /** "channels/{c}/messages/{m}" has no leading slash, and `request` adds one. */
  lemma ChannelsPathSlash(apiUrl: string, c: string, m: string)
    ensures apiUrl + Http.NormalisedUrl("channels/" + c + "/messages/" + m) == apiUrl + "/channels/" + c + "/messages/" + m
  {
    var url := "channels/" + c + "/messages/" + m;
    assert url[0] == 'c';
    assert "/" + url == "/channels/" + c + "/messages/" + m;
    assert apiUrl + ("/channels/" + c + "/messages/" + m) == apiUrl + "/channels/" + c + "/messages/" + m;
  }

  /** `delete_message(channel_id, message_id)`: the DELETE it issues, after
      `get_client()`. */
  function DeleteMessage(channelId: Value, messageId: Value, client: bool): (r: Result<Http.Call>)
    ensures r.Ok? <==> client
    ensures r.Ok? ==> r.value.verb == "DELETE" && r.value.payload.VNone? && r.value.files.None?
  {
    if !client then Err(NO_CLIENT)
    else Ok(Http.Call("DELETE", "channels/" + Str(channelId) + "/messages/" + Str(messageId), VNone, None))
  }

  /** Without a current client `delete_message` raises ClientNotFound; with one the
      DELETE goes to `/channels/{c}/messages/{m}` with no body. */
  lemma DeleteMessageSendsNoBody(apiUrl: string, channelId: Value, messageId: Value, client: bool)
    ensures var r := DeleteMessage(channelId, messageId, client);
      && (r.Err? <==> !client)
      && (!client ==> r == Err(NO_CLIENT))
      && (client ==> Http.Prepare(apiUrl, r.value)
                     == Ok(Http.Sent("DELETE", apiUrl + "/channels/" + Str(channelId) + "/messages/" + Str(messageId),
                                     Http.NoBody, Http.JSON_CONTENT_TYPE)))
  {
    ChannelsPathSlash(apiUrl, Str(channelId), Str(messageId));
  }

  // ---------------------------------------------------------------------------
  // `fetch_message_base`

  /** The endpoint a message is fetched from. */
  function MessageEndpoint(channelId: int, messageId: int): string
  {
    "channels/" + PyStrings.IntToString(channelId) + "/messages/" + PyStrings.IntToString(messageId)
  }

  /** The request and its storage under the requested id: `fetched` is the message
      built from the response, or what the request or the construction raised. */
  function FetchAndStoreMessage<V>(c: Store<V>, channelId: int, messageId: int, fetched: Result<V>): Outcome<V>
  {
    match fetched
    case Err(e) => Outcome(Err(e), c, Some(MessageEndpoint(channelId, messageId)))
    case Ok(m) => Outcome(Ok(m), Insert(c, messageId, m), Some(MessageEndpoint(channelId, messageId)))
  }

  /** `fetch_message_base` as written: on a miss with a full cache the whole key
      list is used as the key to delete, which is unhashable, so the call raises
      TypeError before any request. A `Message` is always truthy, so a present key
      is a hit. */
  function FetchMessage<V>(c: Store<V>, cacheSize: int, channelId: Value, messageId: Value, fetched: Result<V>, client: bool): (r: Outcome<V>)
    ensures r.requested.Some? ==>
      && client && ToInt(messageId).Ok? && ToInt(channelId).Ok?
      && ToInt(messageId).value !in c.entries && Size(c) < cacheSize
      && r.requested.value == MessageEndpoint(ToInt(channelId).value, ToInt(messageId).value)
    ensures r.store != c ==> r.requested.Some? && r.result.Ok?
  {
    match ToInt(messageId)
    case Err(e) => Outcome(Err(e), c, None)
    case Ok(mid) =>
      match ToInt(channelId)
      case Err(e) => Outcome(Err(e), c, None)
      case Ok(cid) =>
        if !client then Outcome(Err(NO_CLIENT), c, None)
        else if mid in c.entries then Outcome(Ok(c.entries[mid]), c, None)
        else if Size(c) >= cacheSize then Outcome(Fail(TypeError), c, None)
        else FetchAndStoreMessage(c, cid, mid, fetched)
  }

  /** The ids are converted before the client is looked up: a bad id raises its
      own error whether or not a client is current; with good ids and no client
      the call raises ClientNotFound. Either way nothing is requested and the
      cache is left alone. */
  lemma FetchMessageChecksIdsFirst<V>(c: Store<V>, cacheSize: int, channelId: Value, messageId: Value,
                                      fetched: Result<V>, client: bool)
    ensures var out := FetchMessage(c, cacheSize, channelId, messageId, fetched, client);
      && (ToInt(messageId).Err? ==> out == Outcome(Err(ToInt(messageId).error), c, None))
      && (ToInt(messageId).Ok? && ToInt(channelId).Err? ==> out == Outcome(Err(ToInt(channelId).error), c, None))
      && (ToInt(messageId).Ok? && ToInt(channelId).Ok? && !client ==> out == Outcome(Err(NO_CLIENT), c, None))
  {
  }

  /** A hit, by the int value of the id (so "42" finds 42), returns the cached
      message without a request. */
  lemma MessageHit<V>(c: Store<V>, cacheSize: int, channelId: int, messageId: Value, fetched: Result<V>)
    requires ToInt(messageId).Ok? && ToInt(messageId).value in c.entries
    ensures FetchMessage(c, cacheSize, VInt(channelId), messageId, fetched, true)
         == Outcome(Ok(c.entries[ToInt(messageId).value]), c, None)
  {
  }

  /** A successful miss below the bound stores the message under the requested,
      int-converted id and returns it. */
  lemma StoredUnderRequestedId<V>(c: Store<V>, cacheSize: int, channelId: int, messageId: int, m: V)
    requires messageId !in c.entries && Size(c) < cacheSize
    ensures var out := FetchMessage(c, cacheSize, VStr(PyStrings.IntToString(channelId)),
                                    VStr(PyStrings.IntToString(messageId)), Ok(m), true);
      && out.result == Ok(m)
      && out.store == Insert(c, messageId, m)
      && out.requested == Some(MessageEndpoint(channelId, messageId))
  {
    ToIntOfStr(channelId);
    ToIntOfStr(messageId);
  }

  /** As written, every miss on a full cache raises TypeError, requests nothing
      and leaves the cache as it was, whatever the server would have answered. */
  lemma FullCacheMissAlwaysFails<V>(c: Store<V>, cacheSize: int, channelId: int, messageId: int, fetched: Result<V>)
    requires messageId !in c.entries && Size(c) >= cacheSize
    ensures var out := FetchMessage(c, cacheSize, VInt(channelId), VInt(messageId), fetched, true);
      out.result.Err? && out.result.error.kind == TypeError && out.requested.None? && out.store == c
  {
  }

  /** The smallest case: a cache of size one holding message 1 can never fetch
      message 2. */
  lemma FullCacheCounterexample(m1: int, m2: int)
    ensures FetchMessage(Store(map[1 := m1], [1]), 1, VInt(5), VInt(2), Ok(m2), true).result.Err?
  {
  }

  /** `fetch_message_base` with the earliest-inserted key evicted, as
      `fetch_user_base` does. */
  function FetchMessageIntended<V>(c: Store<V>, cacheSize: int, channelId: Value, messageId: Value, fetched: Result<V>, client: bool): (r: Outcome<V>)
    ensures r.requested.Some? ==>
      && client && ToInt(messageId).Ok? && ToInt(channelId).Ok? && ToInt(messageId).value !in c.entries
      && r.requested.value == MessageEndpoint(ToInt(channelId).value, ToInt(messageId).value)
    ensures r.result.Ok? && r.requested.None? ==> r.store == c && ToInt(messageId).Ok? && ToInt(messageId).value in c.entries
  {
    match ToInt(messageId)
    case Err(e) => Outcome(Err(e), c, None)
    case Ok(mid) =>
      match ToInt(channelId)
      case Err(e) => Outcome(Err(e), c, None)
      case Ok(cid) =>
        if !client then Outcome(Err(NO_CLIENT), c, None)
        else if mid in c.entries then Outcome(Ok(c.entries[mid]), c, None)
        else if Size(c) >= cacheSize then
          match EvictFirst(c)
          case Err(e) => Outcome(Err(e), c, None)
          case Ok(c') => FetchAndStoreMessage(c', cid, mid, fetched)
        else FetchAndStoreMessage(c, cid, mid, fetched)
  }

  /** With eviction, a miss on a full cache of bound at least one does reach the
      server, returns its message, and keeps the cache valid and within the bound. */
  lemma IntendedFetchSucceedsWithinBound<V>(c: Store<V>, cacheSize: int, channelId: int, messageId: int, m: V)
    requires Valid(c) && Size(c) <= cacheSize && cacheSize >= 1 && messageId !in c.entries
    ensures var out := FetchMessageIntended(c, cacheSize, VInt(channelId), VInt(messageId), Ok(m), true);
      && out.result == Ok(m)
      && out.requested == Some(MessageEndpoint(channelId, messageId))
      && messageId in out.store.entries && out.store.entries[messageId] == m
      && Valid(out.store) && Size(out.store) <= cacheSize
  {
    var c' := c;
    if Size(c) >= cacheSize {
      EvictFirstValid(c);
      c' := EvictFirst(c).value;
      assert messageId !in c'.entries;
    }
    InsertValid(c', messageId, m);
  }

  /** `fetch_message_base` on the client's message cache, as written. */
  method FetchMessageBase<V>(cache: Cache<V>, cacheSize: int, channelId: Value, messageId: Value, fetched: Result<V>,
                            client: bool)
    returns (r: Result<V>, requested: Option<string>)
    modifies cache
    ensures r == FetchMessage(old(cache.Contents()), cacheSize, channelId, messageId, fetched, client).result
    ensures requested == FetchMessage(old(cache.Contents()), cacheSize, channelId, messageId, fetched, client).requested
    ensures cache.Contents() == FetchMessage(old(cache.Contents()), cacheSize, channelId, messageId, fetched, client).store
  {
    var mid := ToInt(messageId);
    if mid.Err? {
      return Err(mid.error), None;
    }
    var cid := ToInt(channelId);
    if cid.Err? {
      return Err(cid.error), None;
    }
    if !client {
      return Err(NO_CLIENT), None;
    }
    var msg := cache.Get(mid.value);
    if msg.Some? {
      return Ok(msg.value), None;
    }
    if |cache.order| >= cacheSize {
      // `del cache[list(cache.keys())]`: a list is not hashable
      return Fail(TypeError), None;
    }
    requested := Some(MessageEndpoint(cid.value, mid.value));
    if fetched.Err? {
      return Err(fetched.error), requested;
    }
    cache.Put(mid.value, fetched.value);
    r := Ok(fetched.value);
  }
}
