/** Webhooks (bhaicord/models/webhook.py): the webhook kinds, parsing a webhook
    URL into its id and token, reading a webhook from API data, executing it
    and choosing the endpoint that deletes one of its messages. */
module Webhooks {
  import opened Wrappers
  import opened PyValues
  import opened PyStrings
  import PyDict
  import Embeds
  import Files
  import Http
  import WebhookBase
  import Users

  // ---------------------------------------------------------------------------
  // `WebhookTypes`

  datatype WebhookType = Incoming | ChannelFollower | Application

  /** `WebhookTypes(value)`: the member with that value, or ValueError. */
  function WebhookTypeOf(v: Value): (r: Result<WebhookType>)
    ensures r.Ok? <==> EnumKey(v).Some? && 1 <= EnumKey(v).value <= 3
    ensures r.Err? ==> r.error.kind == ValueError
    ensures r.Ok? ==> TypeValue(r.value) == EnumKey(v).value
  {
    match EnumKey(v)
    case Some(1) => Ok(Incoming)
    case Some(2) => Ok(ChannelFollower)
    case Some(3) => Ok(Application)
    case _ => Fail(ValueError)
  }

  function TypeValue(t: WebhookType): int
  {
    match t
    case Incoming => 1
    case ChannelFollower => 2
    case Application => 3
  }

  /** `str(member)` is the member's name. */
  function TypeName(t: WebhookType): string
  {
    match t
    case Incoming => "incoming"
    case ChannelFollower => "channel_follower"
    case Application => "application"
  }

  /** Every member is found again from its value, and the names differ. */
  lemma WebhookTypeRoundTrip(t: WebhookType)
    ensures WebhookTypeOf(VInt(TypeValue(t))) == Ok(t)
    ensures forall u :: TypeName(u) == TypeName(t) ==> u == t
  {
  }

  // ---------------------------------------------------------------------------
  // `Webhook(url)`

  /** `list(filter(lambda x: x, parts))` */
  function NonEmpty(parts: seq<string>): (r: seq<string>)
    ensures forall k :: 0 <= k < |r| ==> r[k] != ""
    decreases |parts|
  {
    if |parts| == 0 then []
    else NonEmpty(parts[..|parts| - 1]) + (if parts[|parts| - 1] != "" then [parts[|parts| - 1]] else [])
  }

  lemma {:induction false} NonEmptyAppend(a: seq<string>, b: seq<string>)
    ensures NonEmpty(a + b) == NonEmpty(a) + NonEmpty(b)
    decreases |b|
  {
    if |b| > 0 {
      var b' := b[..|b| - 1];
      assert (a + b)[..|a + b| - 1] == a + b';
      NonEmptyAppend(a, b');
    } else {
      assert a + b == a;
    }
  }

  /** The non-empty segments of a URL. */
  function Segments(url: string): seq<string>
  {
    NonEmpty(Split(url, '/'))
  }

  /** `self.token, self.id = url[::-1][0:2]`: the last segment is the token and the
      one before it the id; with fewer than two segments the unpacking fails. */
  function ParseWebhookUrl(url: string): (r: Result<(string, string)>)
    ensures r.Ok? <==> |Segments(url)| >= 2
    ensures r.Err? ==> r == Raise("Does not seem to be a right url")
    ensures r.Ok? ==> var s := Segments(url);
      r.value == (s[|s| - 1], s[|s| - 2]) && r.value.0 != "" && r.value.1 != "" && '/' !in r.value.0 && '/' !in r.value.1
  {
    var s := Segments(url);
    if |s| < 2 then Raise("Does not seem to be a right url")
    else
      SplitPartsExcludeSep(url, '/');
      NonEmptyFrom(Split(url, '/'));
      Ok((s[|s| - 1], s[|s| - 2]))
  }

  /** The kept segments are among the original ones. */
  lemma {:induction false} NonEmptyFrom(parts: seq<string>)
    ensures forall k :: 0 <= k < |NonEmpty(parts)| ==> NonEmpty(parts)[k] in parts
    decreases |parts|
  {
    if |parts| > 0 {
      var init := parts[..|parts| - 1];
      NonEmptyFrom(init);
      forall k | 0 <= k < |NonEmpty(init)| ensures NonEmpty(init)[k] in parts {
        assert NonEmpty(init)[k] in init;
      }
    }
  }

  /** Splitting `prefix/id/token` gives the prefix's parts, then the id and the token. */
  lemma SplitWebhookUrl(prefix: string, id: string, token: string)
    requires '/' !in id && '/' !in token
    ensures Split(prefix + "/" + id + "/" + token, '/') == Split(prefix, '/') + [id, token]
  {
    SplitWithoutSep(id, '/');
    SplitWithoutSep(token, '/');
    assert prefix + "/" + id + "/" + token == prefix + ['/'] + (id + ['/'] + token);
    SplitAppend(id, token, '/');
    SplitAppend(prefix, id + ['/'] + token, '/');
  }

  /** A URL ending in `/{id}/{token}`, with or without a trailing slash, gives back
      that token and id, whatever comes before. */
  lemma WebhookUrlRoundTrip(prefix: string, id: string, token: string)
    requires id != "" && token != "" && '/' !in id && '/' !in token
    ensures ParseWebhookUrl(prefix + "/" + id + "/" + token) == Ok((token, id))
    ensures ParseWebhookUrl(prefix + "/" + id + "/" + token + "/") == Ok((token, id))
  {
    var url := prefix + "/" + id + "/" + token;
    var front := Split(prefix, '/');
    SplitWebhookUrl(prefix, id, token);
    NonEmptyAppend(front, [id, token]);
    assert NonEmpty([id, token]) == NonEmpty([id]) + [token];
    assert [id][..0] == [];
    assert NonEmpty([id]) == [id];
    assert Segments(url) == NonEmpty(front) + [id, token];
    assert url + "/" == url + ['/'] + "";
    SplitAppend(url, "", '/');
    assert Split("", '/') == [""];
    NonEmptyAppend(front + [id, token], [""]);
    assert [""][..0] == [];
    assert NonEmpty([""]) == [];
    assert Segments(url + "/") == Segments(url);
  }

  // ---------------------------------------------------------------------------
  // The webhook object

  /** A webhook made from its URL keeps the URL and the two strings parsed from it;
      one read from API data has the data's attributes. */
  datatype Webhook =
    | UrlWebhook(url: string, token: string, id: string)
    | DataWebhook(id': int, kind: WebhookType, guildId: Option<int>, channelId: Option<int>,
                  user: Option<Users.UserData>, name: Value, avatar: Value, token': Value,
                  applicationId: Option<int>, sourceGuild: Value, sourceChannel: Value, webhookUrl: Value)

  /** `webhook.id` */
  function IdOf(w: Webhook): Value
  {
    if w.UrlWebhook? then VStr(w.id) else VInt(w.id')
  }

  /** `webhook.token` */
  function TokenOf(w: Webhook): Value
  {
    if w.UrlWebhook? then VStr(w.token) else w.token'
  }

  /** `Webhook(url)` */
  function NewWebhook(url: string): (r: Result<Webhook>)
    ensures r.Ok? <==> |Segments(url)| >= 2
    ensures r.Ok? ==> (r.value.UrlWebhook? && r.value.url == url
                       && (r.value.token, r.value.id) == ParseWebhookUrl(url).value)
  {
    match ParseWebhookUrl(url)
    case Err(e) => Err(e)
    case Ok((token, id)) => Ok(UrlWebhook(url, token, id))
  }

  /** `Webhook.from_data(data)`: `id` and `type` are required and converted; the
      optional ids are ints or None; `user` is the user built from the value, or
      None when that fails. */
  function FromData(data: Value): (r: Result<Webhook>)
    ensures r.Ok? <==> Index(data, "id").Ok? && ToInt(Index(data, "id").value).Ok?
                       && Index(data, "type").Ok? && WebhookTypeOf(Index(data, "type").value).Ok?
    ensures r.Ok? ==>
      && r.value.DataWebhook?
      && r.value.id' == ToInt(Index(data, "id").value).value
      && TypeValue(r.value.kind) == EnumKey(Index(data, "type").value).value
      && r.value.guildId == OptionalInt(Get1(data, "guild_id").value)
      && r.value.channelId == OptionalInt(Get1(data, "channel_id").value)
      && r.value.applicationId == OptionalInt(Get1(data, "application_id").value)
      && r.value.user == ToOption(Users.ReadUser(Get1(data, "user").value, VNone))
  {
    match Index(data, "id")
    case Err(e) => Err(e)
    case Ok(idValue) =>
      match ToInt(idValue)
      case Err(e) => Err(e)
      case Ok(id) =>
        match Index(data, "type")
        case Err(e) => Err(e)
        case Ok(typeValue) =>
          match WebhookTypeOf(typeValue)
          case Err(e) => Err(e)
          case Ok(kind) =>
            Ok(DataWebhook(id, kind,
                           OptionalInt(Get1(data, "guild_id").value),
                           OptionalInt(Get1(data, "channel_id").value),
                           ToOption(Users.ReadUser(Get1(data, "user").value, VNone)),
                           Get1(data, "name").value, Get1(data, "avatar").value, Get1(data, "token").value,
                           OptionalInt(Get1(data, "application_id").value),
                           Get1(data, "source_guild").value, Get1(data, "source_channel").value,
                           Get1(data, "url").value))
  }

  /** Optional ids that are absent become None, and a type outside 1..3 is
      refused. */
  lemma FromDataOptionalIds(data: Value)
    requires FromData(data).Ok?
    ensures var w := FromData(data).value;
      && data.VDict?
      && ("guild_id" !in PyDict.Keys(data.entries) ==> w.guildId.None?)
      && ("channel_id" !in PyDict.Keys(data.entries) ==> w.channelId.None?)
      && ("application_id" !in PyDict.Keys(data.entries) ==> w.applicationId.None?)
      && 1 <= TypeValue(w.kind) <= 3
  {
  }

  /** `webhook.send(...)`: executes the webhook with its own id and token. */
  function Send(w: Webhook, apiUrl: string, content: Value, username: Value, avatarUrl: Value, tts: Value,
                embed: Option<Embeds.EmbedState>, embeds: Option<seq<Embeds.EmbedState>>,
                file: Option<Files.File>, files: Option<seq<Files.File>>,
                allowedMentions: Value, wait: Value, threadId: Value): (r: Result<Http.Sent>)
    ensures r.Ok? ==> r.value.endpoint == apiUrl + "/" + WebhookBase.SendEndpoint(IdOf(w), TokenOf(w), wait, threadId)
  {
    WebhookBase.AsyncSendArguments(apiUrl, content, username, avatarUrl, tts, embed, embeds, file, files,
                                   allowedMentions, wait, threadId, IdOf(w), TokenOf(w));
    WebhookBase.AsyncSend(apiUrl, content, username, avatarUrl, tts, embed, embeds, file, files,
                          allowedMentions, wait, threadId, IdOf(w), TokenOf(w))
  }

  // ---------------------------------------------------------------------------
  // `delete_message`

  /** The URL `delete_message` sends its DELETE to. `message` is the `id` of the
      message object passed, if any. With none of the ids and the token truthy it
      takes them from the webhook and message objects, which must then both be
      given. */
  function DeleteMessageUrl(apiUrl: string, webhookId: Value, token: Value, messageId: Value,
                            message: Option<Value>, webhook: Option<Webhook>, threadId: Value): (r: Result<string>)
    ensures r.Err? <==> !Truthy(webhookId) && !Truthy(token) && !Truthy(messageId) && (message.None? || webhook.None?)
    ensures r.Err? ==> r.error == Error(TypeError, "message and webhook are needed")
  {
    var suffix := if Truthy(threadId) then "?thread_id=" + Str(threadId) else "";
    if !Truthy(webhookId) && !Truthy(token) && !Truthy(messageId) then
      if message.None? || webhook.None? then Err(Error(TypeError, "message and webhook are needed"))
      else Ok(apiUrl + "/webhooks/" + Str(IdOf(webhook.value)) + "/" + Str(TokenOf(webhook.value))
              + "/messages/" + Str(message.value) + suffix)
    else
      Ok(apiUrl + "/webhooks/" + Str(webhookId) + "/" + Str(token) + "/messages/" + Str(messageId) + suffix)
  }

  /** The explicit arguments win whenever any of them is truthy (the others are
      formatted as given, "None" included); otherwise the objects' ids are used.
      The thread query appears exactly when the thread id is truthy. */
  lemma DeleteMessageEndpoint(apiUrl: string, webhookId: Value, token: Value, messageId: Value,
                              message: Option<Value>, webhook: Option<Webhook>, threadId: Value)
    ensures var r := DeleteMessageUrl(apiUrl, webhookId, token, messageId, message, webhook, threadId);
      var suffix := if Truthy(threadId) then "?thread_id=" + Str(threadId) else "";
      && (Truthy(webhookId) || Truthy(token) || Truthy(messageId) ==>
            r == Ok(apiUrl + "/webhooks/" + Str(webhookId) + "/" + Str(token) + "/messages/" + Str(messageId) + suffix))
      && (!Truthy(webhookId) && !Truthy(token) && !Truthy(messageId) && message.Some? && webhook.Some? ==>
            r == Ok(apiUrl + "/webhooks/" + Str(IdOf(webhook.value)) + "/" + Str(TokenOf(webhook.value))
                    + "/messages/" + Str(message.value) + suffix))
  {
  }

  /** Deleting through a webhook made from its URL and a message with id `m` reaches
      `/webhooks/{id}/{token}/messages/{m}` with the parsed id and token. */
  lemma DeleteThroughUrlWebhook(apiUrl: string, prefix: string, id: string, token: string, m: int)
    requires id != "" && token != "" && '/' !in id && '/' !in token
    ensures var w := NewWebhook(prefix + "/" + id + "/" + token);
      && w.Ok?
      && DeleteMessageUrl(apiUrl, VNone, VNone, VNone, Some(VInt(m)), Some(w.value), VNone)
         == Ok(apiUrl + "/webhooks/" + id + "/" + token + "/messages/" + IntToString(m))
  {
    WebhookUrlRoundTrip(prefix, id, token);
    var u := apiUrl + "/webhooks/" + id + "/" + token + "/messages/" + IntToString(m);
    assert u + "" == u;
  }
}
