/** Channels (bhaicord/models/channel.py): the channel types, the fields a
    `Channel` reads from API data with their defaults, sending to a channel, and
    the channel mentions a message carries. */
module Channels {
  import opened Wrappers
  import opened PyValues
  import PyDict
  import PyLists
  import Users
  import Embeds
  import Files
  import Http
  import MessageBase

  // ---------------------------------------------------------------------------
  // `ChannelType`

  datatype ChannelType =
    | Text | Private | Voice | Group | Category | GuildNews
    | GuildNewsThread | GuildPublicThread | GuildPrivateThread | GuildStageVoice | GuildDirectory | GuildForum

  function ChannelTypeValue(t: ChannelType): int
  {
    match t
    case Text => 0
    case Private => 1
    case Voice => 2
    case Group => 3
    case Category => 4
    case GuildNews => 5
    case GuildNewsThread => 10
    case GuildPublicThread => 11
    case GuildPrivateThread => 12
    case GuildStageVoice => 13
    case GuildDirectory => 14
    case GuildForum => 15
  }

  /** `str(member)` is the member's name. */
  function ChannelTypeName(t: ChannelType): string
  {
    match t
    case Text => "text"
    case Private => "private"
    case Voice => "voice"
    case Group => "group"
    case Category => "category"
    case GuildNews => "guild_news"
    case GuildNewsThread => "guild_news_thread"
    case GuildPublicThread => "guild_public_thread"
    case GuildPrivateThread => "guild_private_thread"
    case GuildStageVoice => "guild_stage_voice"
    case GuildDirectory => "guild_directory"
    case GuildForum => "guild_forum"
  }

  /** `ChannelType(v)`: the member with that value (0 to 5 and 10 to 15), or
      ValueError. */
  function ChannelTypeOf(v: Value): (r: Result<ChannelType>)
    ensures r.Ok? <==> EnumKey(v).Some? && (0 <= EnumKey(v).value <= 5 || 10 <= EnumKey(v).value <= 15)
    ensures r.Ok? ==> ChannelTypeValue(r.value) == EnumKey(v).value
    ensures r.Err? ==> r.error.kind == ValueError
  {
    match EnumKey(v)
    case Some(0) => Ok(Text)
    case Some(1) => Ok(Private)
    case Some(2) => Ok(Voice)
    case Some(3) => Ok(Group)
    case Some(4) => Ok(Category)
    case Some(5) => Ok(GuildNews)
    case Some(10) => Ok(GuildNewsThread)
    case Some(11) => Ok(GuildPublicThread)
    case Some(12) => Ok(GuildPrivateThread)
    case Some(13) => Ok(GuildStageVoice)
    case Some(14) => Ok(GuildDirectory)
    case Some(15) => Ok(GuildForum)
    case _ => Fail(ValueError)
  }

  /** Every member is found again from its value, and the names differ. */
  lemma ChannelTypeRoundTrip(t: ChannelType)
    ensures ChannelTypeOf(VInt(ChannelTypeValue(t))) == Ok(t)
    ensures forall u :: ChannelTypeName(u) == ChannelTypeName(t) ==> u == t
  {
  }

  // ---------------------------------------------------------------------------
  // `Channel(data)`

  /** The modelled attributes of a `Channel`; `id` is kept as given. */
  datatype ChannelData = ChannelData(
    id: Value, kind: ChannelType, guildId: Option<int>, position: Value, permissionOverwrites: Value,
    name: Value, topic: Value, nsfw: Value, lastMessageId: Option<int>, bitrate: Value, userLimit: Value,
    rateLimitPerUser: Value, recipients: seq<Users.UserData>, icon: Value, ownerId: Option<int>,
    applicationId: Option<int>, parentId: Option<int>, rtcRegion: Value, videoQualityMode: Value,
    messageCount: Value, memberCount: Value, threadMetadata: Value, threadMember: Value,
    defaultAutoArchiveDuration: Value, permissions: Value, flags: Value)

  /** `Channel(data)`: `id` and `type` are required, every id is read with
      `make_optional(int, ...)`, each recipient is a user, and the counters default
      to -1. The last pin timestamp is not part of this model. */
  function ReadChannel(data: Value): (r: Result<ChannelData>)
    ensures r.Ok? ==> data.VDict? && Index(data, "id") == Ok(r.value.id)
                      && Index(data, "type").Ok? && ChannelTypeOf(Index(data, "type").value) == Ok(r.value.kind)
  {
    var id :- Index(data, "id");
    var kindValue :- Index(data, "type");
    var kind :- ChannelTypeOf(kindValue);
    var recipientItems :- Iterated(Get(data, "recipients", VList([])).value);
    var recipients :- PyLists.MapAll(recipientItems, v => Users.ReadUser(v, VNone));
    Ok(ChannelData(
      id, kind, OptionalInt(Get1(data, "guild_id").value), Get1(data, "position").value,
      Get(data, "permission_overwrites", VList([])).value, Get1(data, "name").value, Get1(data, "topic").value,
      Get(data, "nsfw", VBool(false)).value, OptionalInt(Get1(data, "last_message_id").value),
      Get1(data, "bitrate").value, Get1(data, "user_limit").value, Get1(data, "rate_limit_per_user").value,
      recipients, Get1(data, "icon").value, OptionalInt(Get1(data, "owner_id").value),
      OptionalInt(Get1(data, "application_id").value), OptionalInt(Get1(data, "parent_id").value),
      Get1(data, "rtc_region").value, Get1(data, "video_quality_mode").value,
      Get(data, "message_count", VInt(-1)).value, Get(data, "member_count", VInt(-1)).value,
      Get1(data, "thread_metadata").value, Get1(data, "thread_member").value,
      Get(data, "default_auto_archive_duration", VInt(-1)).value, Get1(data, "permissions").value,
      Get(data, "flags", VInt(-1)).value))
  }

  /** A channel read fails when `type` is present but not a `ChannelType` value;
      a channel that reads has the absent counters -1, `nsfw`
      defaults to False and the overwrites to `[]`, and each optional id is its
      int, or None when absent or not convertible. */
  lemma ChannelDefaults(data: Value)
    requires data.VDict?
    ensures var r := ReadChannel(data);
      && (r.Ok? ==> var keys := PyDict.Keys(data.entries);
            && ("message_count" !in keys ==> r.value.messageCount == VInt(-1))
            && ("member_count" !in keys ==> r.value.memberCount == VInt(-1))
            && ("default_auto_archive_duration" !in keys ==> r.value.defaultAutoArchiveDuration == VInt(-1))
            && ("flags" !in keys ==> r.value.flags == VInt(-1))
            && ("nsfw" !in keys ==> r.value.nsfw == VBool(false))
            && ("permission_overwrites" !in keys ==> r.value.permissionOverwrites == VList([]))
            && r.value.guildId == ToOption(ToInt(Get1(data, "guild_id").value))
            && ("guild_id" !in keys ==> r.value.guildId.None?)
            && r.value.lastMessageId == ToOption(ToInt(Get1(data, "last_message_id").value))
            && r.value.ownerId == ToOption(ToInt(Get1(data, "owner_id").value))
            && r.value.applicationId == ToOption(ToInt(Get1(data, "application_id").value))
            && r.value.parentId == ToOption(ToInt(Get1(data, "parent_id").value)))
      && ("type" in PyDict.Keys(data.entries) && ChannelTypeOf(Index(data, "type").value).Err? ==> r.Err?)
  {
    if ReadChannel(data).Ok? {
      ChannelCounterDefaults(data);
      ChannelOptionalIds(data);
    }
  }

  /** The absent counters, `nsfw` and the overwrites of a channel read. */
  lemma ChannelCounterDefaults(data: Value)
    requires data.VDict? && ReadChannel(data).Ok?
    ensures var c := ReadChannel(data).value; var keys := PyDict.Keys(data.entries);
      && ("message_count" !in keys ==> c.messageCount == VInt(-1))
      && ("member_count" !in keys ==> c.memberCount == VInt(-1))
      && ("default_auto_archive_duration" !in keys ==> c.defaultAutoArchiveDuration == VInt(-1))
      && ("flags" !in keys ==> c.flags == VInt(-1))
      && ("nsfw" !in keys ==> c.nsfw == VBool(false))
      && ("permission_overwrites" !in keys ==> c.permissionOverwrites == VList([]))
  {
  }

  /** The optional ids of a channel read. */
  lemma ChannelOptionalIds(data: Value)
    requires data.VDict? && ReadChannel(data).Ok?
    ensures var c := ReadChannel(data).value;
      && c.guildId == ToOption(ToInt(Get1(data, "guild_id").value))
      && ("guild_id" !in PyDict.Keys(data.entries) ==> c.guildId.None?)
      && c.lastMessageId == ToOption(ToInt(Get1(data, "last_message_id").value))
      && c.ownerId == ToOption(ToInt(Get1(data, "owner_id").value))
      && c.applicationId == ToOption(ToInt(Get1(data, "application_id").value))
      && c.parentId == ToOption(ToInt(Get1(data, "parent_id").value))
  {
  }

  /** The recipients are the users read from the entries, in order. */
  lemma ChannelRecipients(data: Value, entries: seq<Value>)
    requires ReadChannel(data).Ok?
    requires Get(data, "recipients", VList([])) == Ok(VList(entries))
    ensures var us := ReadChannel(data).value.recipients;
      |us| == |entries| && forall i :: 0 <= i < |entries| ==> Users.ReadUser(entries[i], VNone) == Ok(us[i])
  {
  }

  /** `channel.send(...)`: a message in this channel, addressed by the id as given. */
  function ChannelSend(c: ChannelData, content: Value, tts: Value,
                       embeds: Option<seq<Embeds.EmbedState>>, embed: Option<Embeds.EmbedState>,
                       file: Option<Files.File>, files: Option<seq<Files.File>>,
                       allowedMentions: Value, client: bool): (r: Result<Http.Call>)
    ensures !client ==> r == Err(NO_CLIENT)
    ensures r.Ok? <==> client && !(embeds.Some? && embed.Some?) && !(files.Some? && file.Some?)
    ensures r.Ok? ==> r.value.verb == "POST" && r.value.url == "/channels/" + Str(c.id) + "/messages"
  {
    MessageBase.CreateMessage(c.id, content, tts, embeds, embed, file, files, allowedMentions, client)
  }

  // ---------------------------------------------------------------------------
  // `ChannelMention`

  /** The keys the class decorator does not copy onto the instance. */
  const MENTION_IGNORED: seq<string> := ["id", "guild_id", "type"]

  /** A channel mention: the dict it wraps, and the attributes the decorator set
      from it. */
  datatype ChannelMention = ChannelMention(data: Value, copied: seq<(string, Value)>)

  /** The entries the decorator copies: every key but the ignored ones, in order. */
  function Copied(entries: seq<(string, Value)>): (r: seq<(string, Value)>)
    ensures forall e :: e in r <==> e in entries && e.0 !in MENTION_IGNORED
    decreases |entries|
  {
    if entries == [] then []
    else
      var last := entries[|entries| - 1];
      var prev := Copied(entries[..|entries| - 1]);
      assert forall e :: e in entries <==> e in entries[..|entries| - 1] || e == last;
      if last.0 in MENTION_IGNORED then prev else prev + [last]
  }

  /** Copying keeps the order: the copy of two runs of entries is the copy of the
      first followed by the copy of the second. */
  lemma {:induction false} CopiedAppend(a: seq<(string, Value)>, b: seq<(string, Value)>)
    ensures Copied(a + b) == Copied(a) + Copied(b)
    decreases |b|
  {
    if b == [] {
      assert a + b == a;
    } else {
      var init := b[..|b| - 1];
      assert (a + b)[..|a + b| - 1] == a + init;
      assert (a + b)[|a + b| - 1] == b[|b| - 1];
      CopiedAppend(a, init);
    }
  }

  /** One entry is copied alone exactly when its key is not ignored. */
  lemma CopiedSingle(e: (string, Value))
    ensures Copied([e]) == if e.0 in MENTION_IGNORED then [] else [e]
  {
    assert [e][..0] == [];
  }

  /** The decorator's `setattr` loop over a keyword dict: every key but the
      ignored ones is set on the instance. `channel_id` is a property without a
      setter, so a dict carrying it raises AttributeError; a `data` key replaces
      the dict the accessors read. */
  function Decorated(d: Value): (r: Result<ChannelMention>)
    requires d.VDict?
    ensures r.Err? <==> "channel_id" in PyDict.Keys(d.entries)
    ensures r.Err? ==> r.error.kind == AttributeError
    ensures r.Ok? ==> r.value.copied == Copied(d.entries)
    ensures r.Ok? && "data" !in PyDict.Keys(d.entries) ==> r.value.data == d
    ensures r.Ok? && "data" in PyDict.Keys(d.entries) ==> Some(r.value.data) == PyDict.Lookup(d.entries, "data")
  {
    if "channel_id" in PyDict.Keys(d.entries) then Fail(AttributeError)   // can't set attribute
    else
      var data := match PyDict.Lookup(d.entries, "data") case Some(v) => v case None => d;
      Ok(ChannelMention(data, Copied(d.entries)))
  }

  /** `ChannelMention(...)` as written: the decorator builds the instance, then
      takes the dict from the keyword argument `data` only, so a positional call
      looks up `.items()` on None. `positional` and `keyword` are the argument
      given each way, if any. */
  function NewChannelMention(positional: Option<Value>, keyword: Option<Value>): (r: Result<ChannelMention>)
    ensures positional.Some? && keyword.None? ==> r.Err? && r.error.kind == AttributeError
    ensures positional.Some? == keyword.Some? ==> r == Fail(TypeError)
    ensures positional.None? && keyword.Some? && keyword.value.VDict? ==> r == Decorated(keyword.value)
  {
    if positional.Some? == keyword.Some? then Fail(TypeError)      // `__init__` takes exactly one `data`
    else if keyword.None? then Fail(AttributeError)               // `None.items()`
    else if !keyword.value.VDict? then Fail(AttributeError)
    else Decorated(keyword.value)
  }

  /** `ChannelMention(data)` with the dict taken from whichever argument carries
      it; the `setattr` collisions stay as written. */
  function NewChannelMentionIntended(positional: Option<Value>, keyword: Option<Value>): (r: Result<ChannelMention>)
    ensures r.Ok? <==> (positional.Some? != keyword.Some? &&
                        var d := if positional.Some? then positional.value else keyword.value;
                        d.VDict? && "channel_id" !in PyDict.Keys(d.entries))
    ensures positional.Some? != keyword.Some? ==>
              var d := if positional.Some? then positional.value else keyword.value;
              d.VDict? ==> r == Decorated(d)
  {
    if positional.Some? == keyword.Some? then Fail(TypeError)
    else
      var d := if positional.Some? then positional.value else keyword.value;
      if !d.VDict? then Fail(AttributeError) else Decorated(d)
  }

  /** As written, no positional call succeeds, so a message with any channel
      mention cannot be read; the corrected constructor accepts both call forms
      alike and copies every key but `id`, `guild_id` and `type`. */
  lemma PositionalMentionFails(d: Value)
    ensures NewChannelMention(Some(d), None).Err?
    ensures NewChannelMentionIntended(Some(d), None) == NewChannelMentionIntended(None, Some(d))
    ensures d.VDict? ==> NewChannelMention(None, Some(d)) == NewChannelMentionIntended(Some(d), None)
    ensures d.VDict? && "channel_id" !in PyDict.Keys(d.entries) && "data" !in PyDict.Keys(d.entries) ==>
      var m := NewChannelMentionIntended(Some(d), None);
      && m.Ok? && m.value.data == d
      && forall e :: e in m.value.copied <==> e in d.entries && e.0 != "id" && e.0 != "guild_id" && e.0 != "type"
  {
  }

  /** A dict with a `channel_id` key cannot be wrapped: `setattr` on the
      read-only property raises AttributeError, under either constructor. */
  lemma ChannelIdKeyRaises(d: Value)
    requires d.VDict? && "channel_id" in PyDict.Keys(d.entries)
    ensures NewChannelMention(None, Some(d)) == Fail(AttributeError)
    ensures NewChannelMentionIntended(Some(d), None) == Fail(AttributeError)
  {
  }

  /** A `data` key replaces the wrapped dict: `ChannelMention(data={"id": 1,
      "data": {"id": 2}})` has channel id 2. */
  lemma DataKeyReplacesDict(outer: int, inner: int)
    ensures var d := VDict([("id", VInt(outer)), ("data", VDict([("id", VInt(inner))]))]);
      var m := NewChannelMention(None, Some(d));
      m.Ok? && m.value.data == VDict([("id", VInt(inner))]) && MentionChannelId(m.value) == Ok(inner)
  {
    var innerEntries := [("id", VInt(inner))];
    var entries := [("id", VInt(outer)), ("data", VDict(innerEntries))];
    assert PyDict.Keys(entries) == ["id", "data"];
    PyDict.LookupAt(entries, 1);
    PyDict.LookupAt(innerEntries, 0);
  }

  /** `mention.channel_id`: `int(data.get("id"))`; an absent id is `int(None)`. */
  function MentionChannelId(m: ChannelMention): (r: Result<int>)
    ensures m.data.VDict? && "id" !in PyDict.Keys(m.data.entries) ==> r.Err? && r.error.kind == TypeError
  {
    IntAt(m, "id")
  }

  /** `mention.guild_id` */
  function MentionGuildId(m: ChannelMention): (r: Result<int>)
    ensures m.data.VDict? && "guild_id" !in PyDict.Keys(m.data.entries) ==> r.Err? && r.error.kind == TypeError
  {
    IntAt(m, "guild_id")
  }

  /** `int(data.get(key))` */
  function IntAt(m: ChannelMention, key: string): Result<int>
  {
    var v :- Get1(m.data, key);
    ToInt(v)
  }

  /** `mention.type`: the value converted with `int`, then looked up. */
  function MentionType(m: ChannelMention): (r: Result<ChannelType>)
    ensures r.Ok? ==> Get1(m.data, "type").Ok? && ToInt(Get1(m.data, "type").value) == Ok(ChannelTypeValue(r.value))
    ensures m.data.VDict? && "type" !in PyDict.Keys(m.data.entries) ==> r.Err? && r.error.kind == TypeError
  {
    var v :- Get1(m.data, "type");
    var t :- ToInt(v);
    ChannelTypeOf(VInt(t))
  }

  /** Because of the `int` conversion a numeral string names a type too, and the
      accessors read back the ids a mention was built from. */
  lemma MentionAccessors(id: int, guildId: int, t: ChannelType)
    ensures var d := VDict([("id", VInt(id)), ("guild_id", VInt(guildId)),
                            ("type", VStr(Str(VInt(ChannelTypeValue(t)))))]);
      var m := NewChannelMentionIntended(Some(d), None);
      && m.Ok?
      && MentionChannelId(m.value) == Ok(id)
      && MentionGuildId(m.value) == Ok(guildId)
      && MentionType(m.value) == Ok(t)
  {
    var typeValue := VStr(Str(VInt(ChannelTypeValue(t))));
    var entries := [("id", VInt(id)), ("guild_id", VInt(guildId)), ("type", typeValue)];
    var d := VDict(entries);
    assert PyDict.Keys(entries) == ["id", "guild_id", "type"];
    assert NewChannelMentionIntended(Some(d), None) == Ok(ChannelMention(d, Copied(entries)));
    PyDict.LookupAt(entries, 0);
    PyDict.LookupAt(entries, 1);
    PyDict.LookupAt(entries, 2);
    assert Get1(d, "type") == Ok(typeValue);
    ToIntOfStr(ChannelTypeValue(t));
    ChannelTypeRoundTrip(t);
  }
}
