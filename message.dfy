/** Messages (bhaicord/models/message.py): the message types, the fields a
    `Message` reads from API data with their conversions, and the requests its
    methods issue on behalf of the instance. */
module Messages {
  import opened Wrappers
  import opened PyValues
  import opened PyStrings
  import PyDict
  import PyLists
  import Users
  import Channels
  import Files
  import Embeds
  import Http
  import MessageBase

  /** `MessageTypes`: 0 to 12 and 14 to 23; there is no member 13. */
  predicate IsMessageType(t: int)
  {
    0 <= t <= 23 && t != 13
  }

  /** `MessageTypes(v)`: the member value, or ValueError. */
  function MessageTypeOf(v: Value): (r: Result<int>)
    ensures r.Ok? <==> EnumKey(v).Some? && IsMessageType(EnumKey(v).value)
    ensures r.Ok? ==> r.value == EnumKey(v).value
    ensures r.Err? ==> r.error.kind == ValueError
  {
    match EnumKey(v)
    case Some(t) => if IsMessageType(t) then Ok(t) else Fail(ValueError)
    case None => Fail(ValueError)
  }

  /** The modelled attributes of a `Message`. */
  datatype MessageData = MessageData(
    id: int, channelId: int, guildId: Option<int>, author: Users.UserData, content: Value,
    tts: Value, mentionEveryone: Value, mentions: seq<Users.UserData>, mentionRoles: seq<int>,
    mentionChannels: seq<Channels.ChannelMention>, attachments: seq<Files.Attachment>, nonce: Value, pinned: Value, webhookId: Value, kind: int)

  /** `self.guild_id`: None, or the value converted with `int`. */
  function GuildId(v: Value): (r: Result<Option<int>>)
    ensures v.VNone? ==> r == Ok(None)
    ensures !v.VNone? ==> (r.Ok? <==> ToInt(v).Ok?) && (r.Ok? ==> r.value == Some(ToInt(v).value))
  {
    if v.VNone? then Ok(None)
    else
      var g :- ToInt(v);
      Ok(Some(g))
  }

  /** The fields the constructor reads first: ids, author, content, timestamp
      key, tts and mention_everyone. */
  datatype Header = Header(id: int, channelId: int, guildId: Option<int>, author: Users.UserData,
                           content: Value, tts: Value, mentionEveryone: Value)

  function ReadHeader(data: Value): (r: Result<Header>)
    ensures r.Ok? ==>
      && data.VDict?
      && Index(data, "id").Ok? && ToInt(Index(data, "id").value) == Ok(r.value.id)
      && Index(data, "channel_id").Ok? && ToInt(Index(data, "channel_id").value) == Ok(r.value.channelId)
      && GuildId(Get1(data, "guild_id").value) == Ok(r.value.guildId)
      && Index(data, "author").Ok?
      && Users.ReadUser(Index(data, "author").value, Get1(data, "member").value) == Ok(r.value.author)
      && Index(data, "content") == Ok(r.value.content) && Index(data, "timestamp").Ok?
      && Index(data, "tts") == Ok(r.value.tts) && Index(data, "mention_everyone") == Ok(r.value.mentionEveryone)
    ensures !data.VDict? ==> r.Err?
  {
    var idValue :- Index(data, "id");
    var id :- ToInt(idValue);
    var channelValue :- Index(data, "channel_id");
    var channelId :- ToInt(channelValue);
    var guildValue := Get1(data, "guild_id").value;
    var guildId :- GuildId(guildValue);
    var authorData :- Index(data, "author");
    var memberData := Get1(data, "member").value;
    var author :- Users.ReadUser(authorData, memberData);
    var content :- Index(data, "content");
    var _ :- Index(data, "timestamp");
    var tts :- Index(data, "tts");
    var mentionEveryone :- Index(data, "mention_everyone");
    Ok(Header(id, channelId, guildId, author, content, tts, mentionEveryone))
  }

  /** The lists: mentioned users, mentioned role ids (each converted with `int`),
      channel mentions (each built by a positional call) and attachments, each
      built element by element in order. */
  function ReadLists(data: Value)
    : (r: Result<(seq<Users.UserData>, seq<int>, seq<Channels.ChannelMention>, seq<Files.Attachment>)>)
    ensures Index(data, "mention_roles").Ok? && Index(data, "mention_roles").value.VList? ==>
      var ids := Index(data, "mention_roles").value.items;
      && ((exists i :: 0 <= i < |ids| && ToInt(ids[i]).Err?) ==> r.Err?)
      && (r.Ok? ==> |r.value.1| == |ids| && forall i :: 0 <= i < |ids| ==> ToInt(ids[i]) == Ok(r.value.1[i]))
  {
    var mentionData :- Get(data, "mentions", VList([]));
    var mentionItems :- Iterated(mentionData);
    var mentions :- PyLists.MapAll(mentionItems, v => Users.ReadUser(v, VNone));
    var roleData :- Index(data, "mention_roles");
    var roleItems :- Iterated(roleData);
    var mentionRoles :- PyLists.MapAll(roleItems, ToInt);
    var channelData := Get(data, "mention_channels", VList([])).value;
    var channelItems :- Iterated(channelData);
    var mentionChannels :- PyLists.MapAll(channelItems, MentionedChannel);
    var attachmentData := Get(data, "attachments", VList([])).value;
    var attachmentItems :- Iterated(attachmentData);
    var attachments :- PyLists.MapAll(attachmentItems, Files.NewAttachment);
    Ok((mentions, mentionRoles, mentionChannels, attachments))
  }

  /** `ChannelMention(item)`: the positional call the constructor makes. */
  function MentionedChannel(item: Value): Result<Channels.ChannelMention>
  {
    Channels.NewChannelMention(Some(item), None)
  }

  /** The fields read last: nonce, pinned, webhook_id, and the type, which must be
      a `MessageTypes` value. */
  function ReadTail(data: Value): (r: Result<(Value, Value, Value, int)>)
    ensures r.Ok? ==> Index(data, "type").Ok? && MessageTypeOf(Index(data, "type").value) == Ok(r.value.3)
    ensures Index(data, "type").Ok? && MessageTypeOf(Index(data, "type").value).Err? ==> r.Err?
  {
    var nonce :- Get1(data, "nonce");
    var pinned := Get1(data, "pinned").value;
    var webhookId := Get1(data, "webhook_id").value;
    var kindValue :- Index(data, "type");
    var kind :- MessageTypeOf(kindValue);
    Ok((nonce, pinned, webhookId, kind))
  }

  /** `Message(data)`, in the order the constructor reads its fields; the
      timestamps, member, embeds, reactions, activity,
      application, reference, interaction and stickers are not part of this
      model. */
  function ReadMessage(data: Value): (r: Result<MessageData>)
    ensures !data.VDict? ==> r.Err?
    ensures r.Ok? ==>
      && Index(data, "id").Ok? && ToInt(Index(data, "id").value) == Ok(r.value.id)
      && Index(data, "channel_id").Ok? && ToInt(Index(data, "channel_id").value) == Ok(r.value.channelId)
      && GuildId(Get1(data, "guild_id").value) == Ok(r.value.guildId)
      && Index(data, "author").Ok?
      && Users.ReadUser(Index(data, "author").value, Get1(data, "member").value) == Ok(r.value.author)
      && Index(data, "content") == Ok(r.value.content) && Index(data, "timestamp").Ok?
      && Index(data, "tts") == Ok(r.value.tts) && Index(data, "mention_everyone") == Ok(r.value.mentionEveryone)
      && Index(data, "type").Ok? && MessageTypeOf(Index(data, "type").value) == Ok(r.value.kind)
      && Get1(data, "pinned").value == r.value.pinned && Get1(data, "webhook_id").value == r.value.webhookId
  {
    var h :- ReadHeader(data);
    var l :- ReadLists(data);
    var t :- ReadTail(data);
    Ok(MessageData(h.id, h.channelId, h.guildId, h.author, h.content, h.tts, h.mentionEveryone,
                   l.0, l.1, l.2, l.3, t.0, t.1, t.2, t.3))
  }

  /** A message of type 13 cannot be read, whatever its other fields, and every
      message read has a `MessageTypes` type. */
  lemma MessageTypeChecked(data: Value)
    ensures Index(data, "type") == Ok(VInt(13)) ==> ReadMessage(data).Err?
    ensures ReadMessage(data).Ok? ==> IsMessageType(ReadMessage(data).value.kind)
  {
    if Index(data, "type") == Ok(VInt(13)) {
      assert MessageTypeOf(VInt(13)).Err?;
      assert ReadTail(data).Err?;
    }
    if ReadMessage(data).Ok? {
      var t := ReadTail(data);
      assert t.Ok? && ReadMessage(data).value.kind == t.value.3;
      assert MessageTypeOf(Index(data, "type").value) == Ok(t.value.3);
    }
  }

  /** A mentioned role id that is not an int or a numeral makes the whole message
      unreadable; otherwise the role ids are the given ones converted, in order. */
  lemma MentionRolesConverted(data: Value, ids: seq<Value>)
    requires Index(data, "mention_roles") == Ok(VList(ids))
    ensures (exists i :: 0 <= i < |ids| && ToInt(ids[i]).Err?) ==> ReadMessage(data).Err?
    ensures ReadMessage(data).Ok? ==>
      var roles := ReadMessage(data).value.mentionRoles;
      |roles| == |ids| && forall i :: 0 <= i < |ids| ==> ToInt(ids[i]) == Ok(roles[i])
  {
    var lists := ReadLists(data);
    if exists i :: 0 <= i < |ids| && ToInt(ids[i]).Err? {
      assert lists.Err?;
    }
    if ReadMessage(data).Ok? {
      assert lists.Ok? && ReadMessage(data).value.mentionRoles == lists.value.1;
    }
  }

  /** The channel mentions are built by a positional call, which always raises:
      a message that mentions any channel cannot be read. */
  lemma ChannelMentionsBreakMessages(data: Value, mentioned: seq<Value>)
    requires Get(data, "mention_channels", VList([])) == Ok(VList(mentioned))
    requires mentioned != []
    ensures ReadMessage(data).Err?
  {
    Channels.PositionalMentionFails(mentioned[0]);
    assert MentionedChannel(mentioned[0]).Err?;
    assert PyLists.MapAll(mentioned, MentionedChannel).Err?;
    ChannelListBreaksLists(data, mentioned);
  }

  /** Once one channel mention cannot be built, the lists cannot be read. */
  lemma ChannelListBreaksLists(data: Value, mentioned: seq<Value>)
    requires Get(data, "mention_channels", VList([])) == Ok(VList(mentioned))
    requires PyLists.MapAll(mentioned, MentionedChannel).Err?
    ensures ReadLists(data).Err?
  {
    assert Iterated(VList(mentioned)) == Ok(mentioned);
  }

  /** The ids: `id` and `channel_id` are converted with `int`; a present
      `guild_id` is converted too, while an absent or null one stays None; the
      author is a user read with the message's member data. */
  lemma MessageIds(data: Value)
    requires ReadMessage(data).Ok?
    ensures var m := ReadMessage(data).value;
      && ToInt(Index(data, "id").value) == Ok(m.id)
      && ToInt(Index(data, "channel_id").value) == Ok(m.channelId)
      && (Get1(data, "guild_id") == Ok(VNone) ==> m.guildId.None?)
      && ("guild_id" !in PyDict.Keys(data.entries) ==> m.guildId.None?)
      && ((Get1(data, "guild_id").Ok? && !Get1(data, "guild_id").value.VNone?) ==>
            m.guildId == Some(ToInt(Get1(data, "guild_id").value).value))
      && Users.ReadUser(Index(data, "author").value, Get1(data, "member").value) == Ok(m.author)
  {
  }

  // ---------------------------------------------------------------------------
  // Requests made on behalf of a message

  /** `x if x is not None else default`: the argument replaces the instance's
      value unless it is None. */
  function UnlessNone(arg: Value, default: Value): Value
  {
    if arg.VNone? then default else arg
  }

  /** `x or default`: a falsy argument (0, "" or None) gives the default. */
  function OrElse(arg: Value, default: Value): Value
  {
    if Truthy(arg) then arg else default
  }

  function GuildValue(g: Option<int>): Value
  {
    if g.Some? then VInt(g.value) else VNone
  }

  /** `message.send(...)`: a new message in the given channel, or this one's. */
  function Send(m: MessageData, channelId: Value, content: Value, tts: Value,
                embeds: Option<seq<Embeds.EmbedState>>, embed: Option<Embeds.EmbedState>,
                file: Option<Files.File>, files: Option<seq<Files.File>>, allowedMentions: Value,
                client: bool): (r: Result<Http.Call>)
    ensures r.Err? <==> !client || (embeds.Some? && embed.Some?) || (files.Some? && file.Some?)
    ensures r.Ok? ==> r.value.verb == "POST"
    ensures r.Ok? ==> r.value.url == "/channels/" + Str(if Truthy(channelId) then channelId else VInt(m.channelId)) + "/messages"
  {
    MessageBase.CreateMessage(OrElse(channelId, VInt(m.channelId)), content, tts, embeds, embed, file, files,
                              allowedMentions, client)
  }

  /** `message.delete()` without a delay. */
  function Delete(m: MessageData, client: bool): (r: Result<Http.Call>)
    ensures r.Ok? <==> client
    ensures r.Ok? ==> r.value.verb == "DELETE" && r.value.payload.VNone?
  {
    MessageBase.DeleteMessage(VInt(m.channelId), VInt(m.id), client)
  }

  /** `message.edit(...)` */
  function Edit(m: MessageData, channelId: Value, messageId: Value, content: Value,
                embed: Option<Embeds.EmbedState>, embeds: Option<seq<Embeds.EmbedState>>,
                allowedMentions: Value, client: bool): (r: Result<Http.Call>)
    ensures r.Err? <==> !client || (embed.Some? && embeds.Some?)
    ensures r.Ok? ==> r.value.verb == "PATCH" && r.value.files.None?
  {
    MessageBase.EditMessage(UnlessNone(channelId, VInt(m.channelId)), UnlessNone(messageId, VInt(m.id)),
                            content, embed, embeds, allowedMentions, client)
  }

  /** The pin endpoint of a message. */
  function PinsUrl(channelId: Value, messageId: Value): string
  {
    "/channels/" + Str(channelId) + "/pins/" + Str(messageId)
  }

  /** `pin` (PUT) and `unpin` (DELETE): ClientNotFound without a current client. */
  function PinCall(verb: string, m: MessageData, channelId: Value, messageId: Value, client: bool): Result<Http.Call>
  {
    if !client then Err(NO_CLIENT)
    else Ok(Http.Call(verb, PinsUrl(UnlessNone(channelId, VInt(m.channelId)), UnlessNone(messageId, VInt(m.id))),
                      VNone, None))
  }

  function Pin(m: MessageData, channelId: Value, messageId: Value, client: bool): (r: Result<Http.Call>)
    ensures r.Ok? <==> client
    ensures r.Err? ==> r.error == NO_CLIENT
    ensures r.Ok? ==> r.value.verb == "PUT" && r.value.payload.VNone? && r.value.files.None?
  {
    PinCall("PUT", m, channelId, messageId, client)
  }

  function Unpin(m: MessageData, channelId: Value, messageId: Value, client: bool): (r: Result<Http.Call>)
    ensures r.Ok? <==> client
    ensures r.Err? ==> r.error == NO_CLIENT
    ensures r.Ok? ==> r.value.verb == "DELETE" && r.value.payload.VNone? && r.value.files.None?
    ensures r.Ok? ==> r.value.url == Pin(m, channelId, messageId, client).value.url
  {
    PinCall("DELETE", m, channelId, messageId, client)
  }

  /** `crosspost(...)`: `get_client()` raises ClientNotFound without a current
      client. */
  function Crosspost(m: MessageData, channelId: Value, messageId: Value, client: bool): (r: Result<Http.Call>)
    ensures r.Ok? <==> client
    ensures r.Err? ==> r.error == NO_CLIENT
    ensures r.Ok? ==> r.value.verb == "POST" && r.value.payload.VNone? && r.value.files.None?
  {
    if !client then Err(NO_CLIENT)
    else Ok(Http.Call("POST", "/channels/" + Str(OrElse(channelId, VInt(m.channelId))) + "/messages/"
                              + Str(OrElse(messageId, VInt(m.id))) + "/crosspost", VNone, None))
  }

  /** `edit`, `pin` and `unpin` take the instance's ids only in place of None, so
      an explicit 0 is kept, while `send` and `crosspost` replace every falsy id. */
  lemma ExplicitZeroIds(m: MessageData)
    requires m.channelId != 0 && m.id != 0
    ensures Pin(m, VInt(0), VInt(0), true) == Ok(Http.Call("PUT", "/channels/0/pins/0", VNone, None))
    ensures Unpin(m, VNone, VNone, true)
         == Ok(Http.Call("DELETE", "/channels/" + IntToString(m.channelId) + "/pins/" + IntToString(m.id), VNone, None))
    ensures Crosspost(m, VInt(0), VInt(0), true)
         == Crosspost(m, VNone, VNone, true)
    ensures var e := Edit(m, VInt(0), VInt(0), VNone, None, None, VNone, true);
      e.Ok? && e.value.url == "channels/0/messages/0"
  {
    PinZeroIds(m);
    UnpinNoIds(m);
    EditZeroIds(m);
    CrosspostFalsyIds(m);
  }

  /** `pin` keeps the explicit ids 0. */
  lemma PinZeroIds(m: MessageData)
    ensures Pin(m, VInt(0), VInt(0), true) == Ok(Http.Call("PUT", "/channels/0/pins/0", VNone, None))
  {
    PinsUrlOfZero();
  }

  /** `unpin` without ids uses the message's own. */
  lemma UnpinNoIds(m: MessageData)
    ensures Unpin(m, VNone, VNone, true)
         == Ok(Http.Call("DELETE", "/channels/" + IntToString(m.channelId) + "/pins/" + IntToString(m.id), VNone, None))
  {
  }

  /** `edit` keeps the explicit ids 0. */
  lemma EditZeroIds(m: MessageData)
    ensures var e := Edit(m, VInt(0), VInt(0), VNone, None, None, VNone, true);
      e.Ok? && e.value.url == "channels/0/messages/0"
  {
    ZeroIdText();
    MessageBase.EditMessageArguments(VInt(0), VInt(0), VNone, None, None, VNone, true);
  }

  /** The text of the id 0. */
  lemma ZeroIdText()
    ensures Str(VInt(0)) == "0"
  {
    assert NatToString(0) == "0";
  }

  /** The pin endpoint of the ids 0 and 0. */
  lemma PinsUrlOfZero()
    ensures PinsUrl(VInt(0), VInt(0)) == "/channels/0/pins/0"
  {
    ZeroIdText();
  }

  /** `crosspost` treats the ids 0 like missing ones. */
  lemma CrosspostFalsyIds(m: MessageData)
    ensures Crosspost(m, VInt(0), VInt(0), true) == Crosspost(m, VNone, VNone, true)
  {
    assert !Truthy(VInt(0)) && !Truthy(VNone);
  }

  /** `send` posts to the given channel, or to the message's own when the channel
      argument is falsy, and raises as `create_message` does; `delete` removes
      this message from its channel; all three raise ClientNotFound without a
      current client, and `crosspost` otherwise posts to the crosspost endpoint
      of the chosen ids. */
  lemma InstanceRequests(m: MessageData, channelId: Value, messageId: Value, content: Value, tts: Value,
                         embeds: Option<seq<Embeds.EmbedState>>, embed: Option<Embeds.EmbedState>,
                         file: Option<Files.File>, files: Option<seq<Files.File>>, allowedMentions: Value,
                         client: bool)
    ensures var r := Send(m, channelId, content, tts, embeds, embed, file, files, allowedMentions, client);
      && (!client ==> r == Err(NO_CLIENT))
      && (r.Err? <==> !client || (embeds.Some? && embed.Some?) || (files.Some? && file.Some?))
      && (!Truthy(channelId) ==> r == Send(m, VInt(m.channelId), content, tts, embeds, embed, file, files, allowedMentions, client))
      && (r.Ok? ==> r.value.verb == "POST"
                    && r.value.url == "/channels/" + Str(if Truthy(channelId) then channelId else VInt(m.channelId)) + "/messages")
    ensures Delete(m, client)
         == if client then Ok(Http.Call("DELETE", "channels/" + IntToString(m.channelId) + "/messages/" + IntToString(m.id), VNone, None))
            else Err(NO_CLIENT)
    ensures var c := Crosspost(m, channelId, messageId, client);
      && (c.Ok? <==> client)
      && (c.Err? ==> c.error == NO_CLIENT)
      && (c.Ok? ==> c.value.verb == "POST"
                    && c.value.url == "/channels/" + Str(OrElse(channelId, VInt(m.channelId))) + "/messages/"
                                      + Str(OrElse(messageId, VInt(m.id))) + "/crosspost")
  {
    SendRequest(m, channelId, content, tts, embeds, embed, file, files, allowedMentions, client);
    DeleteRequest(m, client);
    CrosspostRequest(m, channelId, messageId, client);
  }

  lemma SendRequest(m: MessageData, channelId: Value, content: Value, tts: Value,
                    embeds: Option<seq<Embeds.EmbedState>>, embed: Option<Embeds.EmbedState>,
                    file: Option<Files.File>, files: Option<seq<Files.File>>, allowedMentions: Value,
                    client: bool)
    ensures var r := Send(m, channelId, content, tts, embeds, embed, file, files, allowedMentions, client);
      && (!client ==> r == Err(NO_CLIENT))
      && (r.Err? <==> !client || (embeds.Some? && embed.Some?) || (files.Some? && file.Some?))
      && (!Truthy(channelId) ==> r == Send(m, VInt(m.channelId), content, tts, embeds, embed, file, files, allowedMentions, client))
      && (r.Ok? ==> r.value.verb == "POST"
                    && r.value.url == "/channels/" + Str(if Truthy(channelId) then channelId else VInt(m.channelId)) + "/messages")
  {
    MessageBase.CreateMessageArguments(OrElse(channelId, VInt(m.channelId)), content, tts, embeds, embed, file, files, allowedMentions, client);
  }

  lemma DeleteRequest(m: MessageData, client: bool)
    ensures Delete(m, client)
         == if client then Ok(Http.Call("DELETE", "channels/" + IntToString(m.channelId) + "/messages/" + IntToString(m.id), VNone, None))
            else Err(NO_CLIENT)
  {
  }

  lemma CrosspostRequest(m: MessageData, channelId: Value, messageId: Value, client: bool)
    ensures var c := Crosspost(m, channelId, messageId, client);
      && (c.Ok? <==> client)
      && (c.Err? ==> c.error == NO_CLIENT)
      && (c.Ok? ==> c.value.verb == "POST")
      && (c.Ok? ==> c.value.url == "/channels/" + Str(OrElse(channelId, VInt(m.channelId))) + "/messages/"
                                   + Str(OrElse(messageId, VInt(m.id))) + "/crosspost")
  {
  }

  /** `list(set(ids))`: each id once. The iteration order of a Python set is not
      modelled; this gives the ids in order of first occurrence. */
  function DistinctIds(ids: seq<int>): (r: seq<int>)
    ensures forall i, j :: 0 <= i < j < |r| ==> r[i] != r[j]
    ensures forall x :: x in r <==> x in ids
    ensures |r| <= |ids|
    decreases |ids|
  {
    if ids == [] then []
    else
      var prev := DistinctIds(ids[..|ids| - 1]);
      assert forall x :: x in ids <==> x in ids[..|ids| - 1] || x == ids[|ids| - 1];
      if ids[|ids| - 1] in prev then prev else prev + [ids[|ids| - 1]]
  }

  /** `bulk_delete(message_ids, channel_id, guild_id)`: nothing for no ids;
      otherwise one POST of the distinct ids, with falsy ids replaced by the
      instance's. */
  function BulkDelete(m: MessageData, messageIds: seq<int>, channelId: Value, guildId: Value, client: bool): (r: Result<Option<Http.Call>>)
    ensures r.Err? <==> messageIds != [] && !client
    ensures r.Ok? ==> (r.value.Some? <==> messageIds != [])
    ensures r.Ok? && r.value.Some? ==> r.value.value.verb == "POST" && r.value.value.payload.VDict?
  {
    if messageIds == [] then Ok(None)
    else if !client then Err(NO_CLIENT)
    else
      var ids := DistinctIds(messageIds);
      Ok(Some(Http.Call("POST", "/channels/" + Str(OrElse(channelId, VInt(m.channelId))) + "/messages/bulk-delete",
                        VDict([("guild_id", OrElse(guildId, GuildValue(m.guildId))),
                               ("messages", VList(seq(|ids|, i requires 0 <= i < |ids| => VInt(ids[i]))))]),
                        None)))
  }

  /** An empty id list sends nothing, even without a client; otherwise the call
      raises ClientNotFound without a current client, and with one each requested
      id is in the body exactly once, nothing else is, and the channel and guild
      fall back to the instance's when the arguments are falsy. */
  lemma BulkDeleteSendsEachIdOnce(m: MessageData, messageIds: seq<int>, channelId: Value, guildId: Value, client: bool)
    ensures var r := BulkDelete(m, messageIds, channelId, guildId, client);
      && (messageIds == [] ==> r == Ok(None))
      && (messageIds != [] ==> (r.Ok? <==> client))
      && (messageIds != [] && !client ==> r == Err(NO_CLIENT))
      && (r.Ok? && r.value.Some? ==>
            var call := r.value.value;
            && call.verb == "POST"
            && call.url == "/channels/" + Str(if Truthy(channelId) then channelId else VInt(m.channelId)) + "/messages/bulk-delete"
            && Index(call.payload, "guild_id") == Ok(if Truthy(guildId) then guildId else GuildValue(m.guildId))
            && Index(call.payload, "messages").Ok?
            && var sent := Index(call.payload, "messages").value;
               && sent.VList?
               && (forall i, j :: 0 <= i < j < |sent.items| ==> sent.items[i] != sent.items[j])
               && (forall x :: VInt(x) in sent.items <==> x in messageIds)
               && (forall v :: v in sent.items ==> v.VInt?))
  {
    var r := BulkDelete(m, messageIds, channelId, guildId, client);
    if r.Ok? && r.value.Some? {
      var ids := DistinctIds(messageIds);
      var d := r.value.value.payload.entries;
      PyDict.LookupAt(d, 0);
      PyDict.LookupAt(d, 1);
      var items := seq(|ids|, i requires 0 <= i < |ids| => VInt(ids[i]));
      forall x ensures VInt(x) in items <==> x in messageIds {
        if x in ids {
          var k :| 0 <= k < |ids| && ids[k] == x;
          assert items[k] == VInt(x);
        }
      }
    }
  }
}
