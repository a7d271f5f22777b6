/** Emojis and reactions (bhaicord/models/emoji.py): an emoji read from API
    data, its text form and CDN URL, and a reaction with its defaults. */
module Emojis {
  import opened Wrappers
  import opened PyValues
  import opened PyStrings
  import PyDict
  import PyLists
  import Users
  import Roles
  import ImageBase

  datatype EmojiData = EmojiData(
    id: Value, name: Value, roles: seq<Roles.RoleData>, user: Option<Users.UserData>,
    requireColons: Value, managed: Value, animated: Value, available: Value)

  /** `self.id`: converted with `int` when truthy, kept as it is otherwise. */
  function EmojiId(v: Value): (r: Result<Value>)
    ensures !Truthy(v) ==> r == Ok(v)
    ensures Truthy(v) ==> (r.Ok? <==> ToInt(v).Ok?) && (r.Ok? ==> r.value == VInt(ToInt(v).value))
  {
    if Truthy(v) then
      var i :- ToInt(v);
      Ok(VInt(i))
    else Ok(v)
  }

  /** `Emoji(data)`: the roles are read one by one, a user that cannot be read is
      None, `require_colons`, `managed` and `animated` default to False and
      `available` to True. */
  function ReadEmoji(data: Value): (r: Result<EmojiData>)
    ensures r.Ok? ==> data.VDict? && EmojiId(Get1(data, "id").value) == Ok(r.value.id)
    ensures r.Ok? ==> var keys := PyDict.Keys(data.entries);
      && ("require_colons" !in keys ==> r.value.requireColons == VBool(false))
      && ("managed" !in keys ==> r.value.managed == VBool(false))
      && ("animated" !in keys ==> r.value.animated == VBool(false))
      && ("available" !in keys ==> r.value.available == VBool(true))
      && ("user" !in keys ==> r.value.user.None?)
  {
    var idValue :- Get1(data, "id");
    var id :- EmojiId(idValue);
    var roleItems :- Iterated(Get(data, "roles", VList([])).value);
    var roles :- PyLists.MapAll(roleItems, Roles.ReadRole);
    Ok(EmojiData(id, Get1(data, "name").value, roles,
                 ToOption(Users.ReadUser(Get1(data, "user").value, VNone)),
                 Get(data, "require_colons", VBool(false)).value, Get(data, "managed", VBool(false)).value,
                 Get(data, "animated", VBool(false)).value, Get(data, "available", VBool(true)).value))
  }

  /** The roles are the ones read from the entries, in order; an unreadable role
      makes the emoji unreadable. */
  lemma EmojiRoles(data: Value, entries: seq<Value>)
    requires Get(data, "roles", VList([])) == Ok(VList(entries))
    ensures (exists i :: 0 <= i < |entries| && Roles.ReadRole(entries[i]).Err?) ==> ReadEmoji(data).Err?
    ensures ReadEmoji(data).Ok? ==>
      var rs := ReadEmoji(data).value.roles;
      |rs| == |entries| && forall i :: 0 <= i < |entries| ==> Roles.ReadRole(entries[i]) == Ok(rs[i])
  {
  }

  /** `str(emoji)`: `<a:name:id>` when animated, `<:name:id>` otherwise. */
  function EmojiStr(e: EmojiData): (r: string)
    ensures |r| >= 4 && r[0] == '<' && r[|r| - 1] == '>'
  {
    (if Truthy(e.animated) then "<a:" else "<:") + Str(e.name) + ":" + Str(e.id) + ">"
  }

  /** `emoji.url` */
  function EmojiUrl(e: EmojiData): (r: string)
    ensures StartsWith(r, ImageBase.CDN_URL)
  {
    ImageBase.CDN_URL + "/emojis/" + Str(e.id) + "." + (if Truthy(e.animated) then "gif" else "png")
  }

  /** The text form is marked "a" exactly when the emoji is animated, and the URL
      is a GIF exactly then; both carry the same id. */
  lemma EmojiForms(e: EmojiData)
    ensures var s := EmojiStr(e);
      && (Truthy(e.animated) <==> |s| >= 3 && s[..3] == "<a:")
      && s[|s| - 1] == '>'
      && s[|s| - 1 - |Str(e.id)|..|s| - 1] == Str(e.id)
    ensures var u := EmojiUrl(e);
      && StartsWith(u, ImageBase.CDN_URL + "/emojis/" + Str(e.id) + ".")
      && (Truthy(e.animated) <==> u[|u| - 3..] == "gif")
  {
    var s := EmojiStr(e);
    var head := if Truthy(e.animated) then "<a:" else "<:";
    assert s == head + Str(e.name) + ":" + Str(e.id) + ">";
    if !Truthy(e.animated) {
      assert s[1] == ':';
    }
    var u := EmojiUrl(e);
    var base := ImageBase.CDN_URL + "/emojis/" + Str(e.id) + ".";
    assert u == base + (if Truthy(e.animated) then "gif" else "png");
  }

  // ---------------------------------------------------------------------------
  // `Reaction`

  datatype ReactionData = ReactionData(count: Value, emoji: Option<EmojiData>, me: Value)

  /** `Reaction(data)`: `count` defaults to 1 and an emoji that cannot be read is
      None. */
  function ReadReaction(data: Value): (r: Result<ReactionData>)
    ensures r.Ok? <==> data.VDict?
    ensures r.Ok? ==> var keys := PyDict.Keys(data.entries);
      && ("count" !in keys ==> r.value.count == VInt(1))
      && ("emoji" !in keys ==> r.value.emoji.None?)
      && ("me" !in keys ==> r.value.me == VNone)
      && r.value.emoji == ToOption(ReadEmoji(Get1(data, "emoji").value))
  {
    var count :- Get(data, "count", VInt(1));
    Ok(ReactionData(count, ToOption(ReadEmoji(Get1(data, "emoji").value)), Get1(data, "me").value))
  }
}
