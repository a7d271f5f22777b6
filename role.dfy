/** Roles (bhaicord/models/role.py): a role read from API data with its
    defaults, its tags, and its icon URL. */
module Roles {
  import opened Wrappers
  import opened PyValues
  import PyDict
  import ImageBase

  // ---------------------------------------------------------------------------
  // `RoleTags`

  datatype RoleTags = RoleTags(botId: Option<int>, integrationId: Option<int>, premiumSubscriber: Value)

  /** `RoleTags(data)` as written: both ids are read from the `"id"` key, and the
      premium subscriber marker defaults to 0. */
  function ReadRoleTags(data: Value): (r: Result<RoleTags>)
    ensures r.Ok? <==> data.VDict?
  {
    var id :- Get1(data, "id");
    Ok(RoleTags(OptionalInt(id), OptionalInt(id), Get(data, "premium_subscriber", VInt(0)).value))
  }

  /** `is_premium_subscriber()`: the marker is None. */
  predicate IsPremiumSubscriber(t: RoleTags)
    ensures t.premiumSubscriber == VInt(0) ==> !IsPremiumSubscriber(t)
  {
    t.premiumSubscriber.VNone?
  }

  /** A role is a premium subscriber role exactly when its tags carry the key with
      a null value; an absent key means it is not. */
  lemma PremiumSubscriberMarker(data: Value)
    requires data.VDict?
    ensures IsPremiumSubscriber(ReadRoleTags(data).value)
        <==> PyDict.Lookup(data.entries, "premium_subscriber") == Some(VNone)
  {
  }

  /** As written the bot id and the integration id are the same number, whatever
      the tags say: with only a `bot_id` key both are None. */
  lemma TagIdsCoincide(data: Value, bot: int)
    requires data.VDict?
    ensures ReadRoleTags(data).value.botId == ReadRoleTags(data).value.integrationId
    ensures ReadRoleTags(VDict([("bot_id", VInt(bot))])).value.botId.None?
  {
  }

  /** `RoleTags(data)` reading each id from its own key. */
  function ReadRoleTagsIntended(data: Value): (r: Result<RoleTags>)
    ensures r.Ok? <==> data.VDict?
  {
    var botId :- Get1(data, "bot_id");
    var integrationId := Get1(data, "integration_id").value;
    Ok(RoleTags(OptionalInt(botId), OptionalInt(integrationId), Get(data, "premium_subscriber", VInt(0)).value))
  }

  /** The corrected reader finds the bot id of a bot's role and the integration id
      of an integration's role, and keeps the subscriber marker as before. */
  lemma TagIdsIntended(bot: int, integration: int)
    ensures ReadRoleTagsIntended(VDict([("bot_id", VInt(bot))])).value.botId == Some(bot)
    ensures ReadRoleTagsIntended(VDict([("bot_id", VInt(bot))])).value.integrationId.None?
    ensures ReadRoleTagsIntended(VDict([("integration_id", VInt(integration))])).value.integrationId == Some(integration)
    ensures ReadRoleTagsIntended(VDict([("integration_id", VInt(integration))])).value.botId.None?
    ensures forall d: Value :: d.VDict? ==>
      ReadRoleTagsIntended(d).value.premiumSubscriber == ReadRoleTags(d).value.premiumSubscriber
  {
  }

  // ---------------------------------------------------------------------------
  // `Role`

  datatype RoleData = RoleData(
    id: Value, name: Value, color: Value, colour: Value, hoist: Value, icon: Value, unicodeEmoji: Value,
    position: Value, permissions: int, managed: Value, mentionable: Value, tags: Option<RoleTags>)

  /** `Role(data)`: every attribute is optional; `permissions` goes through `int`
      (default 0), `position` defaults to 0, `managed` and `mentionable` to False,
      `colour` repeats `color`, and tags that cannot be read are None. */
  function ReadRole(data: Value): (r: Result<RoleData>)
    ensures r.Ok? <==> data.VDict? && ToInt(Get(data, "permissions", VInt(0)).value).Ok?
    ensures r.Ok? ==> var keys := PyDict.Keys(data.entries);
      && r.value.colour == r.value.color
      && ("position" !in keys ==> r.value.position == VInt(0))
      && ("permissions" !in keys ==> r.value.permissions == 0)
      && ("managed" !in keys ==> r.value.managed == VBool(false))
      && ("mentionable" !in keys ==> r.value.mentionable == VBool(false))
      && ("tags" !in keys ==> r.value.tags.None?)
      && r.value.tags == ToOption(ReadRoleTags(Get1(data, "tags").value))
    ensures r.Ok? ==>
      && ReadFrom(data, "id", VNone, r.value.id)
      && ReadFrom(data, "name", VNone, r.value.name)
      && ReadFrom(data, "color", VNone, r.value.color)
      && ReadFrom(data, "hoist", VNone, r.value.hoist)
      && ReadFrom(data, "icon", VNone, r.value.icon)
      && ReadFrom(data, "unicode_emoji", VNone, r.value.unicodeEmoji)
      && ReadFrom(data, "position", VInt(0), r.value.position)
      && ReadFrom(data, "managed", VBool(false), r.value.managed)
      && ReadFrom(data, "mentionable", VBool(false), r.value.mentionable)
      && ("permissions" in PyDict.Keys(data.entries) ==>
            r.value.permissions == ToInt(Index(data, "permissions").value).value)
  {
    var id :- Get1(data, "id");
    var permissions :- ToInt(Get(data, "permissions", VInt(0)).value);
    var color := Get1(data, "color").value;
    Ok(RoleData(id, Get1(data, "name").value, color, color, Get1(data, "hoist").value,
                Get1(data, "icon").value, Get1(data, "unicode_emoji").value,
                Get(data, "position", VInt(0)).value, permissions,
                Get(data, "managed", VBool(false)).value, Get(data, "mentionable", VBool(false)).value,
                ToOption(ReadRoleTags(Get1(data, "tags").value))))
  }

  /** `role.icon_url`: the role-icon URL of the role's id, or None without an icon. */
  function IconUrl(role: RoleData): (r: Option<string>)
    ensures r.None? <==> role.icon.VNone?
    ensures r.Some? ==> r == ImageBase.MakeRoleIcon(role.id, Some(Str(role.icon)))
  {
    ImageBase.MakeRoleIcon(role.id, if role.icon.VNone? then None else Some(Str(role.icon)))
  }

  /** A role read without an icon has no icon URL; one with an icon hash gets the
      URL under its own id. */
  lemma RoleIconUrl(data: Value, hash: string)
    requires ReadRole(data).Ok?
    ensures "icon" !in PyDict.Keys(data.entries) ==> IconUrl(ReadRole(data).value).None?
    ensures Get1(data, "icon") == Ok(VStr(hash)) ==>
      IconUrl(ReadRole(data).value)
      == Some(ImageBase.CDN_URL + "/role-icons/" + Str(Get1(data, "id").value) + "/" + hash + ".png")
  {
    ImageBase.RoleIconText(ReadRole(data).value.id, hash);
  }
}
