/** CDN image URLs (bhaicord/APIBase/image_base.py). The avatar, banner and
    default-avatar URL templates are not part of this model: a URL built from
    one of them is the template's name with the values filled into it. */
module ImageBase {
  import opened Wrappers
  import opened PyValues
  import opened PyStrings
  import Utils

  /** The CDN base URL. */
  const CDN_URL: string := "https://cdn.discordapp.com"

  const MIN_SIZE: int := 16
  const MAX_SIZE: int := 4096

  /** Which template a URL is formatted from, with its arguments in order. */
  datatype ImageUrl =
    | DefaultAvatarUrl(cdn: string, index: int)
    | AvatarUrl(cdn: string, userId: string, file: string, size: int)
    | BannerUrl(cdn: string, userId: string, file: string, size: int)

  /** `make_image_url(user_id, hash_, size, avatar=..., tag=...)`: the size is checked
      first; without a hash the URL is the default avatar chosen by the tag (or
      None without a tag); with one it is the avatar or banner template filled
      with the hash and its extension. */
  function MakeImageUrl(userId: Value, hash: Option<string>, size: int, avatar: bool, tag: Option<int>): (r: Result<Option<ImageUrl>>)
    ensures r.Err? <==> size < MIN_SIZE || size > MAX_SIZE
    ensures r.Err? ==> r.error.kind == SizeOutOfBounds
    ensures r.Ok? && r.value.Some? ==> (r.value.value.DefaultAvatarUrl? <==> hash.None?)
  {
    if size > MAX_SIZE || size < MIN_SIZE then Fail(SizeOutOfBounds)
    else if hash.None? then
      if tag.None? then Ok(None) else Ok(Some(DefaultAvatarUrl(CDN_URL, tag.value % 5)))
    else
      var file := Utils.AddExt(hash.value);
      Ok(Some(if avatar then AvatarUrl(CDN_URL, Str(userId), file, size)
              else BannerUrl(CDN_URL, Str(userId), file, size)))
  }

  /** The size check decides before anything else; no hash and no tag gives None;
      the default avatar index is the tag modulo 5 (Python's, never negative); a
      hash gets ".gif" exactly when it is animated, and the flag picks avatar or
      banner. */
  lemma MakeImageUrlCases(userId: Value, hash: Option<string>, size: int, avatar: bool, tag: Option<int>)
    ensures var r := MakeImageUrl(userId, hash, size, avatar, tag);
      && (r.Err? <==> size < MIN_SIZE || size > MAX_SIZE)
      && (r.Err? ==> r.error.kind == SizeOutOfBounds)
      && (r.Ok? ==> (r.value.None? <==> hash.None? && tag.None?))
      && (r.Ok? && hash.None? && tag.Some? ==>
            r.value.value.DefaultAvatarUrl? && 0 <= r.value.value.index < 5
            && (tag.value - r.value.value.index) % 5 == 0)
      && (r.Ok? && hash.Some? ==>
            var u := r.value.value;
            && (u.AvatarUrl? <==> avatar)
            && !u.DefaultAvatarUrl?
            && u.userId == Str(userId) && u.size == size && u.cdn == CDN_URL
            && u.file[..|hash.value|] == hash.value
            && (u.file[|hash.value|..] == ".gif" <==> StartsWith(hash.value, "a_")))
  {
  }

  /** `{id_}/{hash}.png` */
  function IconFile(id: Value, hash: string): string
  {
    Str(id) + "/" + hash + ".png"
  }

  /** The PNG under `dir` on the CDN for a hash, or None without one. */
  function IconUrl(dir: string, id: Value, hash: Option<string>): Option<string>
  {
    if hash.Some? then Some(CDN_URL + dir + IconFile(id, hash.value)) else None
  }

  /** `make_application_image(id_, hash_)` */
  function MakeApplicationImage(id: Value, hash: Option<string>): (r: Option<string>)
    ensures r.Some? <==> hash.Some?
  {
    IconUrl("/app-icons/", id, hash)
  }

  /** `make_role_icon(id_, icon)` */
  function MakeRoleIcon(id: Value, icon: Option<string>): (r: Option<string>)
    ensures r.Some? <==> icon.Some?
  {
    IconUrl("/role-icons/", id, icon)
  }

  /** The role-icon URL spelled out: the CDN, the directory, the id, the hash, ".png". */
  lemma RoleIconText(id: Value, hash: string)
    ensures MakeRoleIcon(id, Some(hash)) == Some(CDN_URL + "/role-icons/" + Str(id) + "/" + hash + ".png")
  {
    Regrouped(CDN_URL + "/role-icons/", Str(id), "/", hash, ".png");
  }

  /** Five strings concatenated, grouped after the first or from the left. */
  lemma Regrouped(p: string, a: string, b: string, c: string, d: string)
    ensures p + (a + b + c + d) == p + a + b + c + d
  {
  }

  /** Both icon URLs live under the CDN, end in ".png" and differ only in their
      directory. */
  lemma IconUrlsShape(id: Value, hash: string)
    ensures var app := MakeApplicationImage(id, Some(hash)).value;
      var role := MakeRoleIcon(id, Some(hash)).value;
      && StartsWith(app, CDN_URL + "/app-icons/") && StartsWith(role, CDN_URL + "/role-icons/")
      && app[|app| - 4..] == ".png" && role[|role| - 4..] == ".png"
      && app[|CDN_URL + "/app-icons/"|..] == role[|CDN_URL + "/role-icons/"|..]
  {
    PrefixAndPng(CDN_URL + "/app-icons/", Str(id) + "/" + hash);
    PrefixAndPng(CDN_URL + "/role-icons/", Str(id) + "/" + hash);
  }

  /** A URL made of a prefix, a middle part and ".png". */
  lemma PrefixAndPng(prefix: string, mid: string)
    ensures var u := prefix + (mid + ".png");
      StartsWith(u, prefix) && u[|u| - 4..] == ".png" && u[|prefix|..] == mid + ".png"
  {
    var u := prefix + (mid + ".png");
    assert u[..|prefix|] == prefix;
    assert u[|u| - 4..] == ".png";
  }
}