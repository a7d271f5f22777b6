/** Users (bhaicord/models/user.py): a user read from API data, its text forms,
    its equality, its image URLs with the two sizes the object keeps, its
    banner colour, its Nitro status and its display name. */
module Users {
  import opened Wrappers
  import opened PyValues
  import opened PyStrings
  import PyDict
  import ImageBase

  /** `PremiumTypes` */
  datatype PremiumType = PremiumNone | NitroClassic | Nitro

  function PremiumValue(t: PremiumType): int
  {
    match t
    case PremiumNone => 0
    case NitroClassic => 1
    case Nitro => 2
  }

  /** `make_optional(PremiumTypes, v)`: the member with that value, or None. */
  function PremiumTypeOf(v: Value): (r: Option<PremiumType>)
    ensures r.Some? <==> EnumKey(v).Some? && 0 <= EnumKey(v).value <= 2
    ensures r.Some? ==> PremiumValue(r.value) == EnumKey(v).value
  {
    match EnumKey(v)
    case Some(0) => Some(PremiumNone)
    case Some(1) => Some(NitroClassic)
    case Some(2) => Some(Nitro)
    case _ => None
  }

  /** The attributes a user is built with; none of them changes afterwards. */
  datatype UserData = UserData(
    id: int, username: Value, discriminator: Value, avatarHash: Value,
    bot: Value, system: Value, mfaEnabled: Value, bannerHash: Value, accentColor: Value,
    locale: Value, verified: Value, email: Value, flags: Value,
    premiumType: Option<PremiumType>, publicFlags: Value, memberData: Value)

  /** `User(data, member_data)`: `id`, `username`, `discriminator` and `avatar` are
      required (`id` converted with `int`), `bot` defaults to False, every other
      attribute to None, and the member data to `{}`. */
  function ReadUser(data: Value, memberData: Value): (r: Result<UserData>)
    ensures r.Ok? <==> Index(data, "id").Ok? && ToInt(Index(data, "id").value).Ok?
                       && Index(data, "username").Ok? && Index(data, "discriminator").Ok? && Index(data, "avatar").Ok?
    ensures r.Ok? ==>
      && r.value.id == ToInt(Index(data, "id").value).value
      && r.value.username == Index(data, "username").value
      && r.value.discriminator == Index(data, "discriminator").value
      && r.value.memberData == (if memberData.VNone? then VDict([]) else memberData)
      && ("bot" !in PyDict.Keys(data.entries) ==> r.value.bot == VBool(false))
      && ("banner" !in PyDict.Keys(data.entries) ==> r.value.bannerHash == VNone)
      && ("accent_color" !in PyDict.Keys(data.entries) ==> r.value.accentColor == VNone)
      && ("premium_type" !in PyDict.Keys(data.entries) ==> r.value.premiumType.None?)
    ensures r.Ok? ==>
      && r.value.avatarHash == Index(data, "avatar").value
      && ReadFrom(data, "bot", VBool(false), r.value.bot)
      && ReadFrom(data, "system", VNone, r.value.system)
      && ReadFrom(data, "mfa_enabled", VNone, r.value.mfaEnabled)
      && ReadFrom(data, "banner", VNone, r.value.bannerHash)
      && ReadFrom(data, "accent_color", VNone, r.value.accentColor)
      && ReadFrom(data, "locale", VNone, r.value.locale)
      && ReadFrom(data, "verified", VNone, r.value.verified)
      && ReadFrom(data, "email", VNone, r.value.email)
      && ReadFrom(data, "flags", VNone, r.value.flags)
      && ReadFrom(data, "public_flags", VNone, r.value.publicFlags)
      && ("premium_type" in PyDict.Keys(data.entries) ==>
            r.value.premiumType == PremiumTypeOf(Index(data, "premium_type").value))
  {
    match Index(data, "id")
    case Err(e) => Err(e)
    case Ok(idValue) =>
      match ToInt(idValue)
      case Err(e) => Err(e)
      case Ok(id) =>
        match Index(data, "username")
        case Err(e) => Err(e)
        case Ok(username) =>
          match Index(data, "discriminator")
          case Err(e) => Err(e)
          case Ok(discriminator) =>
            match Index(data, "avatar")
            case Err(e) => Err(e)
            case Ok(avatar) =>
              Ok(UserData(id, username, discriminator, avatar,
                          Get(data, "bot", VBool(false)).value,
                          Get1(data, "system").value, Get1(data, "mfa_enabled").value,
                          Get1(data, "banner").value, Get1(data, "accent_color").value,
                          Get1(data, "locale").value, Get1(data, "verified").value,
                          Get1(data, "email").value, Get1(data, "flags").value,
                          PremiumTypeOf(Get1(data, "premium_type").value),
                          Get1(data, "public_flags").value,
                          if memberData.VNone? then VDict([]) else memberData))
  }

  /** `str(user)`: `username#discriminator`. */
  function UserStr(u: UserData): string
  {
    Str(u.username) + "#" + Str(u.discriminator)
  }

  /** The text form reads back: when the discriminator's text holds no '#', the
      last '#' of `str(user)` separates the username from the discriminator. */
  lemma UserStrReadBack(u: UserData)
    requires '#' !in Str(u.discriminator)
    ensures RPartition(UserStr(u), '#') == (Str(u.username), "#", Str(u.discriminator))
  {
    RPartitionOfJoin(Str(u.username), '#', Str(u.discriminator));
  }

  /** `user.mention`: `<@id>`. */
  function Mention(u: UserData): (r: string)
    ensures |r| >= 3 && r[..2] == "<@" && r[|r| - 1] == '>'
  {
    "<@" + IntToString(u.id) + ">"
  }

  /** The id can be read back from a mention: it sits between "<@" and ">". */
  lemma MentionHoldsId(u: UserData)
    ensures var m := Mention(u);
      |m| >= 3 && m[..2] == "<@" && m[|m| - 1] == '>' && ParseInt(m[2..|m| - 1]) == Some(u.id)
  {
    var m := Mention(u);
    assert m[2..|m| - 1] == IntToString(u.id);
    ParseIntOfIntToString(u.id);
  }

  /** `a == b` compares the ids only. */
  predicate SameUser(a: UserData, b: UserData)
    ensures a == b ==> SameUser(a, b)
    ensures SameUser(a, b) ==> Mention(a) == Mention(b)
  {
    a.id == b.id
  }

  /** Two users read from data with the same id are equal, whatever else differs. */
  lemma EqualityIgnoresOtherFields(d1: Value, d2: Value, m1: Value, m2: Value)
    requires ReadUser(d1, m1).Ok? && ReadUser(d2, m2).Ok?
    ensures SameUser(ReadUser(d1, m1).value, ReadUser(d2, m2).value)
        <==> ToInt(Index(d1, "id").value).value == ToInt(Index(d2, "id").value).value
  {
  }

  /** `is_premium` as written: `premium_type in (1, 2)` compares an enum member (or
      None) with ints, and a plain `Enum` member never equals an int. */
  predicate IsPremium(u: UserData)
    ensures !IsPremium(u)
  {
    EnumEqualsInt(u.premiumType, 1) || EnumEqualsInt(u.premiumType, 2)
  }

  /** `member == n` for a plain `Enum` member or None and an int: never. */
  predicate EnumEqualsInt(m: Option<PremiumType>, n: int)
  {
    false
  }

  /** As written, no user is premium, Nitro subscribers included. */
  lemma IsPremiumNeverHolds(u: UserData)
    ensures u.premiumType == Some(Nitro) ==> !IsPremium(u)
    ensures u.premiumType == Some(NitroClassic) ==> !IsPremium(u)
    ensures !IsPremium(u)
  {
  }

  /** `is_premium` comparing the member's value. */
  predicate IsPremiumIntended(u: UserData)
    ensures IsPremiumIntended(u) <==> u.premiumType == Some(NitroClassic) || u.premiumType == Some(Nitro)
  {
    u.premiumType.Some? && PremiumValue(u.premiumType.value) in {1, 2}
  }

  /** The corrected test holds exactly for a user whose data has premium type 1 or
      2. */
  lemma IsPremiumIntendedFromData(data: Value, memberData: Value)
    requires ReadUser(data, memberData).Ok?
    ensures IsPremiumIntended(ReadUser(data, memberData).value)
        <==> EnumKey(Get1(data, "premium_type").value) in {Some(1), Some(2)}
  {
  }

  /** `banner_color(into_hex)`: None without an accent colour, `hex(int(c))` when
      `into_hex` is truthy, else `int(c)`. */
  function BannerColor(u: UserData, intoHex: Value): (r: Result<Value>)
    ensures u.accentColor.VNone? ==> r == Ok(VNone)
    ensures !u.accentColor.VNone? ==> (r.Ok? <==> ToInt(u.accentColor).Ok?)
    ensures !u.accentColor.VNone? && r.Ok? && Truthy(intoHex) ==> r.value == VStr(Hex(ToInt(u.accentColor).value))
    ensures !u.accentColor.VNone? && r.Ok? && !Truthy(intoHex) ==> r.value == VInt(ToInt(u.accentColor).value)
  {
    if u.accentColor.VNone? then Ok(VNone)
    else
      match ToInt(u.accentColor)
      case Err(e) => Err(e)
      case Ok(c) => Ok(if Truthy(intoHex) then VStr(Hex(c)) else VInt(c))
  }

  /** The hex form is "0x" and the colour's lower-case hex digits. */
  lemma BannerColorHex(u: UserData, c: nat)
    requires u.accentColor == VInt(c)
    ensures BannerColor(u, VBool(true)) == Ok(VStr("0x" + HexDigits(c)))
  {
  }

  /** `display_name`: the member nick when truthy, else the username. */
  function DisplayName(u: UserData): (r: Result<Value>)
    ensures r.Ok? <==> u.memberData.VDict?
    ensures r.Ok? && Truthy(Get1(u.memberData, "nick").value) ==> r.value == Get1(u.memberData, "nick").value
    ensures r.Ok? && !Truthy(Get1(u.memberData, "nick").value) ==> r.value == u.username
  {
    match Get1(u.memberData, "nick")
    case Err(e) => Err(e)
    case Ok(nick) => Ok(if Truthy(nick) then nick else u.username)
  }

  /** A user read without member data shows its username. */
  lemma DisplayNameWithoutMember(data: Value)
    requires ReadUser(data, VNone).Ok?
    ensures DisplayName(ReadUser(data, VNone).value) == Ok(ReadUser(data, VNone).value.username)
  {
  }

  const DEFAULT_IMAGE_SIZE: int := 4096

  class User {
    const data: UserData
    var avatarSize: int
    var bannerSize: int

    constructor (d: UserData)
      ensures data == d && avatarSize == DEFAULT_IMAGE_SIZE && bannerSize == DEFAULT_IMAGE_SIZE
    {
      data := d;
      avatarSize := DEFAULT_IMAGE_SIZE;
      bannerSize := DEFAULT_IMAGE_SIZE;
    }

    /** `User(data, member_data)` */
    static method New(data: Value, memberData: Value) returns (r: Result<User>)
      ensures r.Ok? <==> ReadUser(data, memberData).Ok?
      ensures r.Err? ==> r.error == ReadUser(data, memberData).error
      ensures r.Ok? ==> fresh(r.value) && r.value.data == ReadUser(data, memberData).value
                        && r.value.avatarSize == DEFAULT_IMAGE_SIZE && r.value.bannerSize == DEFAULT_IMAGE_SIZE
    {
      var d := ReadUser(data, memberData);
      if d.Err? {
        return Err(d.error);
      }
      var u := new User(d.value);
      r := Ok(u);
    }

    /** `set_avatar_size(size)`: the banner size is untouched. */
    method SetAvatarSize(size: int)
      modifies this
      ensures avatarSize == size && bannerSize == old(bannerSize)
    {
      avatarSize := size;
    }

    /** `set_banner_size(size)`: the avatar size is untouched. */
    method SetBannerSize(size: int)
      modifies this
      ensures bannerSize == size && avatarSize == old(avatarSize)
    {
      bannerSize := size;
    }

    /** `_make_image(hash_, avatar)`: the avatar or banner size, and the
        discriminator as the tag; `int(discriminator)` is evaluated before the
        call, and a hash that is neither None nor a string has no `startswith`. */
    function MakeImage(hash: Value, avatar: bool): (r: Result<Option<ImageBase.ImageUrl>>)
      reads this
      ensures ToInt(data.discriminator).Err? ==> r == Err(ToInt(data.discriminator).error)
      ensures ToInt(data.discriminator).Ok? ==>
        var size := if avatar then avatarSize else bannerSize;
        (r.Err? && r.error.kind == SizeOutOfBounds <==> size < ImageBase.MIN_SIZE || size > ImageBase.MAX_SIZE)
      ensures r.Ok? ==> hash.VNone? || hash.VStr?
    {
      var size := if avatar then avatarSize else bannerSize;
      match ToInt(data.discriminator)
      case Err(e) => Err(e)
      case Ok(tag) =>
        if hash.VNone? then ImageBase.MakeImageUrl(VInt(data.id), None, size, avatar, Some(tag))
        else if hash.VStr? then ImageBase.MakeImageUrl(VInt(data.id), Some(hash.s), size, avatar, Some(tag))
        else if size > ImageBase.MAX_SIZE || size < ImageBase.MIN_SIZE then Fail(SizeOutOfBounds)
        else Fail(AttributeError)
    }

    /** `avatar_url` */
    function AvatarUrl(): (r: Result<Option<ImageBase.ImageUrl>>)
      reads this
      ensures r.Ok? ==> r.value.Some? && (r.value.value.DefaultAvatarUrl? <==> data.avatarHash.VNone?)
      ensures r.Ok? && data.avatarHash.VStr? ==> r.value.value.AvatarUrl? && r.value.value.size == avatarSize
      ensures (&& ToInt(data.discriminator).Ok? && ImageBase.MIN_SIZE <= avatarSize <= ImageBase.MAX_SIZE
               && (data.avatarHash.VNone? || data.avatarHash.VStr?)) ==> r.Ok?
    {
      ImageCases(data.avatarHash, true);
      MakeImage(data.avatarHash, true)
    }

    /** `default_avatar_url` */
    function DefaultAvatarUrl(): (r: Result<Option<ImageBase.ImageUrl>>)
      reads this
      ensures r.Ok? ==> && ToInt(data.discriminator).Ok? && r.value.Some? && r.value.value.DefaultAvatarUrl?
                        && r.value.value.index == ToInt(data.discriminator).value % 5
      ensures ToInt(data.discriminator).Ok? && ImageBase.MIN_SIZE <= avatarSize <= ImageBase.MAX_SIZE ==> r.Ok?
    {
      ImageCases(VNone, true);
      MakeImage(VNone, true)
    }

    /** `banner_url`: without a banner hash this is the default avatar, not None. */
    function BannerUrl(): (r: Result<Option<ImageBase.ImageUrl>>)
      reads this
      ensures r.Ok? ==> r.value.Some? && (r.value.value.DefaultAvatarUrl? <==> data.bannerHash.VNone?)
      ensures r.Ok? && data.bannerHash.VStr? ==> r.value.value.BannerUrl? && r.value.value.size == bannerSize
      ensures (&& ToInt(data.discriminator).Ok? && ImageBase.MIN_SIZE <= bannerSize <= ImageBase.MAX_SIZE
               && (data.bannerHash.VNone? || data.bannerHash.VStr?)) ==> r.Ok?
    {
      ImageCases(data.bannerHash, false);
      MakeImage(data.bannerHash, false)
    }

    /** What `_make_image` gives: the user's tag always picks a default avatar
        when there is no hash, and a hash fills the avatar or banner template
        with the size for that kind of image. */
    lemma ImageCases(hash: Value, avatar: bool)
      ensures var r := MakeImage(hash, avatar);
        var size := if avatar then avatarSize else bannerSize;
        && (r.Ok? ==> r.value.Some? && (r.value.value.DefaultAvatarUrl? <==> hash.VNone?))
        && (r.Ok? && hash.VNone? ==> ToInt(data.discriminator).Ok? && r.value.value.index == ToInt(data.discriminator).value % 5)
        && (r.Ok? && hash.VStr? ==> (if avatar then r.value.value.AvatarUrl? else r.value.value.BannerUrl?)
                                    && r.value.value.size == size)
        && ((&& ToInt(data.discriminator).Ok? && ImageBase.MIN_SIZE <= size <= ImageBase.MAX_SIZE
             && (hash.VNone? || hash.VStr?)) ==> r.Ok?)
    {
      var size := if avatar then avatarSize else bannerSize;
      if ToInt(data.discriminator).Ok? {
        var h := if hash.VStr? then Some(hash.s) else None;
        ImageBase.MakeImageUrlCases(VInt(data.id), h, size, avatar, Some(ToInt(data.discriminator).value));
      }
    }

    /** An avatar URL uses the avatar size and a banner URL the banner size; without
        a hash the default avatar is picked by the discriminator modulo 5. */
    lemma ImagesUseTheirOwnSize(hash: string)
      requires ToInt(data.discriminator).Ok?
      requires ImageBase.MIN_SIZE <= avatarSize <= ImageBase.MAX_SIZE
      requires ImageBase.MIN_SIZE <= bannerSize <= ImageBase.MAX_SIZE
      ensures MakeImage(VStr(hash), true).Ok? && MakeImage(VStr(hash), true).value.value.AvatarUrl?
      ensures MakeImage(VStr(hash), true).value.value.size == avatarSize
      ensures MakeImage(VStr(hash), false).Ok? && MakeImage(VStr(hash), false).value.value.BannerUrl?
      ensures MakeImage(VStr(hash), false).value.value.size == bannerSize
      ensures DefaultAvatarUrl() == Ok(Some(ImageBase.DefaultAvatarUrl(ImageBase.CDN_URL, ToInt(data.discriminator).value % 5)))
    {
      ImageBase.MakeImageUrlCases(VInt(data.id), Some(hash), avatarSize, true, Some(ToInt(data.discriminator).value));
      ImageBase.MakeImageUrlCases(VInt(data.id), Some(hash), bannerSize, false, Some(ToInt(data.discriminator).value));
    }
  }

  /** A fresh user's images are never out of bounds: both sizes start at the
      maximum. */
  lemma DefaultSizesInBounds()
    ensures ImageBase.MIN_SIZE <= DEFAULT_IMAGE_SIZE <= ImageBase.MAX_SIZE
  {
  }
}
