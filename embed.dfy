/** The embed builder (bhaicord/models/embed.py): the attrs component classes,
    the `Embed` object whose field list and components are changed in place,
    `from_dict` and `to_dict`. */
module Embeds {
  import opened Wrappers
  import opened PyStrings
  import opened PyValues
  import PyDict
  import PyLists
  import Utils

  // ---------------------------------------------------------------------------
  // The attrs component classes and keyword construction

  /** An attrs attribute: its name and whether it has no default. */
  datatype AttrSpec = AttrSpec(name: string, required: bool)

  const FOOTER: seq<AttrSpec> := [AttrSpec("text", true), AttrSpec("icon_url", false), AttrSpec("proxy_icon_url", false)]
  /** EmbedImage, EmbedVideo and EmbedThumbnail share their attributes. */
  const MEDIA: seq<AttrSpec> := [AttrSpec("url", true), AttrSpec("proxy_url", false), AttrSpec("height", false), AttrSpec("width", false)]
  const FIELD: seq<AttrSpec> := [AttrSpec("name", true), AttrSpec("value", true), AttrSpec("inline", true)]
  const PROVIDER: seq<AttrSpec> := [AttrSpec("name", false), AttrSpec("url", false)]
  const AUTHOR: seq<AttrSpec> := [AttrSpec("name", true), AttrSpec("url", false), AttrSpec("icon_url", false), AttrSpec("proxy_icon_url", false)]

  function Names(spec: seq<AttrSpec>): (r: seq<string>)
    ensures |r| == |spec| && forall i :: 0 <= i < |spec| ==> r[i] == spec[i].name
  {
    seq(|spec|, i requires 0 <= i < |spec| => spec[i].name)
  }

  /** The attributes of a constructed instance: each declared attribute with its
      keyword argument, or None (every default here is None). */
  function Filled(spec: seq<AttrSpec>, kwargs: seq<(string, Value)>): (r: seq<(string, Value)>)
    ensures |r| == |spec|
    ensures forall i :: 0 <= i < |spec| ==> r[i].0 == spec[i].name
  {
    seq(|spec|, i requires 0 <= i < |spec| =>
      (spec[i].name, match PyDict.Lookup(kwargs, spec[i].name) case Some(v) => v case None => VNone))
  }

  /** `Cls(**kwargs)` for an attrs class: an unknown keyword or a missing required
      attribute raises TypeError; values are not checked. */
  function Construct(cls: string, spec: seq<AttrSpec>, kwargs: seq<(string, Value)>): (r: Result<Value>)
    ensures r.Ok? <==> (forall k :: k in PyDict.Keys(kwargs) ==> k in Names(spec))
                       && (forall i :: 0 <= i < |spec| && spec[i].required ==> spec[i].name in PyDict.Keys(kwargs))
    ensures r.Ok? ==> r.value == VObj(cls, Filled(spec, kwargs))
    ensures r.Err? ==> r.error.kind == TypeError
  {
    if exists k :: k in PyDict.Keys(kwargs) && k !in Names(spec) then Fail(TypeError)
    else if exists i :: 0 <= i < |spec| && spec[i].required && spec[i].name !in PyDict.Keys(kwargs) then Fail(TypeError)
    else Ok(VObj(cls, Filled(spec, kwargs)))
  }

  /** `Cls(**v)`: only a mapping can be unpacked. */
  function CallWithKwargs(cls: string, spec: seq<AttrSpec>, v: Value): (r: Result<Value>)
    ensures !v.VDict? ==> r.Err?
    ensures v.VDict? ==> r == Construct(cls, spec, v.entries)
  {
    if v.VDict? then Construct(cls, spec, v.entries) else Fail(TypeError)
  }

  /** `make_optional(Cls, kwargs=v)`: with `v` None the class is called with no
      arguments; any exception gives None. */
  function MakeOptionalWith(cls: string, spec: seq<AttrSpec>, v: Value): (r: Value)
    ensures v.VNone? ==> r == (match Construct(cls, spec, []) case Ok(o) => o case Err(_) => VNone)
    ensures v.VDict? ==> r == (match Construct(cls, spec, v.entries) case Ok(o) => o case Err(_) => VNone)
  {
    var call := if v.VNone? then Construct(cls, spec, []) else CallWithKwargs(cls, spec, v);
    match call
    case Ok(o) => o
    case Err(_) => VNone
  }

  /** Names that are distinct and do not start with "_" survive `from_obj_to_dict`. */
  predicate PublicDistinct(spec: seq<AttrSpec>)
  {
    && (forall i, j :: 0 <= i < j < |spec| ==> spec[i].name != spec[j].name)
    && (forall i :: 0 <= i < |spec| ==> !StartsWith(spec[i].name, "_"))
  }

  /** `from_obj_to_dict` keeps every attribute of an object whose names are public and distinct. */
  lemma {:induction false} ObjToDictKeepsPublic(attrs: seq<(string, Value)>)
    requires PyDict.DistinctKeys(attrs)
    requires forall i :: 0 <= i < |attrs| ==> !StartsWith(attrs[i].0, "_")
    ensures Utils.ObjToDict(attrs, []) == attrs
    decreases |attrs|
  {
    if |attrs| > 0 {
      var init := attrs[..|attrs| - 1];
      var (k, v) := attrs[|attrs| - 1];
      ObjToDictKeepsPublic(init);
      assert k !in PyDict.Keys(init) by {
        forall i | 0 <= i < |init| ensures init[i].0 != k {
          assert attrs[i].0 != attrs[|attrs| - 1].0;
        }
      }
      SetAppends(init, k, v);
      assert attrs == init + [(k, v)];
    }
  }

  lemma {:induction false} SetAppends(d: seq<(string, Value)>, k: string, v: Value)
    requires k !in PyDict.Keys(d)
    ensures PyDict.Set(d, k, v) == d + [(k, v)]
    decreases |d|
  {
    if |d| > 0 {
      assert PyDict.Keys(d) == [d[0].0] + PyDict.Keys(d[1..]);
      SetAppends(d[1..], k, v);
    }
  }

  /** An instance converted with `from_obj_to_dict` and passed back as keyword
      arguments to its own class is rebuilt unchanged. */
  lemma ConstructRoundTrip(cls: string, spec: seq<AttrSpec>, kwargs: seq<(string, Value)>)
    requires PublicDistinct(spec)
    requires Construct(cls, spec, kwargs).Ok?
    ensures var o := Construct(cls, spec, kwargs).value;
      Construct(cls, spec, Utils.ObjToDict(o.attrs, [])) == Ok(o)
  {
    var f := Filled(spec, kwargs);
    ObjToDictKeepsPublic(f);
    assert PyDict.Keys(f) == Names(spec);
    forall i | 0 <= i < |spec| ensures PyDict.Lookup(f, spec[i].name) == Some(f[i].1) {
      PyDict.LookupAt(f, i);
    }
    assert Filled(spec, f) == f;
  }

  lemma NotPrivate(name: string)
    requires |name| > 0 && name[0] != '_'
    ensures !StartsWith(name, "_")
  {
    assert name[..1][0] == name[0];
  }

  /** The footer and field classes have distinct public attribute names. */
  lemma SpecsPublicDistinct()
    ensures PublicDistinct(FOOTER) && PublicDistinct(FIELD)
  {
    NotPrivate("text");
    NotPrivate("icon_url");
    NotPrivate("proxy_icon_url");
    NotPrivate("name");
    NotPrivate("value");
    NotPrivate("inline");
  }

  // The instances the setters build

  function Footer(text: string, iconUrl: Value, proxyIconUrl: Value): (r: Value)
    ensures Construct("EmbedFooter", FOOTER, [("text", VStr(text)), ("icon_url", iconUrl), ("proxy_icon_url", proxyIconUrl)]) == Ok(r)
  {
    var kw := [("text", VStr(text)), ("icon_url", iconUrl), ("proxy_icon_url", proxyIconUrl)];
    assert PyDict.Keys(kw) == Names(FOOTER);
    Construct("EmbedFooter", FOOTER, kw).value
  }

  function Media(cls: string, url: Value, proxyUrl: Value, height: Value, width: Value): (r: Value)
    ensures Construct(cls, MEDIA, [("url", url), ("proxy_url", proxyUrl), ("height", height), ("width", width)]) == Ok(r)
  {
    var kw := [("url", url), ("proxy_url", proxyUrl), ("height", height), ("width", width)];
    assert PyDict.Keys(kw) == Names(MEDIA);
    Construct(cls, MEDIA, kw).value
  }

  function Provider(name: Value, url: Value): (r: Value)
    ensures Construct("EmbedProvider", PROVIDER, [("name", name), ("url", url)]) == Ok(r)
  {
    var kw := [("name", name), ("url", url)];
    assert PyDict.Keys(kw) == Names(PROVIDER);
    Construct("EmbedProvider", PROVIDER, kw).value
  }

  function Author(name: string, url: Value, iconUrl: Value, proxyIconUrl: Value): (r: Value)
    ensures Construct("EmbedAuthor", AUTHOR, [("name", VStr(name)), ("url", url), ("icon_url", iconUrl), ("proxy_icon_url", proxyIconUrl)]) == Ok(r)
  {
    var kw := [("name", VStr(name)), ("url", url), ("icon_url", iconUrl), ("proxy_icon_url", proxyIconUrl)];
    assert PyDict.Keys(kw) == Names(AUTHOR);
    Construct("EmbedAuthor", AUTHOR, kw).value
  }

  function Field(name: Value, value: Value, inline: Value): (r: Value)
    ensures Construct("EmbedField", FIELD, [("name", name), ("value", value), ("inline", inline)]) == Ok(r)
  {
    var kw := [("name", name), ("value", value), ("inline", inline)];
    assert PyDict.Keys(kw) == Names(FIELD);
    Construct("EmbedField", FIELD, kw).value
  }

  // ---------------------------------------------------------------------------
  // The embed's attributes and `to_dict`

  /** Everything an Embed instance holds. `colour` is present only on an embed
      made by `from_dict`, which also puts `_fields` last in `__dict__`. */
  datatype EmbedState = EmbedState(
    title: Value,
    description: Value,
    color: Value,
    colour: Option<Value>,
    url: Value,
    timestamp: Value,
    fields: seq<Value>,
    thumbnail: Value,
    image: Value,
    video: Value,
    provider: Value,
    author: Value,
    footer: Value,
    embedType: Value)

  /** The instance `__dict__`, in the order the attributes were first updated. */
  function Attributes(s: EmbedState): seq<(string, Value)>
  {
    if s.colour.None? then
      [("title", s.title), ("description", s.description), ("color", s.color), ("url", s.url),
       ("timestamp", s.timestamp), ("_fields", VList(s.fields)), ("_thumbnail", s.thumbnail),
       ("_image", s.image), ("_video", s.video), ("_provider", s.provider), ("_author", s.author),
       ("_footer", s.footer), ("type", s.embedType)]
    else
      [("title", s.title), ("description", s.description), ("color", s.color), ("colour", s.colour.value),
       ("url", s.url), ("timestamp", s.timestamp), ("_thumbnail", s.thumbnail), ("_image", s.image),
       ("_video", s.video), ("_provider", s.provider), ("_author", s.author), ("_footer", s.footer),
       ("type", s.embedType), ("_fields", VList(s.fields))]
  }

  /** A private attribute name loses its leading and trailing underscores. */
  function StripKey(key: string): (r: string)
    ensures !StartsWith(r, "_")
    ensures !StartsWith(key, "_") ==> r == key
    ensures StartsWith(key, "_") ==> Leading(key, '_') + |r| <= |key| && r == key[Leading(key, '_')..Leading(key, '_') + |r|]
  {
    if StartsWith(key, "_") then Strip(key, '_') else key
  }

  /** The private attributes `to_dict` writes come out under exactly the keys
      `from_dict` reads: "fields", "thumbnail", "image", "video", "provider",
      "author" and "footer". */
  lemma PrivateKeysMatchFromDict()
    ensures StripKey("_fields") == "fields"
    ensures StripKey("_thumbnail") == "thumbnail"
    ensures StripKey("_image") == "image"
    ensures StripKey("_video") == "video"
    ensures StripKey("_provider") == "provider"
    ensures StripKey("_author") == "author"
    ensures StripKey("_footer") == "footer"
  {
    UnderscoreStripped("_fields");
    UnderscoreStripped("_thumbnail");
    UnderscoreStripped("_image");
    UnderscoreStripped("_video");
    UnderscoreStripped("_provider");
    UnderscoreStripped("_author");
    UnderscoreStripped("_footer");
  }

  /** A single leading underscore before a name that does not end in one is all
      `StripKey` removes. */
  lemma UnderscoreStripped(key: string)
    requires |key| > 1 && key[0] == '_' && key[1] != '_' && key[|key| - 1] != '_'
    ensures StripKey(key) == key[1..]
  {
    assert Leading(key[1..], '_') == 0;
    assert Leading(key, '_') == 1;
    assert Trailing(key[1..], '_') == 0;
  }

  /** The list elements that are objects, each as `from_obj_to_dict` gives it:
      for any mix of elements, the dicts of the object elements, in order. */
  function ObjectDicts(items: seq<Value>): (r: seq<Value>)
    ensures r == AsDicts(Objects(items))
    decreases |items|
  {
    if |items| == 0 then []
    else
      var init := items[..|items| - 1];
      var prev := ObjectDicts(init);
      var last := items[|items| - 1];
      assert items == init + [last];
      ObjectsSnoc(init, last);
      if Utils.IsObject(last) then
        AsDictsSnoc(Objects(init), last);
        prev + [VDict(Utils.ObjToDict(last.attrs, []))]
      else prev
  }

  /** What `to_dict` stores for an attribute value. */
  function Converted(v: Value): Value
  {
    if v.VList? then VList(ObjectDicts(v.items))
    else if Utils.IsObject(v) then VDict(Utils.ObjToDict(v.attrs, []))
    else v
  }

  /** The dict `to_dict` builds from a `__dict__`, entry by entry. */
  function EmbedDict(attrs: seq<(string, Value)>): seq<(string, Value)>
    decreases |attrs|
  {
    if |attrs| == 0 then []
    else
      var (key, value) := attrs[|attrs| - 1];
      PyDict.Set(EmbedDict(attrs[..|attrs| - 1]), StripKey(key), Converted(value))
  }

  function StrippedKeys(attrs: seq<(string, Value)>): (r: seq<string>)
    ensures |r| == |attrs| && forall i :: 0 <= i < |attrs| ==> r[i] == StripKey(attrs[i].0)
  {
    seq(|attrs|, i requires 0 <= i < |attrs| => StripKey(attrs[i].0))
  }

  /** No key of `to_dict`'s result starts with an underscore. */
  lemma {:induction false} EmbedDictKeysPublic(attrs: seq<(string, Value)>)
    ensures forall k :: k in PyDict.Keys(EmbedDict(attrs)) ==> !StartsWith(k, "_")
    decreases |attrs|
  {
    if |attrs| > 0 {
      var init := attrs[..|attrs| - 1];
      var (key, value) := attrs[|attrs| - 1];
      EmbedDictKeysPublic(init);
      PyDict.KeysOfSet(EmbedDict(init), StripKey(key), Converted(value));
    }
  }

  /** When the stripped names are distinct, the last attribute's name is not among
      the earlier ones. */
  lemma LastKeyFresh(attrs: seq<(string, Value)>)
    requires |attrs| > 0
    requires forall i, j :: 0 <= i < j < |attrs| ==> StripKey(attrs[i].0) != StripKey(attrs[j].0)
    ensures StripKey(attrs[|attrs| - 1].0) !in StrippedKeys(attrs[..|attrs| - 1])
  {
    var init := attrs[..|attrs| - 1];
    forall i | 0 <= i < |init| ensures StrippedKeys(init)[i] != StripKey(attrs[|attrs| - 1].0) {
      assert StripKey(attrs[i].0) != StripKey(attrs[|attrs| - 1].0);
    }
  }

  /** When the stripped names are distinct, `to_dict` has one key per attribute, in
      attribute order, holding the converted value. */
  lemma {:induction false} EmbedDictEntries(attrs: seq<(string, Value)>)
    requires forall i, j :: 0 <= i < j < |attrs| ==> StripKey(attrs[i].0) != StripKey(attrs[j].0)
    ensures PyDict.Keys(EmbedDict(attrs)) == StrippedKeys(attrs)
    ensures forall i :: 0 <= i < |attrs| ==> PyDict.Lookup(EmbedDict(attrs), StripKey(attrs[i].0)) == Some(Converted(attrs[i].1))
    decreases |attrs|
  {
    if |attrs| > 0 {
      var n := |attrs| - 1;
      var init := attrs[..n];
      var k, v := StripKey(attrs[n].0), Converted(attrs[n].1);
      EmbedDictEntries(init);
      LastKeyFresh(attrs);
      var prev := EmbedDict(init);
      assert EmbedDict(attrs) == PyDict.Set(prev, k, v);
      PyDict.KeysOfSet(prev, k, v);
      StrippedKeysSnoc(attrs);
      forall i | 0 <= i < |attrs|
        ensures PyDict.Lookup(PyDict.Set(prev, k, v), StripKey(attrs[i].0)) == Some(Converted(attrs[i].1))
      {
        PyDict.LookupSet(prev, k, v, StripKey(attrs[i].0));
        if i < n {
          assert attrs[i] == init[i];
        }
      }
    }
  }

  /** `to_dict` over one more attribute sets that attribute's entry. */
  lemma EmbedDictSnoc(attrs: seq<(string, Value)>, i: nat)
    requires i < |attrs|
    ensures EmbedDict(attrs[..i + 1]) == PyDict.Set(EmbedDict(attrs[..i]), StripKey(attrs[i].0), Converted(attrs[i].1))
  {
    assert attrs[..i + 1][..i] == attrs[..i];
  }

  /** The stripped names of a non-empty list: those of all but the last, then the last. */
  lemma StrippedKeysSnoc(attrs: seq<(string, Value)>)
    requires |attrs| > 0
    ensures StrippedKeys(attrs) == StrippedKeys(attrs[..|attrs| - 1]) + [StripKey(attrs[|attrs| - 1].0)]
  {
  }

  /** The object elements of a list, in order: an independent, front-first
      reference for what `to_dict` keeps of a list attribute. */
  function Objects(items: seq<Value>): (r: seq<Value>)
    ensures forall x :: x in r ==> x.VObj? && x in items
    ensures forall x :: x in items && x.VObj? ==> x in r
  {
    if |items| == 0 then []
    else if items[0].VObj? then [items[0]] + Objects(items[1..])
    else Objects(items[1..])
  }

  /** Each object as the dict `from_obj_to_dict` gives it. */
  function AsDicts(objs: seq<Value>): (r: seq<Value>)
    requires forall x :: x in objs ==> x.VObj?
    ensures |r| == |objs|
    ensures forall i :: 0 <= i < |objs| ==> r[i] == VDict(Utils.ObjToDict(objs[i].attrs, []))
  {
    seq(|objs|, i requires 0 <= i < |objs| => VDict(Utils.ObjToDict(objs[i].attrs, [])))
  }

  /** Filtering a list extended at the end extends the filtered list. */
  lemma {:induction false} ObjectsSnoc(xs: seq<Value>, x: Value)
    ensures Objects(xs + [x]) == Objects(xs) + (if x.VObj? then [x] else [])
    decreases |xs|
  {
    if |xs| > 0 {
      assert (xs + [x])[1..] == xs[1..] + [x];
      ObjectsSnoc(xs[1..], x);
    } else {
      assert xs + [x] == [x];
    }
  }

  /** Converting one more object appends its dict. */
  lemma AsDictsSnoc(objs: seq<Value>, x: Value)
    requires forall y :: y in objs ==> y.VObj?
    requires x.VObj?
    ensures AsDicts(objs + [x]) == AsDicts(objs) + [VDict(Utils.ObjToDict(x.attrs, []))]
  {
  }

  /** A list of objects only is its own filter. */
  lemma {:induction false} ObjectsOfObjects(items: seq<Value>)
    requires forall i :: 0 <= i < |items| ==> items[i].VObj?
    ensures Objects(items) == items
    decreases |items|
  {
    if |items| > 0 {
      ObjectsOfObjects(items[1..]);
    }
  }

  /** A list attribute keeps exactly its object elements, in order, each as a
      dict, whatever else the list holds. */
  lemma ObjectDictsOfObjects(items: seq<Value>)
    ensures ObjectDicts(items) == AsDicts(Objects(items))
    ensures forall x :: x in ObjectDicts(items) ==> x.VDict?
    ensures (forall i :: 0 <= i < |items| ==> items[i].VObj?) ==> Objects(items) == items
    ensures (forall i :: 0 <= i < |items| ==> !items[i].VObj?) ==> ObjectDicts(items) == []
  {
    AsDictsAreDicts(Objects(items));
    if forall i :: 0 <= i < |items| ==> items[i].VObj? {
      ObjectsOfObjects(items);
    }
    if forall i :: 0 <= i < |items| ==> !items[i].VObj? {
      NoObjects(items);
    }
  }

  /** Every converted object is a dict. */
  lemma AsDictsAreDicts(objs: seq<Value>)
    requires forall x :: x in objs ==> x.VObj?
    ensures forall x :: x in AsDicts(objs) ==> x.VDict?
  {
    var r := AsDicts(objs);
    forall x | x in r ensures x.VDict? {
      var i :| 0 <= i < |r| && r[i] == x;
    }
  }

  /** A list without objects filters to nothing. */
  lemma {:induction false} NoObjects(items: seq<Value>)
    requires forall i :: 0 <= i < |items| ==> !items[i].VObj?
    ensures Objects(items) == []
    decreases |items|
  {
    if |items| > 0 {
      assert forall i :: 0 <= i < |items[1..]| ==> items[1..][i] == items[i + 1];
      NoObjects(items[1..]);
    }
  }

  // ---------------------------------------------------------------------------
  // Construction

  /** The colour check of `__init__`: giving both spellings raises; otherwise the
      one given (or None) is the colour. */
  function ChosenColor(color: Value, colour: Value): (r: Result<Value>)
    ensures r.Err? <==> !color.VNone? && !colour.VNone?
    ensures r.Ok? ==> (r.value.VNone? <==> color.VNone? && colour.VNone?)
    ensures r.Ok? && !color.VNone? ==> r.value == color
    ensures r.Ok? && !colour.VNone? ==> r.value == colour
  {
    if !color.VNone? && !colour.VNone? then Raise("Either color or colour")
    else if color.VNone? then Ok(colour)
    else Ok(color)
  }

  /** What `__init__` leaves in a new embed. */
  function InitialState(title: Value, description: Value, color: Value, url: Value, timestamp: Value): (s: EmbedState)
    ensures s.fields == [] && s.colour.None? && s.embedType.VNone?
    ensures s.thumbnail == s.image == s.video == s.provider == s.author == s.footer == VDict([])
  {
    EmbedState(title, description, color, None, url, timestamp, [],
               VDict([]), VDict([]), VDict([]), VDict([]), VDict([]), VDict([]), VNone)
  }

  /** `EmbedField(**field)` for each element in order; the first failure propagates. */
  function FieldsFrom(items: seq<Value>): (r: Result<seq<Value>>)
    ensures r.Ok? ==> |r.value| == |items|
    decreases |items|
  {
    if |items| == 0 then Ok([])
    else
      match FieldsFrom(items[..|items| - 1])
      case Err(e) => Err(e)
      case Ok(prev) =>
        match CallWithKwargs("EmbedField", FIELD, items[|items| - 1])
        case Err(e) => Err(e)
        case Ok(f) => Ok(prev + [f])
  }

  /** `from_dict` as written: the footer is parsed with EmbedAuthor's attributes. */
  function FooterFromDict(v: Value): (r: Value)
    ensures r.VNone? || (r.VObj? && r.cls == "EmbedAuthor")
    ensures v.VNone? ==> r == VNone
    ensures v.VDict? && "text" in PyDict.Keys(v.entries) ==> r == VNone
  {
    assert Names(AUTHOR) == ["name", "url", "icon_url", "proxy_icon_url"];
    assert AUTHOR[0].required;
    MakeOptionalWith("EmbedAuthor", AUTHOR, v)
  }

  /** `from_dict` on a decoded embed object. */
  function FromDictState(data: Value): (r: Result<EmbedState>)
    ensures r.Ok? ==> data.VDict?
  {
    if !data.VDict? then Fail(AttributeError)
    else
      match Iterated(Get(data, "fields", VList([])).value)
      case Err(e) => Err(e)
      case Ok(items) =>
        match FieldsFrom(items)
        case Err(e) => Err(e)
        case Ok(fields) =>
          Ok(EmbedState(
            Get1(data, "title").value,
            Get1(data, "description").value,
            Get1(data, "color").value,
            Some(Get1(data, "color").value),
            Get1(data, "url").value,
            Get1(data, "timestamp").value,
            fields,
            MakeOptionalWith("EmbedThumbnail", MEDIA, Get(data, "thumbnail", VDict([])).value),
            MakeOptionalWith("EmbedImage", MEDIA, Get(data, "image", VDict([])).value),
            MakeOptionalWith("EmbedVideo", MEDIA, Get(data, "video", VDict([])).value),
            MakeOptionalWith("EmbedProvider", PROVIDER, Get1(data, "provider").value),
            MakeOptionalWith("EmbedAuthor", AUTHOR, Get1(data, "author").value),
            FooterFromDict(Get1(data, "footer").value),
            Get1(data, "type").value))
  }

  /** `from_dict` sets both spellings of the colour from "color". */
  lemma FromDictColour(data: Value)
    requires FromDictState(data).Ok?
    ensures FromDictState(data).value.colour == Some(FromDictState(data).value.color)
    ensures FromDictState(data).value.color == Get1(data, "color").value
  {
  }

  /** Fields are built from the "fields" list in input order, and one element that
      is not valid EmbedField arguments makes the whole call raise. */
  lemma {:induction false} FieldsFromInOrder(items: seq<Value>)
    ensures FieldsFrom(items).Ok? <==> forall i :: 0 <= i < |items| ==> CallWithKwargs("EmbedField", FIELD, items[i]).Ok?
    ensures FieldsFrom(items).Ok? ==>
      forall i :: 0 <= i < |items| ==> FieldsFrom(items).value[i] == CallWithKwargs("EmbedField", FIELD, items[i]).value
    decreases |items|
  {
    if |items| > 0 {
      var init := items[..|items| - 1];
      var c := CallWithKwargs("EmbedField", FIELD, items[|items| - 1]);
      FieldsFromInOrder(init);
      if FieldsFrom(init).Err? {
        var j :| 0 <= j < |init| && CallWithKwargs("EmbedField", FIELD, init[j]).Err?;
        assert init[j] == items[j];
      } else if c.Ok? {
        assert FieldsFrom(items) == Ok(FieldsFrom(init).value + [c.value]);
        forall i | 0 <= i < |items|
          ensures CallWithKwargs("EmbedField", FIELD, items[i]).Ok?
          ensures FieldsFrom(items).value[i] == CallWithKwargs("EmbedField", FIELD, items[i]).value
        {
          if i < |init| {
            assert init[i] == items[i];
          }
        }
      }
    }
  }

  /** Absent components: no thumbnail, image or video gives None (their url is
      required), but no provider still gives an EmbedProvider with both attributes None. */
  lemma FromDictAbsentComponents(data: Value)
    requires data.VDict? && PyDict.Keys(data.entries) == []
    ensures FromDictState(data).Ok?
    ensures var s := FromDictState(data).value;
      && s.fields == []
      && s.thumbnail == VNone && s.image == VNone && s.video == VNone
      && s.provider == VObj("EmbedProvider", [("name", VNone), ("url", VNone)])
      && s.author == VNone && s.footer == VNone
  {
    assert data.entries == [];
    assert Filled(PROVIDER, []) == [("name", VNone), ("url", VNone)];
    assert MEDIA[0].required && MEDIA[0].name !in PyDict.Keys(data.entries);
    assert AUTHOR[0].required && AUTHOR[0].name !in PyDict.Keys(data.entries);
  }

  /** An EmbedField instance that `to_dict` and `EmbedField(**d)` rebuild unchanged. */
  predicate FieldRoundTrips(f: Value)
  {
    f.VObj? && Construct("EmbedField", FIELD, Utils.ObjToDict(f.attrs, [])) == Ok(f)
  }

  /** `to_dict` on a list with one more element. */
  lemma ObjectDictsSnoc(xs: seq<Value>, x: Value)
    ensures ObjectDicts(xs + [x]) == ObjectDicts(xs) + (if Utils.IsObject(x) then [VDict(Utils.ObjToDict(x.attrs, []))] else [])
  {
    assert (xs + [x])[..|xs|] == xs;
  }

  /** Building the fields of a list with one more element. */
  lemma FieldsFromSnoc(xs: seq<Value>, x: Value)
    requires FieldsFrom(xs).Ok? && CallWithKwargs("EmbedField", FIELD, x).Ok?
    ensures FieldsFrom(xs + [x]) == Ok(FieldsFrom(xs).value + [CallWithKwargs("EmbedField", FIELD, x).value])
  {
    assert (xs + [x])[..|xs|] == xs;
  }

  /** Fields written by `to_dict` are read back unchanged by `from_dict`. */
  lemma {:induction false} FieldsRoundTrip(fields: seq<Value>)
    requires forall i :: 0 <= i < |fields| ==> FieldRoundTrips(fields[i])
    ensures FieldsFrom(ObjectDicts(fields)) == Ok(fields)
    decreases |fields|
  {
    if |fields| > 0 {
      var init := fields[..|fields| - 1];
      var last := fields[|fields| - 1];
      assert FieldRoundTrips(last);
      assert fields == init + [last];
      FieldsRoundTrip(init);
      var item := VDict(Utils.ObjToDict(last.attrs, []));
      ObjectDictsSnoc(init, last);
      FieldsFromSnoc(ObjectDicts(init), item);
    }
  }

  /** Every field `add_field` or `edit_field` builds survives `to_dict` and `from_dict`. */
  lemma FieldRoundTrip(name: Value, value: Value, inline: Value)
    ensures FieldRoundTrips(Field(name, value, inline))
  {
    var f := Field(name, value, inline);
    SpecsPublicDistinct();
    ConstructRoundTrip("EmbedField", FIELD, [("name", name), ("value", value), ("inline", inline)]);
  }

  /** As written, a footer that `to_dict` produced from `set_footer` is lost by
      `from_dict`: "text" is not an EmbedAuthor attribute and "name" is missing. */
  lemma FooterLostByFromDict(text: string, iconUrl: Value, proxyIconUrl: Value)
    ensures FooterFromDict(VDict(Utils.ObjToDict(Footer(text, iconUrl, proxyIconUrl).attrs, []))) == VNone
  {
    var kw := [("text", VStr(text)), ("icon_url", iconUrl), ("proxy_icon_url", proxyIconUrl)];
    var f := Footer(text, iconUrl, proxyIconUrl);
    SpecsPublicDistinct();
    assert f.attrs == Filled(FOOTER, kw);
    ObjToDictKeepsPublic(f.attrs);
    assert PyDict.Keys(f.attrs)[0] == "text";
    assert "text" !in Names(AUTHOR);
  }

  /** The footer parse `from_dict` evidently intends: with EmbedFooter's attributes. */
  function FooterFromDictIntended(v: Value): (r: Value)
    ensures r.VNone? || (r.VObj? && r.cls == "EmbedFooter")
    ensures v.VNone? ==> r == VNone
    ensures v.VDict? ==> (r.VObj? <==> (&& "text" in PyDict.Keys(v.entries)
                                        && forall k :: k in PyDict.Keys(v.entries) ==> k in ["text", "icon_url", "proxy_icon_url"]))
    ensures v.VDict? && r.VObj? ==> r == VObj("EmbedFooter", Filled(FOOTER, v.entries))
  {
    assert Names(FOOTER) == ["text", "icon_url", "proxy_icon_url"];
    assert FOOTER[0].required;
    MakeOptionalWith("EmbedFooter", FOOTER, v)
  }

  /** With EmbedFooter's attributes, a footer survives `to_dict` and `from_dict`. */
  lemma FooterRoundTripIntended(text: string, iconUrl: Value, proxyIconUrl: Value)
    ensures FooterFromDictIntended(VDict(Utils.ObjToDict(Footer(text, iconUrl, proxyIconUrl).attrs, [])))
            == Footer(text, iconUrl, proxyIconUrl)
  {
    var f := Footer(text, iconUrl, proxyIconUrl);
    SpecsPublicDistinct();
    ConstructRoundTrip("EmbedFooter", FOOTER, [("text", VStr(text)), ("icon_url", iconUrl), ("proxy_icon_url", proxyIconUrl)]);
  }

  // ---------------------------------------------------------------------------
  // The Embed object

  class Embed {
    var title: Value
    var description: Value
    var color: Value
    var colour: Option<Value>
    var url: Value
    var timestamp: Value
    var fields: seq<Value>     // `_fields`: EmbedField instances
    var thumbnail: Value       // `_thumbnail` ... `_footer`: {} until set
    var image: Value
    var video: Value
    var provider: Value
    var author: Value
    var footer: Value
    var embedType: Value       // `type`

    function State(): EmbedState
      reads this
    {
      EmbedState(title, description, color, colour, url, timestamp, fields,
                 thumbnail, image, video, provider, author, footer, embedType)
    }

    /** An instance holding `s` (`object.__new__` plus attribute assignments). */
    constructor (s: EmbedState)
      ensures State() == s
    {
      title, description, color, colour, url, timestamp := s.title, s.description, s.color, s.colour, s.url, s.timestamp;
      fields := s.fields;
      thumbnail, image, video, provider, author, footer := s.thumbnail, s.image, s.video, s.provider, s.author, s.footer;
      embedType := s.embedType;
    }

    /** `Embed(title, description=, color=, colour=, url=, timestamp=)` */
    static method New(title: Value, description: Value, color: Value, colour: Value, url: Value, timestamp: Value)
      returns (r: Result<Embed>)
      ensures ChosenColor(color, colour).Err? ==> r == Err(ChosenColor(color, colour).error)
      ensures ChosenColor(color, colour).Ok? ==>
        r.Ok? && fresh(r.value)
        && r.value.State() == InitialState(title, description, ChosenColor(color, colour).value, url, timestamp)
    {
      var c := ChosenColor(color, colour);
      if c.Err? {
        return Err(c.error);
      }
      var e := new Embed(InitialState(title, description, c.value, url, timestamp));
      r := Ok(e);
    }

    /** `Embed.from_dict(data)`: fields are appended one by one after the other attributes. */
    static method FromDict(data: Value) returns (r: Result<Embed>)
      ensures FromDictState(data).Err? ==> r == Err(FromDictState(data).error)
      ensures FromDictState(data).Ok? ==> r.Ok? && fresh(r.value) && r.value.State() == FromDictState(data).value
    {
      if !data.VDict? {
        return Fail(AttributeError);
      }
      var source := Iterated(Get(data, "fields", VList([])).value);
      if source.Err? {
        return Err(source.error);
      }
      var items := source.value;
      var built: seq<Value> := [];
      var i := 0;
      while i < |items|
        invariant 0 <= i <= |items|
        invariant FieldsFrom(items[..i]) == Ok(built)
      {
        assert items[..i + 1][..i] == items[..i];
        var field := CallWithKwargs("EmbedField", FIELD, items[i]);
        if field.Err? {
          assert FieldsFrom(items[..i + 1]).Err?;
          FieldsFromFailsOnPrefix(items, i + 1);
          return Err(field.error);
        }
        built := built + [field.value];
        i := i + 1;
      }
      assert items[..i] == items;
      var s := FromDictState(data).value;
      var e := new Embed(s);
      r := Ok(e);
    }

    /** `set_provider(name, url)` */
    method SetProvider(name: Value, url: Value) returns (self: Embed)
      modifies this
      ensures self == this
      ensures State() == old(State()).(provider := Provider(name, url))
    {
      provider := Provider(name, url);
      self := this;
    }

    /** `set_image(url, proxy_url, height, width)`: the url is stored as given. */
    method SetImage(url: Value, proxyUrl: Value, height: Value, width: Value) returns (self: Embed)
      modifies this
      ensures self == this
      ensures State() == old(State()).(image := Media("EmbedImage", url, proxyUrl, height, width))
    {
      image := Media("EmbedImage", url, proxyUrl, height, width);
      self := this;
    }

    /** `set_footer(text, icon_url, proxy_icon_url)`: the text is passed through `str`. */
    method SetFooter(text: Value, iconUrl: Value, proxyIconUrl: Value) returns (self: Embed)
      modifies this
      ensures self == this
      ensures State() == old(State()).(footer := Footer(Str(text), iconUrl, proxyIconUrl))
    {
      footer := Footer(Str(text), iconUrl, proxyIconUrl);
      self := this;
    }

    /** `set_thumbnail(url, proxy_url, height, width)`: the url is passed through `str`. */
    method SetThumbnail(url: Value, proxyUrl: Value, height: Value, width: Value) returns (self: Embed)
      modifies this
      ensures self == this
      ensures State() == old(State()).(thumbnail := Media("EmbedThumbnail", VStr(Str(url)), proxyUrl, height, width))
    {
      thumbnail := Media("EmbedThumbnail", VStr(Str(url)), proxyUrl, height, width);
      self := this;
    }

    /** `set_author(name, url, icon_url, proxy_icon_url)`: the name is passed through `str`. */
    method SetAuthor(name: Value, url: Value, iconUrl: Value, proxyIconUrl: Value) returns (self: Embed)
      modifies this
      ensures self == this
      ensures State() == old(State()).(author := Author(Str(name), url, iconUrl, proxyIconUrl))
    {
      author := Author(Str(name), url, iconUrl, proxyIconUrl);
      self := this;
    }

    /** `add_field(name, value, inline=False)`: one field at the end, with `str`
        name and value and a `bool` inline. */
    method AddField(name: Value, value: Value, inline: Value) returns (self: Embed)
      modifies this
      ensures self == this
      ensures State() == old(State()).(fields := old(fields) + [Field(VStr(Str(name)), VStr(Str(value)), VBool(Truthy(inline)))])
    {
      fields := fields + [Field(VStr(Str(name)), VStr(Str(value)), VBool(Truthy(inline)))];
      self := this;
    }

    /** `delete_field(index)`: pops the field at a Python index; IndexError is
        swallowed and the list is left as it was. */
    method DeleteField(index: int) returns (self: Embed)
      modifies this
      ensures self == this
      ensures PyLists.PopAt(old(fields), index).Ok? ==> State() == old(State()).(fields := PyLists.PopAt(old(fields), index).value.0)
      ensures PyLists.PopAt(old(fields), index).Err? ==> State() == old(State())
    {
      var popped := PyLists.PopAt(fields, index);
      if popped.Ok? {
        fields := popped.value.0;
      }
      self := this;
    }

    /** `edit_field(index, name, value, inline=False)`: replaces the field at a Python
        index with the values as given and returns the embed; out of range it
        returns None. */
    method EditField(index: int, name: Value, value: Value, inline: Value) returns (r: Option<Embed>)
      modifies this
      ensures PyLists.SetAt(old(fields), index, Field(name, value, inline)).Ok? ==>
        r == Some(this) && State() == old(State()).(fields := PyLists.SetAt(old(fields), index, Field(name, value, inline)).value)
      ensures PyLists.SetAt(old(fields), index, Field(name, value, inline)).Err? ==>
        r == None && State() == old(State())
    {
      var field := Field(name, value, inline);
      var updated := PyLists.SetAt(fields, index, field);
      if updated.Err? {
        return None;
      }
      fields := updated.value;
      r := Some(this);
    }

    /** The value `to_dict()` stores for one attribute: a list keeps its object
        elements as dicts, an object becomes a dict, anything else stays. */
    static method ConvertValue(value: Value) returns (r: Value)
      ensures r == Converted(value)
    {
      if value.VList? {
        var items := value.items;
        var converted: seq<Value> := [];
        var j := 0;
        while j < |items|
          invariant 0 <= j <= |items|
          invariant converted == ObjectDicts(items[..j])
        {
          assert items[..j + 1][..j] == items[..j];
          if Utils.IsObject(items[j]) {
            var d := Utils.FromObjToDict(items[j], None);
            converted := converted + [d.value];
          }
          j := j + 1;
        }
        assert items[..j] == items;
        r := VList(converted);
      } else if Utils.IsObject(value) {
        var d := Utils.FromObjToDict(value, None);
        r := d.value;
      } else {
        r := value;
      }
    }

    /** One pass of the `to_dict()` loop: a private name loses its leading
        underscores, and the value is converted. */
    static method Entry(name: string, value: Value) returns (key: string, converted: Value)
      ensures key == StripKey(name) && converted == Converted(value)
    {
      key := name;
      if StartsWith(key, "_") {
        key := Strip(key, '_');
      }
      converted := ConvertValue(value);
    }

    /** `to_dict()`: each attribute in `__dict__` order under its stripped name;
        lists keep their object elements as dicts, objects become dicts. */
    method ToDict() returns (r: Value)
      ensures r == VDict(EmbedDict(Attributes(State())))
    {
      var attrs := Attributes(State());
      var args: seq<(string, Value)> := [];
      var i := 0;
      while i < |attrs|
        invariant 0 <= i <= |attrs|
        invariant args == EmbedDict(attrs[..i])
      {
        var key, converted := Entry(attrs[i].0, attrs[i].1);
        EmbedDictSnoc(attrs, i);
        args := PyDict.Set(args, key, converted);
        i := i + 1;
      }
      assert attrs[..i] == attrs;
      r := VDict(args);
    }
  }

  /** Once a prefix fails, the whole list fails with the same error. */
  lemma {:induction false} FieldsFromFailsOnPrefix(items: seq<Value>, n: nat)
    requires n <= |items| && FieldsFrom(items[..n]).Err?
    ensures FieldsFrom(items) == FieldsFrom(items[..n])
    decreases |items| - n
  {
    if n < |items| {
      assert items[..n + 1][..n] == items[..n];
      FieldsFromFailsOnPrefix(items, n + 1);
    } else {
      assert items[..n] == items;
    }
  }
}
