/** Helpers shared by the models (bhaicord/utils.py): the CDN file extension,
    the snowflake timestamp, object-to-dict conversion and `generate_repr_`. */
module Utils {
  import opened Wrappers
  import opened PyStrings
  import opened PyValues
  import PyDict

  // ---------------------------------------------------------------------------
  // `add_ext`

  /** `add_ext`: an animated hash ("a_" prefix) names a GIF, any other a PNG. The
      hash itself is kept in front of the extension. */
  function AddExt(hash: string): (r: string)
    ensures |r| == |hash| + 4 && r[..|hash|] == hash
    ensures r[|hash|..] == ".gif" <==> StartsWith(hash, "a_")
    ensures r[|hash|..] == ".png" <==> !StartsWith(hash, "a_")
  {
    if StartsWith(hash, "a_") then hash + ".gif" else hash + ".png"
  }

  // ---------------------------------------------------------------------------
  // `snowflake_to_date`

  /** The first millisecond of 2015, from which snowflake timestamps count. */
  const DISCORD_EPOCH: int := 1420070400000

  /** 2 to the 22nd: a snowflake keeps its timestamp above its low 22 bits. */
  const TIMESTAMP_SHIFT: int := 0x40_0000

  /** The integer milliseconds `snowflake_to_date` computes: `int(snowflake) >> 22`
      plus the epoch (Python's `>>` floors, as Euclidean division by 2^22 does). */
  function SnowflakeMs(snowflake: Value): (r: Result<int>)
    ensures r.Ok? <==> ToInt(snowflake).Ok?
    ensures r.Ok? ==>
      var id := ToInt(snowflake).value;
      (r.value - DISCORD_EPOCH) * TIMESTAMP_SHIFT <= id < (r.value - DISCORD_EPOCH + 1) * TIMESTAMP_SHIFT
  {
    match ToInt(snowflake)
    case Err(e) => Err(e)
    case Ok(id) => Ok(id / TIMESTAMP_SHIFT + DISCORD_EPOCH)
  }

  /** A snowflake made from a timestamp and any low 22 bits (worker, process,
      increment) gives back the timestamp, whether passed as an int or a string. */
  lemma SnowflakeTimestamp(ms: int, low: int)
    requires 0 <= low < TIMESTAMP_SHIFT
    ensures SnowflakeMs(VInt((ms - DISCORD_EPOCH) * TIMESTAMP_SHIFT + low)) == Ok(ms)
    ensures SnowflakeMs(VStr(IntToString((ms - DISCORD_EPOCH) * TIMESTAMP_SHIFT + low))) == Ok(ms)
  {
    var id := (ms - DISCORD_EPOCH) * TIMESTAMP_SHIFT + low;
    ShiftBack(ms - DISCORD_EPOCH, low);
    assert SnowflakeMs(VInt(id)) == Ok(ms);
    ToIntOfStr(id);
  }

  /** Shifting right by 22 bits undoes shifting left and adding low bits. */
  lemma ShiftBack(q: int, low: int)
    requires 0 <= low < TIMESTAMP_SHIFT
    ensures (q * TIMESTAMP_SHIFT + low) / TIMESTAMP_SHIFT == q
  {
    var x := q * TIMESTAMP_SHIFT + low;
    var d := x / TIMESTAMP_SHIFT;
    assert x == d * TIMESTAMP_SHIFT + x % TIMESTAMP_SHIFT;
    assert (d - q) * TIMESTAMP_SHIFT == low - x % TIMESTAMP_SHIFT;
  }

  // ---------------------------------------------------------------------------
  // `is_object` and `from_obj_to_dict`

  /** `is_object`: only instances carry `__dict__` or `__slots__`; None, numbers,
      strings, lists and dicts do not. */
  predicate IsObject(v: Value)
    ensures IsObject(v) ==> !(v.VNone? || v.VBool? || v.VInt? || v.VStr? || v.VList? || v.VDict?)
  {
    v.VObj?
  }

  /** `key not in ignore and not key.startswith("_")` */
  predicate Kept(key: string, ignore: seq<string>)
  {
    key !in ignore && !StartsWith(key, "_")
  }

  /** The dict `from_obj_to_dict` builds from an object's attributes, in order. */
  function ObjToDict(attrs: seq<(string, Value)>, ignore: seq<string>): (r: seq<(string, Value)>)
    ensures forall k :: k in PyDict.Keys(r) ==> Kept(k, ignore)
    decreases |attrs|
  {
    if |attrs| == 0 then []
    else
      var prev := ObjToDict(attrs[..|attrs| - 1], ignore);
      var (key, value) := attrs[|attrs| - 1];
      PyDict.KeysOfSet(prev, key, value);
      if Kept(key, ignore) then PyDict.Set(prev, key, value) else prev
  }

  /** The result holds exactly the attributes that are neither private nor
      ignored, each with its value. */
  lemma {:induction false} ObjToDictLookup(attrs: seq<(string, Value)>, ignore: seq<string>, key: string)
    requires PyDict.DistinctKeys(attrs)
    ensures PyDict.Lookup(ObjToDict(attrs, ignore), key)
            == if Kept(key, ignore) then PyDict.Lookup(attrs, key) else None
    decreases |attrs|
  {
    if |attrs| > 0 {
      var init := attrs[..|attrs| - 1];
      var (k, v) := attrs[|attrs| - 1];
      assert attrs == init + [(k, v)];
      assert PyDict.DistinctKeys(init);
      ObjToDictLookup(init, ignore, key);
      PyDict.LookupAppend(init, k, v, key);
      if Kept(k, ignore) {
        PyDict.LookupSet(ObjToDict(init, ignore), k, v, key);
        if key == k {
          assert k !in PyDict.Keys(init) by {
            forall i | 0 <= i < |init| ensures init[i].0 != k {
              assert attrs[i].0 != attrs[|attrs| - 1].0;
            }
          }
        }
      }
    }
  }

  /** `from_obj_to_dict(obj, ignore=ignore)`: a non-object has no `__slots__` to
      fall back on and raises AttributeError. */
  method FromObjToDict(obj: Value, ignore: Option<seq<string>>) returns (r: Result<Value>)
    ensures !obj.VObj? ==> r.Err? && r.error.kind == AttributeError
    ensures obj.VObj? ==> r == Ok(VDict(ObjToDict(obj.attrs, if ignore.Some? then ignore.value else [])))
  {
    var skip := if ignore.Some? then ignore.value else [];
    if !obj.VObj? {
      return Fail(AttributeError);
    }
    var data := obj.attrs;
    var result: seq<(string, Value)> := [];
    var i := 0;
    while i < |data|
      invariant 0 <= i <= |data|
      invariant result == ObjToDict(data[..i], skip)
    {
      assert data[..i + 1][..i] == data[..i];
      var (key, value) := data[i];
      if key !in skip && !StartsWith(key, "_") {
        result := PyDict.Set(result, key, value);
      }
      i := i + 1;
    }
    assert data[..i] == data;
    r := Ok(VDict(result));
  }

  // ---------------------------------------------------------------------------
  // `Utilities.generate_repr_`

  /** The attributes chosen for display, in attribute order: all of them, or those
      named in `names`. */
  function Selected(attrs: seq<(string, Value)>, allAttributes: bool, names: seq<string>): seq<(string, Value)>
    decreases |attrs|
  {
    if |attrs| == 0 then []
    else
      var prev := Selected(attrs[..|attrs| - 1], allAttributes, names);
      var a := attrs[|attrs| - 1];
      if allAttributes || a.0 in names then prev + [a] else prev
  }

  /** `check(value)` inside an f-string: strings in single quotes, anything else its `str`. */
  function Shown(v: Value): string
  {
    if v.VStr? then "'" + v.s + "'" else Str(v)
  }

  /** The `name=value` parts, dropping None values unless `allowNone`. */
  function Rendered(pairs: seq<(string, Value)>, allowNone: bool): seq<string>
    decreases |pairs|
  {
    if |pairs| == 0 then []
    else
      var prev := Rendered(pairs[..|pairs| - 1], allowNone);
      var (name, value) := pairs[|pairs| - 1];
      if value.VNone? && !allowNone then prev else prev + [name + "=" + Shown(value)]
  }

  /** The pairs whose value is not None. */
  function WithoutNone(pairs: seq<(string, Value)>): seq<(string, Value)>
    decreases |pairs|
  {
    if |pairs| == 0 then []
    else
      var prev := WithoutNone(pairs[..|pairs| - 1]);
      if pairs[|pairs| - 1].1.VNone? then prev else prev + [pairs[|pairs| - 1]]
  }

  /** Disallowing None is the same as rendering only the non-None pairs; allowing it
      renders one part per pair. */
  lemma {:induction false} RenderedDropsNone(pairs: seq<(string, Value)>)
    ensures Rendered(pairs, false) == Rendered(WithoutNone(pairs), true)
    ensures |Rendered(pairs, true)| == |pairs|
    decreases |pairs|
  {
    if |pairs| > 0 {
      var init := pairs[..|pairs| - 1];
      RenderedDropsNone(init);
      var w := WithoutNone(init);
      if !pairs[|pairs| - 1].1.VNone? {
        var w' := w + [pairs[|pairs| - 1]];
        assert w'[..|w'| - 1] == w;
      }
    }
  }

  /** With None allowed every pair gives one part, in order: its name, "=",
      then its value as `check` shows it, a string between single quotes. */
  lemma {:induction false} RenderedParts(pairs: seq<(string, Value)>)
    ensures |Rendered(pairs, true)| == |pairs|
    ensures forall i :: 0 <= i < |pairs| ==> Rendered(pairs, true)[i] == pairs[i].0 + "=" + Shown(pairs[i].1)
    ensures forall i :: 0 <= i < |pairs| && pairs[i].1.VStr? ==>
              Rendered(pairs, true)[i] == pairs[i].0 + "='" + pairs[i].1.s + "'"
    decreases |pairs|
  {
    if |pairs| > 0 {
      var init, last := pairs[..|pairs| - 1], pairs[|pairs| - 1];
      RenderedParts(init);
      var prev := Rendered(init, true);
      assert Rendered(pairs, true) == prev + [last.0 + "=" + Shown(last.1)];
      forall i | 0 <= i < |pairs|
        ensures Rendered(pairs, true)[i] == pairs[i].0 + "=" + Shown(pairs[i].1)
      {
        if i < |init| {
          assert pairs[i] == init[i];
        }
      }
    }
  }

  /** The pairs kept when None is not allowed are exactly those whose value is
      not None. */
  lemma {:induction false} WithoutNoneKeeps(pairs: seq<(string, Value)>)
    ensures forall p :: p in WithoutNone(pairs) <==> p in pairs && !p.1.VNone?
    decreases |pairs|
  {
    if |pairs| > 0 {
      var init := pairs[..|pairs| - 1];
      WithoutNoneKeeps(init);
      assert pairs == init + [pairs[|pairs| - 1]];
    }
  }

  /** Choosing all attributes keeps every one; choosing by name keeps exactly the
      named ones. */
  lemma {:induction false} SelectedMembers(attrs: seq<(string, Value)>, allAttributes: bool, names: seq<string>)
    ensures allAttributes ==> Selected(attrs, allAttributes, names) == attrs
    ensures forall a :: a in Selected(attrs, allAttributes, names) <==> a in attrs && (allAttributes || a.0 in names)
    decreases |attrs|
  {
    if |attrs| > 0 {
      var init := attrs[..|attrs| - 1];
      SelectedMembers(init, allAttributes, names);
      assert attrs == init + [attrs[|attrs| - 1]];
    }
  }

  /** One more attribute in the first loop of `generate_repr_`. */
  lemma SelectedStep(attrs: seq<(string, Value)>, i: nat, allAttributes: bool, names: seq<string>)
    requires i < |attrs|
    ensures Selected(attrs[..i + 1], allAttributes, names)
            == Selected(attrs[..i], allAttributes, names)
               + (if allAttributes || attrs[i].0 in names then [attrs[i]] else [])
  {
    assert attrs[..i + 1][..i] == attrs[..i];
  }

  /** One more pair in the second loop of `generate_repr_`. */
  lemma RenderedStep(pairs: seq<(string, Value)>, j: nat, allowNone: bool)
    requires j < |pairs|
    ensures Rendered(pairs[..j + 1], allowNone)
            == Rendered(pairs[..j], allowNone)
               + (if pairs[j].1.VNone? && !allowNone then [] else [pairs[j].0 + "=" + Shown(pairs[j].1)])
  {
    assert pairs[..j + 1][..j] == pairs[..j];
  }

  /** What an object offers `generate_repr_`: its `__dict__`, if it has one, and
      its `__slots__`, if its class declares them, each slot paired with
      `getattr(self, slot, None)`. */
  datatype ReprSource = ReprSource(dict: Option<seq<(string, Value)>>, slots: Option<seq<(string, Value)>>)

  /** `self.__dict__ or self.__slots__`: an object without a `__dict__` raises
      AttributeError at once; an empty one falls back on the slots, which raise
      AttributeError when the class declares none. */
  function AttrsOf(src: ReprSource): (r: Result<seq<(string, Value)>>)
    ensures r.Err? <==> src.dict.None? || (src.dict.value == [] && src.slots.None?)
    ensures r.Err? ==> r.error.kind == AttributeError
    ensures r.Ok? && src.dict.value != [] ==> r.value == src.dict.value
    ensures r.Ok? && src.dict.value == [] ==> r.value == src.slots.value
  {
    match src.dict
    case None => Fail(AttributeError)
    case Some(d) =>
      if d != [] then Ok(d)
      else if src.slots.None? then Fail(AttributeError)
      else Ok(src.slots.value)
  }

  /** Both `all_attributes` and a non-empty `attributes`, or neither. */
  predicate ReprArgsClash(allAttributes: bool, attributes: Option<seq<string>>)
  {
    var named := attributes.Some? && attributes.value != [];
    allAttributes == named
  }

  /** `generate_repr_` on an object of class `cls`. */
  function ReprOf(cls: string, src: ReprSource, allAttributes: bool,
                  attributes: Option<seq<string>>, allowNone: bool): (r: Result<string>)
    ensures r.Err? <==> ReprArgsClash(allAttributes, attributes) || AttrsOf(src).Err?
    ensures ReprArgsClash(allAttributes, attributes) ==> r.Err? && r.error.kind == Exception
    ensures !ReprArgsClash(allAttributes, attributes) && AttrsOf(src).Err? ==> r == Fail(AttributeError)
    ensures r.Ok? ==> StartsWith(r.value, "<" + cls + " ") && r.value[|r.value| - 1] == '>'
  {
    var named := attributes.Some? && attributes.value != [];
    if allAttributes && named then Raise("You cannot use both")
    else if !allAttributes && !named then Raise("You need to use at least one")
    else
      var names := if attributes.Some? then attributes.value else [];
      match AttrsOf(src)
      case Err(e) => Err(e)
      case Ok(attrs) => Ok(ReprText(cls, Rendered(Selected(attrs, allAttributes, names), allowNone)))
  }

  /** The text of a repr: the class name, then one `name=value` part per chosen
      attribute in attribute order, joined by single spaces, the `None`-valued
      ones left out unless `allowNone`. */
  lemma ReprOfText(cls: string, src: ReprSource, allAttributes: bool,
                   attributes: Option<seq<string>>, allowNone: bool)
    requires ReprOf(cls, src, allAttributes, attributes, allowNone).Ok?
    ensures var names := if attributes.Some? then attributes.value else [];
      var chosen := Selected(AttrsOf(src).value, allAttributes, names);
      var shown := if allowNone then chosen else WithoutNone(chosen);
      var parts := Rendered(shown, true);
      && ReprOf(cls, src, allAttributes, attributes, allowNone).value == "<" + cls + " " + Join(parts, " ") + ">"
      && |parts| == |shown|
      && (forall i :: 0 <= i < |shown| ==> parts[i] == shown[i].0 + "=" + Shown(shown[i].1))
      && (forall p :: p in shown <==> p in AttrsOf(src).value && (allAttributes || p.0 in names) && (allowNone || !p.1.VNone?))
  {
    var names := if attributes.Some? then attributes.value else [];
    var chosen := Selected(AttrsOf(src).value, allAttributes, names);
    RenderedDropsNone(chosen);
    SelectedMembers(AttrsOf(src).value, allAttributes, names);
    WithoutNoneKeeps(chosen);
    RenderedParts(if allowNone then chosen else WithoutNone(chosen));
  }

  /** `f"<{cls} {' '.join(parts)}>"` */
  function ReprText(cls: string, parts: seq<string>): (s: string)
    ensures StartsWith(s, "<" + cls + " ") && s[|s| - 1] == '>'
  {
    var s := "<" + cls + " " + Join(parts, " ") + ">";
    assert s[..|"<" + cls + " "|] == "<" + cls + " ";
    s
  }

  method GenerateRepr(cls: string, src: ReprSource, allAttributes: bool,
                      attributes: Option<seq<string>>, allowNone: bool) returns (r: Result<string>)
    ensures r == ReprOf(cls, src, allAttributes, attributes, allowNone)
  {
    var named := attributes.Some? && attributes.value != [];
    if allAttributes && named {
      return Raise("You cannot use both");
    }
    if !allAttributes && !named {
      return Raise("You need to use at least one");
    }
    var names := if attributes.Some? then attributes.value else [];
    if src.dict.None? {
      return Fail(AttributeError);
    }
    var attrs := src.dict.value;
    if attrs == [] {
      if src.slots.None? {
        return Fail(AttributeError);
      }
      attrs := src.slots.value;
    }
    var arguments: seq<(string, Value)> := [];
    var i := 0;
    while i < |attrs|
      invariant 0 <= i <= |attrs|
      invariant arguments == Selected(attrs[..i], allAttributes, names)
    {
      SelectedStep(attrs, i, allAttributes, names);
      if !allAttributes {
        if attrs[i].0 in names {
          arguments := arguments + [attrs[i]];
        }
      } else {
        arguments := arguments + [attrs[i]];
      }
      i := i + 1;
    }
    assert attrs[..i] == attrs;
    var newArgs: seq<string> := [];
    var j := 0;
    while j < |arguments|
      invariant 0 <= j <= |arguments|
      invariant newArgs == Rendered(arguments[..j], allowNone)
    {
      RenderedStep(arguments, j, allowNone);
      var (arg, value) := arguments[j];
      if value.VNone? && !allowNone {
        j := j + 1;
        continue;
      }
      newArgs := newArgs + [arg + "=" + Shown(value)];
      j := j + 1;
    }
    assert arguments[..j] == arguments;
    r := Ok(ReprText(cls, newArgs));
  }
}
