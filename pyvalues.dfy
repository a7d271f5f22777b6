/** The Python values the library passes around: decoded JSON payloads,
    keyword arguments and objects, with the built-in operations it applies
    to them (truthiness, `str`, `repr`, `int`, `==`, subscription, `.get`). */
module PyValues {
  import opened Wrappers
  import opened PyStrings
  import PyDict

  /** An element of a Python `bytes`/`bytearray`. */
  newtype byte = x: int | 0 <= x < 256

  datatype Value =
    | VNone
    | VBool(b: bool)
    | VInt(i: int)
    | VStr(s: string)
    | VList(items: seq<Value>)
    | VDict(entries: seq<(string, Value)>)        // insertion ordered
    | VObj(cls: string, attrs: seq<(string, Value)>)  // an instance: class name and its attributes in order

  /** `bool(v)`: None, False, 0 and empty containers are false; objects are true. */
  predicate Truthy(v: Value)
  {
    match v
    case VNone => false
    case VBool(b) => b
    case VInt(i) => i != 0
    case VStr(s) => s != ""
    case VList(items) => items != []
    case VDict(entries) => entries != []
    case VObj(_, _) => true
  }

  /** `bool` is a subclass of `int` in Python: False is 0 and True is 1. */
  function BoolToInt(b: bool): int
  {
    if b then 1 else 0
  }

  /** `v == n` for an int `n`. */
  predicate EqualsInt(v: Value, n: int)
  {
    v == VInt(n) || (v.VBool? && BoolToInt(v.b) == n)
  }

  /** `v is None` */
  predicate IsNone(v: Value)
  {
    v.VNone?
  }

  /** `repr(v)`. Strings are always shown in single quotes and without escapes;
      an object shows its class name only. */
  function Repr(v: Value): string
    decreases v
  {
    match v
    case VNone => "None"
    case VBool(b) => if b then "True" else "False"
    case VInt(i) => IntToString(i)
    case VStr(s) => "'" + s + "'"
    case VList(items) =>
      "[" + Join(seq(|items|, k requires 0 <= k < |items| => Repr(items[k])), ", ") + "]"
    case VDict(entries) =>
      "{" + Join(seq(|entries|, k requires 0 <= k < |entries| =>
                   var e := entries[k]; assert e in entries; "'" + e.0 + "': " + Repr(e.1)), ", ") + "}"
    case VObj(cls, _) => "<" + cls + " object>"
  }

  /** `str(v)`: a string is itself, everything else its `repr`. */
  function Str(v: Value): (r: string)
    ensures v.VStr? ==> r == v.s
    ensures v.VInt? ==> r == IntToString(v.i)
  {
    if v.VStr? then v.s else Repr(v)
  }

  /** `int(v)`: ints and bools convert, strings are parsed (an optional sign and
      decimal digits), None and containers raise. */
  function ToInt(v: Value): (r: Result<int>)
    ensures v.VInt? ==> r == Ok(v.i)
    ensures (v.VNone? || v.VList? || v.VDict? || v.VObj?) ==> r.Err? && r.error.kind == TypeError
  {
    match v
    case VInt(i) => Ok(i)
    case VBool(b) => Ok(BoolToInt(b))
    case VStr(s) =>
      (match ParseInt(s)
       case Some(i) => Ok(i)
       case None => Fail(ValueError))
    case _ => Fail(TypeError)
  }

  /** `int(str(n)) == n` */
  lemma ToIntOfStr(n: int)
    ensures ToInt(VStr(Str(VInt(n)))) == Ok(n)
  {
    ParseIntOfIntToString(n);
  }

  /** The member value an int-valued `Enum(v)` lookup finds: the key is the int
      itself, and True and False hash and compare equal to 1 and 0. */
  function EnumKey(v: Value): (r: Option<int>)
    ensures r.Some? <==> v.VInt? || v.VBool?
  {
    match v
    case VInt(i) => Some(i)
    case VBool(b) => Some(BoolToInt(b))
    case _ => None
  }

  /** `v[key]` for a string key. */
  function Index(v: Value, key: string): (r: Result<Value>)
    ensures r.Ok? <==> v.VDict? && key in PyDict.Keys(v.entries)
    ensures r.Ok? ==> PyDict.Lookup(v.entries, key) == Some(r.value)
  {
    match v
    case VDict(entries) =>
      (match PyDict.Lookup(entries, key)
       case Some(x) => Ok(x)
       case None => Fail(KeyError))
    case _ => Fail(TypeError)
  }

  /** `v.get(key, default)`; a present key gives its value even when that value is None. */
  function Get(v: Value, key: string, default: Value): (r: Result<Value>)
    ensures r.Ok? <==> v.VDict?
    ensures r.Ok? && key in PyDict.Keys(v.entries) ==> Index(v, key) == r
    ensures r.Ok? && key !in PyDict.Keys(v.entries) ==> r.value == default
  {
    match v
    case VDict(entries) =>
      (match PyDict.Lookup(entries, key)
       case Some(x) => Ok(x)
       case None => Ok(default))
    case _ => Fail(AttributeError)
  }

  /** `v.get(key)` */
  function Get1(v: Value, key: string): Result<Value>
  {
    Get(v, key, VNone)
  }

  /** `attribute` is what `data.get(key, default)` reads: the key's own value
      when the dictionary holds the key, the default otherwise. */
  predicate ReadFrom(data: Value, key: string, default: Value, attribute: Value)
  {
    data.VDict? &&
    attribute == if key in PyDict.Keys(data.entries) then Index(data, key).value else default
  }

  /** `make_optional(int, v)`: `int(v)`, or None when that raises. */
  function OptionalInt(v: Value): (r: Option<int>)
    ensures v.VNone? ==> r.None?
    ensures v.VInt? ==> r == Some(v.i)
  {
    ToOption(ToInt(v))
  }

  /** The items `for x in v` visits: a list's items, a dict's keys, a string's
      characters; None, numbers and objects are not iterable. */
  function Iterated(v: Value): (r: Result<seq<Value>>)
    ensures r.Ok? <==> v.VList? || v.VDict? || v.VStr?
    ensures v.VList? ==> r == Ok(v.items)
    ensures v.VDict? ==> r.Ok? && |r.value| == |v.entries|
  {
    match v
    case VList(items) => Ok(items)
    case VDict(entries) => Ok(seq(|entries|, i requires 0 <= i < |entries| => VStr(entries[i].0)))
    case VStr(s) => Ok(seq(|s|, i requires 0 <= i < |s| => VStr([s[i]])))
    case _ => Fail(TypeError)
  }
}
