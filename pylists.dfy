/** Python list indexing: `xs[i]`, `xs[i] = x` and `xs.pop(i)` with an int index,
    where a negative index counts from the end and anything outside `-len..len-1`
    raises IndexError. */
module PyLists {
  import opened Wrappers

  /** The position an index denotes in a list of length `n`, if any. */
  function Position(n: nat, i: int): (r: Option<nat>)
    ensures r.Some? <==> -(n as int) <= i < n
    ensures r.Some? ==> r.value < n && r.value as int == (if i < 0 then i + n else i)
  {
    if 0 <= i < n then Some(i) else if -(n as int) <= i < 0 then Some(i + n) else None
  }

  /** `xs[i] = x` */
  function SetAt<T>(xs: seq<T>, i: int, x: T): (r: Result<seq<T>>)
  {
    match Position(|xs|, i)
    case None => Fail(IndexError)
    case Some(p) => Ok(xs[p := x])
  }

  /** `xs.pop(i)`: the list without the element, and the element. */
  function PopAt<T>(xs: seq<T>, i: int): (r: Result<(seq<T>, T)>)
  {
    match Position(|xs|, i)
    case None => Fail(IndexError)
    case Some(p) => Ok((xs[..p] + xs[p + 1..], xs[p]))
  }

  /** Assignment at a valid index replaces exactly that element; any other index raises. */
  lemma SetAtReplacesOne<T>(xs: seq<T>, i: int, x: T)
    ensures SetAt(xs, i, x).Ok? <==> -(|xs| as int) <= i < |xs|
    ensures SetAt(xs, i, x).Ok? ==>
      var p := if i < 0 then i + |xs| else i;
      var ys := SetAt(xs, i, x).value;
      |ys| == |xs| && ys[p] == x && forall j :: 0 <= j < |xs| && j != p ==> ys[j] == xs[j]
  {
  }

  /** Popping at a valid index removes exactly that element and keeps the order of
      the rest; `pop(-1)` removes the last one; any other index raises. */
  lemma PopAtRemovesOne<T>(xs: seq<T>, i: int)
    ensures PopAt(xs, i).Ok? <==> -(|xs| as int) <= i < |xs|
    ensures PopAt(xs, i).Ok? ==>
      var p := if i < 0 then i + |xs| else i;
      var (ys, y) := PopAt(xs, i).value;
      && y == xs[p]
      && |ys| == |xs| - 1
      && (forall j :: 0 <= j < p ==> ys[j] == xs[j])
      && (forall j :: p <= j < |ys| ==> ys[j] == xs[j + 1])
    ensures |xs| > 0 ==> PopAt(xs, -1) == Ok((xs[..|xs| - 1], xs[|xs| - 1]))
  {
    if |xs| > 0 {
      assert xs[|xs|..] == [];
      assert xs[..|xs| - 1] + xs[|xs|..] == xs[..|xs| - 1];
    }
  }
  /** `[f(x) for x in xs]` where `f` may raise: the first exception raised, or
      every result in order. */
  function MapAll<T, U>(xs: seq<T>, f: T -> Result<U>): (r: Result<seq<U>>)
    ensures r.Ok? <==> forall i :: 0 <= i < |xs| ==> f(xs[i]).Ok?
    ensures r.Ok? ==> |r.value| == |xs| && forall i :: 0 <= i < |xs| ==> r.value[i] == f(xs[i]).value
    ensures r.Err? ==> exists i :: 0 <= i < |xs| && f(xs[i]).Err? && r.error == f(xs[i]).error && forall j :: 0 <= j < i ==> f(xs[j]).Ok?
  {
    if xs == [] then Ok([])
    else
      match f(xs[0])
      case Err(e) => Err(e)
      case Ok(y) =>
        var rest := MapAll(xs[1..], f);
        if rest.Err? then
          assert exists i :: 0 <= i < |xs[1..]| && f(xs[1..][i]).Err? && rest.error == f(xs[1..][i]).error && forall j :: 0 <= j < i ==> f(xs[1..][j]).Ok?;
          var i :| 0 <= i < |xs[1..]| && f(xs[1..][i]).Err? && rest.error == f(xs[1..][i]).error && forall j :: 0 <= j < i ==> f(xs[1..][j]).Ok?;
          assert forall j :: 0 <= j < i + 1 ==> f(xs[j]).Ok? by {
            forall j | 0 <= j < i + 1 ensures f(xs[j]).Ok? {
              if j > 0 { assert xs[j] == xs[1..][j - 1]; }
            }
          }
          assert xs[i + 1] == xs[1..][i];
          Err(rest.error)
        else
          assert forall i :: 1 <= i < |xs| ==> xs[i] == xs[1..][i - 1];
          Ok([y] + rest.value)
  }
}
