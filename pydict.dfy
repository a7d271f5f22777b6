/** A Python `dict` as an association list in insertion order.
    Assigning to a key that is already present replaces its value in place
    and keeps the key's original position; a new key goes at the end. */
module PyDict {
  import opened Wrappers

  function Keys<K, V>(d: seq<(K, V)>): (r: seq<K>)
    ensures |r| == |d|
    ensures forall i :: 0 <= i < |d| ==> r[i] == d[i].0
  {
    seq(|d|, i requires 0 <= i < |d| => d[i].0)
  }

  /** Python dicts never hold the same key twice. */
  predicate DistinctKeys<K(==), V>(d: seq<(K, V)>)
  {
    forall i, j :: 0 <= i < j < |d| ==> d[i].0 != d[j].0
  }

  /** `d.get(k)`: the value of the first entry with key `k`. */
  function Lookup<K(==), V>(d: seq<(K, V)>, k: K): (r: Option<V>)
    ensures r.None? <==> k !in Keys(d)
    decreases |d|
  {
    if |d| == 0 then None
    else if d[0].0 == k then Some(d[0].1)
    else
      assert Keys(d) == [d[0].0] + Keys(d[1..]);
      Lookup(d[1..], k)
  }

  /** The value of the first entry whose key is `d[i].0` is the one at `i`. */
  lemma {:induction false} LookupAt<K, V>(d: seq<(K, V)>, i: nat)
    requires i < |d|
    requires forall j :: 0 <= j < i ==> d[j].0 != d[i].0
    ensures Lookup(d, d[i].0) == Some(d[i].1)
    decreases i
  {
    if i > 0 {
      LookupAt(d[1..], i - 1);
    }
  }

  /** Looking up in a list with one more entry at the end. */
  lemma {:induction false} LookupAppend<K, V>(d: seq<(K, V)>, k': K, v: V, k: K)
    ensures Lookup(d + [(k', v)], k) == if k in Keys(d) then Lookup(d, k) else if k == k' then Some(v) else None
    decreases |d|
  {
    if |d| > 0 {
      assert (d + [(k', v)])[1..] == d[1..] + [(k', v)];
      assert Keys(d) == [d[0].0] + Keys(d[1..]);
      LookupAppend(d[1..], k', v, k);
    }
  }

  /** `d[k] = v` */
  function Set<K(==), V>(d: seq<(K, V)>, k: K, v: V): (r: seq<(K, V)>)
    decreases |d|
  {
    if |d| == 0 then [(k, v)]
    else if d[0].0 == k then [(k, v)] + d[1..]
    else [d[0]] + Set(d[1..], k, v)
  }

  /** After `d[k] = v`, `k` maps to `v` and every other key keeps its value. */
  lemma {:induction false} LookupSet<K, V>(d: seq<(K, V)>, k: K, v: V, k': K)
    ensures Lookup(Set(d, k, v), k') == if k' == k then Some(v) else Lookup(d, k')
    decreases |d|
  {
    if |d| > 0 && d[0].0 != k {
      LookupSet(d[1..], k, v, k');
    }
  }

  /** The keys of a list with one more entry in front. */
  lemma KeysCons<K, V>(x: (K, V), d: seq<(K, V)>)
    ensures Keys([x] + d) == [x.0] + Keys(d)
  {
  }

  /** `d[k] = v` keeps the key order, appending `k` only when it was absent. */
  lemma {:induction false} KeysOfSet<K, V>(d: seq<(K, V)>, k: K, v: V)
    ensures Keys(Set(d, k, v)) == if k in Keys(d) then Keys(d) else Keys(d) + [k]
    decreases |d|
  {
    if |d| > 0 {
      var rest := d[1..];
      assert d == [d[0]] + rest;
      KeysCons(d[0], rest);
      if d[0].0 == k {
        KeysCons((k, v), rest);
      } else {
        KeysOfSet(rest, k, v);
        KeysCons(d[0], Set(rest, k, v));
        assert k in Keys(d) <==> k in Keys(rest);
        if k !in Keys(rest) {
          assert [d[0].0] + (Keys(rest) + [k]) == ([d[0].0] + Keys(rest)) + [k];
        }
      }
    }
  }

  /** `d[k] = v` keeps the keys distinct. */
  lemma SetKeepsDistinct<K, V>(d: seq<(K, V)>, k: K, v: V)
    requires DistinctKeys(d)
    ensures DistinctKeys(Set(d, k, v))
  {
    KeysOfSet(d, k, v);
    var r := Set(d, k, v);
    forall i, j | 0 <= i < j < |r| ensures r[i].0 != r[j].0 {
      assert Keys(r)[i] == r[i].0 && Keys(r)[j] == r[j].0;
      if k in Keys(d) {
        assert Keys(d)[i] == d[i].0 && Keys(d)[j] == d[j].0;
      } else if j < |d| {
        assert Keys(d)[i] == d[i].0 && Keys(d)[j] == d[j].0;
      }
    }
  }
}
