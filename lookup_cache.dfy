/** The client's bounded caches (`client.user_cache`, `client.message_cache`):
    Python dicts keyed by id, whose key order is insertion order. Assigning to a
    key already present keeps its place; deleting a key removes it from the order. */
module LookupCache {
  import opened Wrappers

  /** The contents of a cache: its entries and its keys in insertion order. */
  datatype Store<V> = Store(entries: map<int, V>, order: seq<int>)

  predicate Distinct(s: seq<int>)
  {
    forall i, j :: 0 <= i < j < |s| ==> s[i] != s[j]
  }

  /** The order lists every key of the map exactly once. */
  predicate Valid<V>(c: Store<V>)
  {
    && Distinct(c.order)
    && (forall k :: k in c.entries ==> k in c.order)
    && (forall i :: 0 <= i < |c.order| ==> c.order[i] in c.entries)
  }

  /** What a get-or-fetch call returns, the cache afterwards, and the endpoint
      requested if any. */
  datatype Outcome<V> = Outcome(result: Result<V>, store: Store<V>, requested: Option<string>)

  /** `len(cache)` */
  function Size<V>(c: Store<V>): nat
  {
    |c.order|
  }

  /** A distinct sequence has as many elements as the set of them. */
  lemma {:induction false} DistinctCard(s: seq<int>)
    requires Distinct(s)
    ensures |set k | k in s| == |s|
    decreases |s|
  {
    if |s| > 0 {
      var rest := s[1..];
      assert Distinct(rest);
      DistinctCard(rest);
      assert (set k | k in s) == (set k | k in rest) + {s[0]};
      assert s[0] !in rest;
    }
  }

  /** In a valid store the order and the map have the same size. */
  lemma SizeIsEntryCount<V>(c: Store<V>)
    requires Valid(c)
    ensures Size(c) == |c.entries|
  {
    DistinctCard(c.order);
    forall k ensures k in (set k | k in c.order) <==> k in c.entries.Keys {
      if k in c.order {
        var i :| 0 <= i < |c.order| && c.order[i] == k;
      }
    }
    assert (set k | k in c.order) == c.entries.Keys;
  }

  /** `cache[k] = v` */
  function Insert<V>(c: Store<V>, k: int, v: V): Store<V>
  {
    Store(c.entries[k := v], if k in c.order then c.order else c.order + [k])
  }

  /** `del cache[list(cache.keys())[0]]`: removes the earliest inserted key; an empty
      cache raises IndexError. */
  function EvictFirst<V>(c: Store<V>): (r: Result<Store<V>>)
    ensures r.Err? <==> |c.order| == 0
    ensures r.Err? ==> r.error.kind == IndexError
    ensures r.Ok? ==> r.value.order == c.order[1..]
  {
    if |c.order| == 0 then Fail(IndexError)
    else Ok(Store(c.entries - {c.order[0]}, c.order[1..]))
  }

  /** Assignment keeps a store valid and changes only the assigned key. */
  lemma InsertValid<V>(c: Store<V>, k: int, v: V)
    requires Valid(c)
    ensures Valid(Insert(c, k, v))
    ensures Insert(c, k, v).entries[k] == v
    ensures forall k' :: k' != k && k' in c.entries ==> k' in Insert(c, k, v).entries && Insert(c, k, v).entries[k'] == c.entries[k']
    ensures Size(Insert(c, k, v)) == if k in c.entries then Size(c) else Size(c) + 1
  {
  }

  /** Eviction keeps a store valid, removes exactly the earliest key and keeps the rest. */
  lemma EvictFirstValid<V>(c: Store<V>)
    requires Valid(c) && |c.order| > 0
    ensures Valid(EvictFirst(c).value)
    ensures c.order[0] !in EvictFirst(c).value.entries
    ensures forall k :: k in c.entries && k != c.order[0] ==> k in EvictFirst(c).value.entries && EvictFirst(c).value.entries[k] == c.entries[k]
    ensures Size(EvictFirst(c).value) == Size(c) - 1
  {
    var r := EvictFirst(c).value;
    forall k ensures k in r.entries <==> k in r.order {
      if k in r.order {
        var i :| 0 <= i < |r.order| && r.order[i] == k;
        assert c.order[i + 1] == k;
      }
      if k in c.order && k != c.order[0] {
        var i :| 0 <= i < |c.order| && c.order[i] == k;
        assert r.order[i - 1] == k;
      }
    }
  }

  /** A cache object: the dict the client holds and the methods that change it in place. */
  class Cache<V> {
    var entries: map<int, V>
    var order: seq<int>

    function Contents(): Store<V>
      reads this
    {
      Store(entries, order)
    }

    constructor ()
      ensures Contents() == Store(map[], [])
      ensures Valid(Contents())
    {
      entries := map[];
      order := [];
    }

    /** `cache.get(k)` */
    method Get(k: int) returns (r: Option<V>)
      ensures r.Some? <==> k in entries
      ensures r.Some? ==> r.value == entries[k]
    {
      if k in entries {
        r := Some(entries[k]);
      } else {
        r := None;
      }
    }

    /** `len(cache)` */
    method Length() returns (n: nat)
      requires Valid(Contents())
      ensures n == |entries|
    {
      SizeIsEntryCount(Contents());
      n := |order|;
    }

    /** `cache[k] = v` */
    method Put(k: int, v: V)
      modifies this
      ensures Contents() == Insert(old(Contents()), k, v)
    {
      entries := entries[k := v];
      if k !in order {
        order := order + [k];
      }
    }

    /** `del cache[list(cache.keys())[0]]` */
    method DeleteFirst() returns (r: Result<()>)
      modifies this
      ensures var e := EvictFirst(old(Contents()));
        (e.Err? ==> r == Err(e.error) && Contents() == old(Contents()))
        && (e.Ok? ==> r == Ok(()) && Contents() == e.value)
    {
      if |order| == 0 {
        return Fail(IndexError);
      }
      entries := entries - {order[0]};
      order := order[1..];
      r := Ok(());
    }
  }
}
