/** `fetch_user_base` (bhaicord/APIBase/user_base.py): get a user from the
    bounded user cache, or fetch it and cache it, evicting the earliest
    inserted user first when the cache is full. The request and the `User`
    construction are one opaque outcome; a `User` object is always truthy,
    so a present key is a hit. */
module UserBase {
  import opened Wrappers
  import opened LookupCache
  import PyStrings

  /** The endpoint the user is fetched from. */
  function UserEndpoint(userId: int): string
  {
    "/users/" + PyStrings.IntToString(userId)
  }

  /** The fetch after any eviction: `fetched` is the id the response carries and the
      user built from it, or the exception the request or construction raised. */
  function FetchAndStore<V>(c: Store<V>, userId: int, fetched: Result<(int, V)>): Outcome<V>
  {
    match fetched
    case Err(e) => Outcome(Err(e), c, Some(UserEndpoint(userId)))
    case Ok((id, user)) => Outcome(Ok(user), Insert(c, id, user), Some(UserEndpoint(userId)))
  }

  /** `fetch_user_base` as a function of the cache before the call; `client` says
      whether a client is current, which `get_client()` checks first. */
  function FetchUser<V>(c: Store<V>, cacheSize: int, userId: int, fetched: Result<(int, V)>, client: bool): (r: Outcome<V>)
    ensures r.requested.Some? ==> client && userId !in c.entries && r.requested.value == UserEndpoint(userId)
    ensures r.requested.None? && r.result.Ok? ==> client && userId in c.entries && r.store == c
  {
    if !client then Outcome(Err(NO_CLIENT), c, None)
    else if userId in c.entries then Outcome(Ok(c.entries[userId]), c, None)
    else if Size(c) >= cacheSize then
      match EvictFirst(c)
      case Err(e) => Outcome(Err(e), c, None)
      case Ok(c') => FetchAndStore(c', userId, fetched)
    else FetchAndStore(c, userId, fetched)
  }

  /** Without a current client the call raises ClientNotFound before looking at
      the cache, which it leaves alone, and requests nothing. */
  lemma NoClientFetchesNothing<V>(c: Store<V>, cacheSize: int, userId: int, fetched: Result<(int, V)>)
    ensures FetchUser(c, cacheSize, userId, fetched, false) == Outcome(Err(NO_CLIENT), c, None)
  {
  }

  /** A hit returns the cached user, requests nothing and leaves the cache alone. */
  lemma HitReturnsCached<V>(c: Store<V>, cacheSize: int, userId: int, fetched: Result<(int, V)>)
    requires userId in c.entries
    ensures FetchUser(c, cacheSize, userId, fetched, true) == Outcome(Ok(c.entries[userId]), c, None)
  {
  }

  /** A miss on a full cache removes exactly the earliest inserted user, before the
      request; every other user stays, unchanged unless the response reuses its id. */
  lemma MissOnFullCacheEvictsEarliest<V>(c: Store<V>, cacheSize: int, userId: int, fetched: Result<(int, V)>)
    requires Valid(c) && userId !in c.entries && Size(c) >= cacheSize && Size(c) > 0
    ensures var out := FetchUser(c, cacheSize, userId, fetched, true);
      && out.requested == Some(UserEndpoint(userId))
      && (forall k :: k in c.entries && k != c.order[0] ==> k in out.store.entries)
      && (forall k :: k in c.entries && k != c.order[0] && (fetched.Err? || k != fetched.value.0) ==>
            out.store.entries[k] == c.entries[k])
      && (c.order[0] in out.store.entries ==> fetched.Ok? && fetched.value.0 == c.order[0])
  {
    EvictFirstValid(c);
  }

  /** Eviction happens before the fetch: a failed fetch leaves one user fewer and
      adds none. */
  lemma FailedFetchStillEvicts<V>(c: Store<V>, cacheSize: int, userId: int, e: Error)
    requires Valid(c) && userId !in c.entries && Size(c) >= cacheSize && Size(c) > 0
    ensures var out := FetchUser(c, cacheSize, userId, Err(e), true);
      && out.result == Err(e)
      && out.store == EvictFirst(c).value
      && Size(out.store) == Size(c) - 1
      && out.store.entries.Keys == c.entries.Keys - {c.order[0]}
  {
    EvictFirstValid(c);
  }

  /** A successful miss returns the fetched user and stores it under the id from
      the response, which need not be the id asked for. */
  lemma StoredUnderResponseId<V>(c: Store<V>, cacheSize: int, userId: int, id: int, user: V)
    requires userId !in c.entries
    requires Size(c) < cacheSize || Size(c) > 0
    ensures var out := FetchUser(c, cacheSize, userId, Ok((id, user)), true);
      && out.result == Ok(user)
      && id in out.store.entries && out.store.entries[id] == user
      && out.requested == Some(UserEndpoint(userId))
  {
  }

  /** A cache within a bound of at least one stays within it, and stays valid. */
  lemma StaysWithinBound<V>(c: Store<V>, cacheSize: int, userId: int, fetched: Result<(int, V)>, client: bool)
    requires Valid(c) && Size(c) <= cacheSize && cacheSize >= 1
    ensures Valid(FetchUser(c, cacheSize, userId, fetched, client).store)
    ensures Size(FetchUser(c, cacheSize, userId, fetched, client).store) <= cacheSize
  {
    if client && userId !in c.entries {
      var c' := c;
      if Size(c) >= cacheSize {
        EvictFirstValid(c);
        c' := EvictFirst(c).value;
      }
      assert FetchUser(c, cacheSize, userId, fetched, client) == FetchAndStore(c', userId, fetched);
      assert Size(c') < cacheSize;
      if fetched.Ok? {
        InsertValid(c', fetched.value.0, fetched.value.1);
      }
    }
  }

  /** With a bound of zero and nothing cached, a miss raises IndexError while picking
      the key to evict, before any request. */
  lemma EmptyZeroSizedCacheFails<V>(c: Store<V>, userId: int, fetched: Result<(int, V)>)
    requires Valid(c) && Size(c) == 0
    ensures var out := FetchUser(c, 0, userId, fetched, true);
      out.result.Err? && out.result.error.kind == IndexError && out.requested.None? && out.store == c
  {
    assert userId !in c.order;
  }

  /** `fetch_user_base` on the client's cache. */
  method FetchUserBase<V>(cache: Cache<V>, cacheSize: int, userId: int, fetched: Result<(int, V)>, client: bool)
    returns (r: Result<V>, requested: Option<string>)
    modifies cache
    ensures r == FetchUser(old(cache.Contents()), cacheSize, userId, fetched, client).result
    ensures requested == FetchUser(old(cache.Contents()), cacheSize, userId, fetched, client).requested
    ensures cache.Contents() == FetchUser(old(cache.Contents()), cacheSize, userId, fetched, client).store
  {
    if !client {
      return Err(NO_CLIENT), None;
    }
    var user := cache.Get(userId);
    if user.Some? {
      return Ok(user.value), None;
    }
    if |cache.order| >= cacheSize {
      var evicted := cache.DeleteFirst();
      if evicted.Err? {
        return Err(evicted.error), None;
      }
    }
    requested := Some(UserEndpoint(userId));
    if fetched.Err? {
      return Err(fetched.error), requested;
    }
    cache.Put(fetched.value.0, fetched.value.1);
    r := Ok(fetched.value.1);
  }
}
