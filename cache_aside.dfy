/**
 * The cache-aside step every decorator performs: look the key up; on a hit return the cached
 * value; on a miss ask the wrapped provider and, when it answers, store the answer for seven
 * days before returning it. A provider failure propagates before anything is stored.
 */
module CacheAside {
  import opened Wrappers
  import opened Lru
  import Errors

  /** A logger handed to a decorator; only its presence matters, what is logged is not modelled. */
  datatype Logger = Logger

  /** One day in milliseconds. */
  const Day: int := 24 * 60 * 60 * 1000

  /** `TimeSpan.FromDays(7)`, the time to live of every decorator entry. */
  const CacheTimeToLive: int := 7 * Day

  /** What a cache-aside call returns, how the cache's recency list ends up, and whether the provider was asked. */
  datatype Served<K, V> = Served(result: Result<V, Errors.Exception>, cache: seq<Entry<K, V>>, upstreamCalled: bool)

  /**
   * The cached value that counts as a hit: a live entry whose value is `usable` (the source
   * treats a stored null as a miss).
   */
  function Hit<K(==), V>(cache: seq<Entry<K, V>>, key: K, now: int, usable: V -> bool): (r: Option<V>)
    ensures r.Some? <==> GetResult(cache, key, now).Some? && usable(GetResult(cache, key, now).value)
    ensures r.Some? ==> r == GetResult(cache, key, now)
  {
    var cached := GetResult(cache, key, now);
    if cached.Some? && usable(cached.value) then cached else None
  }

  /** The usability test of a cache whose every stored value counts as a hit. */
  predicate Always<V>(v: V)
  {
    true
  }

  /**
   * One cache-aside call at instant `now`; `upstream` is what the wrapped provider answers for
   * this request.
   */
  function Serve<K(==), V>(cache: seq<Entry<K, V>>, size: int, key: K, now: int,
                           upstream: Result<V, Errors.Exception>, usable: V -> bool): Served<K, V>
    requires 1 <= size
  {
    var afterGet := GetState(cache, key, now);
    match Hit(cache, key, now, usable)
    case Some(v) => Served(Success(v), afterGet, false)
    case None =>
      match upstream
      case Success(v) => Served(Success(v), SetState(afterGet, size, key, v, Expiration(Some(CacheTimeToLive), now)), true)
      case Failure(e) => Served(Failure(e), afterGet, true)
  }

  /** A hit returns the cached value and does not ask the provider. */
  lemma HitSkipsProvider<K, V>(cache: seq<Entry<K, V>>, size: int, key: K, now: int,
                               upstream: Result<V, Errors.Exception>, usable: V -> bool, v: V)
    requires 1 <= size && Hit(cache, key, now, usable) == Some(v)
    ensures var s := Serve(cache, size, key, now, upstream, usable);
            s.result == Success(v) && !s.upstreamCalled && s.cache == GetState(cache, key, now)
  {
  }

  /** A miss asks the provider once and returns what it answers, value or failure. */
  lemma MissAsksProvider<K, V>(cache: seq<Entry<K, V>>, size: int, key: K, now: int,
                               upstream: Result<V, Errors.Exception>, usable: V -> bool)
    requires 1 <= size && Hit(cache, key, now, usable).None?
    ensures var s := Serve(cache, size, key, now, upstream, usable);
            s.result == upstream && s.upstreamCalled
  {
  }

  /**
   * A provider answer on a miss is stored under the key: for seven days every lookup reads
   * it back, and a usable answer is then served without asking the provider again.
   */
  lemma MissStoresAnswer<K, V>(cache: seq<Entry<K, V>>, size: int, key: K, now: int,
                               v: V, usable: V -> bool, later: int, again: Result<V, Errors.Exception>)
    requires 1 <= size && Hit(cache, key, now, usable).None?
    requires now <= later < now + CacheTimeToLive
    ensures var s := Serve(cache, size, key, now, Success(v), usable);
            && GetResult(s.cache, key, later) == Some(v)
            && (usable(v) ==> Serve(s.cache, size, key, later, again, usable) == Served(Success(v), GetState(s.cache, key, later), false))
  {
    var s := Serve(cache, size, key, now, Success(v), usable);
    SetThenGetWithExpiration(GetState(cache, key, now), size, key, v, CacheTimeToLive, now, later);
    assert GetResult(s.cache, key, later) == Some(v);
  }

  /**
   * A provider failure is not cached: the cache only sees the lookup, and a retry at the same
   * instant asks the provider again.
   */
  lemma FailureNotCached<K, V>(cache: seq<Entry<K, V>>, size: int, key: K, now: int,
                               e: Errors.Exception, usable: V -> bool, retry: Result<V, Errors.Exception>)
    requires 1 <= size && DistinctKeys(cache) && Hit(cache, key, now, usable).None?
    ensures var s := Serve(cache, size, key, now, Failure(e), usable);
            && s.result == Failure(e)
            && s.cache == GetState(cache, key, now)
            && Serve(s.cache, size, key, now, retry, usable).upstreamCalled
  {
    GetRepeatable(cache, key, now);
  }

  /** A cache-aside call keeps the keys distinct and the count within capacity. */
  lemma ServeKeepsInvariant<K, V>(cache: seq<Entry<K, V>>, size: int, key: K, now: int,
                                  upstream: Result<V, Errors.Exception>, usable: V -> bool)
    requires 1 <= size && |cache| <= size && DistinctKeys(cache)
    ensures var s := Serve(cache, size, key, now, upstream, usable);
            DistinctKeys(s.cache) && |s.cache| <= size
  {
    GetKeepsInvariant(cache, key, now);
    var afterGet := GetState(cache, key, now);
    if Hit(cache, key, now, usable).None? && upstream.Success? {
      SetKeepsInvariant(afterGet, size, key, upstream.value, Expiration(Some(CacheTimeToLive), now));
    }
  }
}
