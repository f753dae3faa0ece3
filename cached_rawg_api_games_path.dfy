/**
 * The first caching decorator (Providers/CachedRawgApi.cs): one games cache, keyed by
 * `/games&page=P&page_size=S` followed by `&name=escaped` for each non-blank filter.
 */
module CachedRawgGamesPath {
  import opened Wrappers
  import opened Text
  import opened KeyParts
  import opened QueryKeys
  import opened Contracts
  import opened Rawg
  import opened Lru
  import opened CacheAside
  import UriEscape
  import Errors

  /** The paging head of a key: `/games&page=P&page_size=S`. */
  function PathHead(page: int, pageSize: int): string
  {
    "/games&page=" + IntToString(page) + "&page_size=" + IntToString(pageSize)
  }

  /** The key of a request: the head, then the conditional appends in order. */
  function PathKey(q: GamesQuery): string
  {
    PathHead(q.page, q.pageSize) + Amp("genres", q.genres) + Amp("parent_platforms", q.parentPlatforms)
    + Amp("ordering", q.ordering) + Amp("search", q.search)
  }

  /** `BuildCacheKey`: the StringBuilder with its four conditional appends. */
  method BuildCacheKey(genres: Option<string>, parentPlatforms: Option<string>, ordering: Option<string>,
                       search: Option<string>, page: int, pageSize: int)
    returns (key: string)
    ensures key == PathKey(GamesQuery(genres, parentPlatforms, ordering, search, page, pageSize))
  {
    key := "/games&page=" + IntToString(page) + "&page_size=" + IntToString(pageSize);
    ghost var k0 := key;
    Labels();
    if !IsNullOrWhiteSpace(genres) {
      key := key + ("&genres=" + UriEscape.EscapeDataString(genres.value));
    } else {
      assert key + Amp("genres", genres) == key;
    }
    ghost var k1 := key;
    assert k1 == k0 + Amp("genres", genres);
    if !IsNullOrWhiteSpace(parentPlatforms) {
      key := key + ("&parent_platforms=" + UriEscape.EscapeDataString(parentPlatforms.value));
    } else {
      assert key + Amp("parent_platforms", parentPlatforms) == key;
    }
    ghost var k2 := key;
    assert k2 == k1 + Amp("parent_platforms", parentPlatforms);
    if !IsNullOrWhiteSpace(ordering) {
      key := key + ("&ordering=" + UriEscape.EscapeDataString(ordering.value));
    } else {
      assert key + Amp("ordering", ordering) == key;
    }
    ghost var k3 := key;
    assert k3 == k2 + Amp("ordering", ordering);
    if !IsNullOrWhiteSpace(search) {
      key := key + ("&search=" + UriEscape.EscapeDataString(search.value));
    } else {
      assert key + Amp("search", search) == key;
    }
    assert key == k3 + Amp("search", search);
  }

  /** The head is its three pieces joined by '&'. */
  lemma PathHeadPieces(p: string, ps: string)
    ensures "/games&page=" + p + "&page_size=" + ps == "/games" + Prefixed(["page=" + p, "page_size=" + ps], '&')
  {
    var second, third := "page=" + p, "page_size=" + ps;
    assert [second, third][1..] == [third];
    assert [third][1..] == [];
    assert Prefixed([third], '&') == ['&'] + third + "";
    assert "/games&page=" == "/games" + ['&'] + "page=";
    assert "&page_size=" == ['&'] + "page_size=";
  }

  /** Read as '&'-separated pieces, a key is "/games", its two paging pieces, then the rendered filters. */
  lemma PathKeyPieces(q: GamesQuery)
    ensures PathKey(q)
         == Join(["/games", "page=" + IntToString(q.page), "page_size=" + IntToString(q.pageSize)]
                 + Bodies(FilterPairs(q)), '&')
  {
    var rest := ["page=" + IntToString(q.page), "page_size=" + IntToString(q.pageSize)];
    PathHeadPieces(IntToString(q.page), IntToString(q.pageSize));
    Assoc5(PathHead(q.page, q.pageSize), Amp("genres", q.genres), Amp("parent_platforms", q.parentPlatforms),
           Amp("ordering", q.ordering), Amp("search", q.search));
    KeyIsJoin("/games", rest, q);
    assert ["/games"] + rest == ["/games", "page=" + IntToString(q.page), "page_size=" + IntToString(q.pageSize)];
  }

  /** The head pieces of a key contain no '&'. */
  lemma PathHeadPlain(page: int, pageSize: int)
    ensures var h := ["/games", "page=" + IntToString(page), "page_size=" + IntToString(pageSize)];
            forall i | 0 <= i < |h| :: '&' !in h[i]
  {
    NoAmpersandInNumber(page);
    NoAmpersandInNumber(pageSize);
  }

  /** Equal keys give the same paging and the same filters. */
  lemma PathKeysAgree(q1: GamesQuery, q2: GamesQuery)
    requires PathKey(q1) == PathKey(q2)
    ensures SameGamesRequest(q1, q2)
  {
    var h1 := ["/games", "page=" + IntToString(q1.page), "page_size=" + IntToString(q1.pageSize)];
    var h2 := ["/games", "page=" + IntToString(q2.page), "page_size=" + IntToString(q2.pageSize)];
    PathKeyPieces(q1);
    PathKeyPieces(q2);
    PathHeadPlain(q1.page, q1.pageSize);
    PathHeadPlain(q2.page, q2.pageSize);
    PiecesDetermine(h1, h2, q1, q2);
    PrefixCancel("page=", IntToString(q1.page), IntToString(q2.page));
    PrefixCancel("page_size=", IntToString(q1.pageSize), IntToString(q2.pageSize));
    IntToStringInjective(q1.page, q2.page);
    IntToStringInjective(q1.pageSize, q2.pageSize);
  }

  /** Two game requests share a key exactly when they are the same request. */
  lemma PathKeyInjective(q1: GamesQuery, q2: GamesQuery)
    ensures PathKey(q1) == PathKey(q2) <==> SameGamesRequest(q1, q2)
  {
    if PathKey(q1) == PathKey(q2) {
      PathKeysAgree(q1, q2);
    }
    if SameGamesRequest(q1, q2) {
      SameFiltersSameSuffix(q1, q2);
    }
  }

  class CachedRawgApi {
    const gamesCache: LruCache<string, CollectionResult<Game>>
    const rawgApi: RawgProvider

    ghost predicate Valid()
      reads this, gamesCache
    {
      gamesCache.Valid()
    }

    constructor(gamesCache: LruCache<string, CollectionResult<Game>>, rawgApi: RawgProvider)
      ensures this.gamesCache == gamesCache && this.rawgApi == rawgApi
    {
      this.gamesCache := gamesCache;
      this.rawgApi := rawgApi;
    }

    /** The source's constructor: null dependencies are rejected in order, naming the parameter. */
    static method Create(gamesCache: LruCache?<string, CollectionResult<Game>>, logger: Option<Logger>,
                         rawgApiFactory: Option<string -> RawgProvider?>)
      returns (r: Result<CachedRawgApi, Errors.Exception>)
      ensures gamesCache == null ==> r == Failure(Errors.ArgumentNullException("gamesCache"))
      ensures gamesCache != null && logger.None? ==> r == Failure(Errors.ArgumentNullException("logger"))
      ensures gamesCache != null && logger.Some?
              ==> match rawgApiFactory
                  case None => r == Failure(Errors.ArgumentNullException("rawgApiFactory"))
                  case Some(factory) =>
                    if factory("Base") == null then r == Failure(Errors.ArgumentNullException("rawgApiFactory"))
                    else r.Success? && fresh(r.value) && r.value.rawgApi == factory("Base")
                         && r.value.gamesCache == gamesCache
    {
      if gamesCache == null { return Failure(Errors.ArgumentNullException("gamesCache")); }
      if logger.None? { return Failure(Errors.ArgumentNullException("logger")); }
      if rawgApiFactory.None? { return Failure(Errors.ArgumentNullException("rawgApiFactory")); }
      var rawgApi := rawgApiFactory.value("Base");
      if rawgApi == null { return Failure(Errors.ArgumentNullException("rawgApiFactory")); }
      var c := new CachedRawgApi(gamesCache, rawgApi);
      return Success(c);
    }

    /** `GetGamesAsync`, at instant `now`. */
    method GetGamesAsync(query: GamesQuery, now: int) returns (r: Result<CollectionResult<Game>, Errors.Exception>)
      requires Valid()
      modifies gamesCache, rawgApi
      ensures Valid()
      ensures var s := Serve(old(gamesCache.list), gamesCache.size, PathKey(query), now,
                             rawgApi.games(query), Always);
              && r == s.result
              && gamesCache.list == s.cache
              && rawgApi.calls == old(rawgApi.calls) + (if s.upstreamCalled then [GamesCall(query)] else [])
    {
      var key := BuildCacheKey(query.genres, query.parentPlatforms, query.ordering, query.search,
                               query.page, query.pageSize);
      var cached := gamesCache.Get(key, now);
      if cached.Some? {
        return Success(cached.value);
      }
      r := rawgApi.GetGamesAsync(query);
      if r.Success? {
        gamesCache.Set(key, r.value, Some(CacheTimeToLive), now);
      }
    }
  }
}
