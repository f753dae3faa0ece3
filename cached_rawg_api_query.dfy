/**
 * The earlier caching decorator with query-string keys (GameHubApi/Providers/CachedRawgApi.cs):
 * two caches, games and genres, keyed by `collection?page=P&page_size=S` followed by
 * `&name=escaped` for each non-blank filter. Its genres lookup asks the wrapped provider for the
 * default page whatever page was requested, and stores that answer under the requested key;
 * the model keeps that behaviour.
 */
module CachedRawgQuery {
  import opened Wrappers
  import opened Text
  import opened UriEscape
  import opened KeyParts
  import opened QueryKeys
  import opened Contracts
  import opened Rawg
  import opened Lru
  import opened CacheAside
  import Errors

  /** The paging head of a key: `collection?page=P&page_size=S`. */
  function Head(collection: string, page: int, pageSize: int): string
  {
    collection + "?page=" + IntToString(page) + "&page_size=" + IntToString(pageSize)
  }

  /** The key of a request: the head, then the conditional appends in order. */
  function QueryKey(collection: string, q: GamesQuery): string
  {
    Head(collection, q.page, q.pageSize) + Amp("genres", q.genres) + Amp("parent_platforms", q.parentPlatforms)
    + Amp("ordering", q.ordering) + Amp("search", q.search)
  }

  /** `BuildCacheKey`: the StringBuilder with its four conditional appends. */
  method BuildCacheKey(resourceCollection: string, genres: Option<string>, parentPlatforms: Option<string>,
                       ordering: Option<string>, search: Option<string>, page: int, pageSize: int)
    returns (key: string)
    ensures key == QueryKey(resourceCollection, GamesQuery(genres, parentPlatforms, ordering, search, page, pageSize))
  {
    key := resourceCollection + "?page=" + IntToString(page) + "&page_size=" + IntToString(pageSize);
    ghost var q := GamesQuery(genres, parentPlatforms, ordering, search, page, pageSize);
    ghost var k0 := key;
    Labels();
    if !IsNullOrWhiteSpace(genres) {
      key := key + ("&genres=" + EscapeDataString(genres.value));
    } else {
      assert key + Amp("genres", genres) == key;
    }
    ghost var k1 := key;
    assert k1 == k0 + Amp("genres", genres);
    if !IsNullOrWhiteSpace(parentPlatforms) {
      key := key + ("&parent_platforms=" + EscapeDataString(parentPlatforms.value));
    } else {
      assert key + Amp("parent_platforms", parentPlatforms) == key;
    }
    ghost var k2 := key;
    assert k2 == k1 + Amp("parent_platforms", parentPlatforms);
    if !IsNullOrWhiteSpace(ordering) {
      key := key + ("&ordering=" + EscapeDataString(ordering.value));
    } else {
      assert key + Amp("ordering", ordering) == key;
    }
    ghost var k3 := key;
    assert k3 == k2 + Amp("ordering", ordering);
    if !IsNullOrWhiteSpace(search) {
      key := key + ("&search=" + EscapeDataString(search.value));
    } else {
      assert key + Amp("search", search) == key;
    }
    assert key == k3 + Amp("search", search);
  }

  /** The head is its two paging pieces joined by '&'. */
  lemma HeadPieces(collection: string, p: string, ps: string)
    ensures collection + "?page=" + p + "&page_size=" + ps == (collection + "?page=" + p) + Prefixed(["page_size=" + ps], '&')
  {
    var second := "page_size=" + ps;
    assert [second][1..] == [];
    assert Prefixed([second], '&') == ['&'] + second + "";
    assert "&page_size=" == ['&'] + "page_size=";
  }

  /** Read as '&'-separated pieces, a key is its two paging pieces followed by the rendered filters. */
  lemma QueryKeyPieces(collection: string, q: GamesQuery)
    ensures QueryKey(collection, q)
         == Join([collection + "?page=" + IntToString(q.page), "page_size=" + IntToString(q.pageSize)]
                 + Bodies(FilterPairs(q)), '&')
  {
    var first := collection + "?page=" + IntToString(q.page);
    var second := "page_size=" + IntToString(q.pageSize);
    HeadPieces(collection, IntToString(q.page), IntToString(q.pageSize));
    Assoc5(Head(collection, q.page, q.pageSize), Amp("genres", q.genres), Amp("parent_platforms", q.parentPlatforms),
           Amp("ordering", q.ordering), Amp("search", q.search));
    KeyIsJoin(first, [second], q);
  }

  /** The paging pieces contain no '&' when the collection name has none. */
  lemma PagingHeadPieces(collection: string, page: int, pageSize: int)
    requires '&' !in collection
    ensures var h := [collection + "?page=" + IntToString(page), "page_size=" + IntToString(pageSize)];
            forall i | 0 <= i < |h| :: '&' !in h[i]
  {
    NoAmpersandInNumber(page);
    NoAmpersandInNumber(pageSize);
  }

  /** Keys of one collection that agree give the same paging and the same filters. */
  lemma SameCollectionKeys(collection: string, q1: GamesQuery, q2: GamesQuery)
    requires '&' !in collection
    requires QueryKey(collection, q1) == QueryKey(collection, q2)
    ensures SameGamesRequest(q1, q2)
  {
    var h1 := [collection + "?page=" + IntToString(q1.page), "page_size=" + IntToString(q1.pageSize)];
    var h2 := [collection + "?page=" + IntToString(q2.page), "page_size=" + IntToString(q2.pageSize)];
    QueryKeyPieces(collection, q1);
    QueryKeyPieces(collection, q2);
    PagingHeadPieces(collection, q1.page, q1.pageSize);
    PagingHeadPieces(collection, q2.page, q2.pageSize);
    PiecesDetermine(h1, h2, q1, q2);
    PrefixCancel(collection + "?page=", IntToString(q1.page), IntToString(q2.page));
    PrefixCancel("page_size=", IntToString(q1.pageSize), IntToString(q2.pageSize));
    IntToStringInjective(q1.page, q2.page);
    IntToStringInjective(q1.pageSize, q2.pageSize);
  }

  /** Two game requests share a key exactly when they are the same request. */
  lemma GamesKeyInjective(q1: GamesQuery, q2: GamesQuery)
    ensures QueryKey("games", q1) == QueryKey("games", q2) <==> SameGamesRequest(q1, q2)
  {
    if QueryKey("games", q1) == QueryKey("games", q2) {
      SameCollectionKeys("games", q1, q2);
    }
    if SameGamesRequest(q1, q2) {
      SameFiltersSameSuffix(q1, q2);
    }
  }

  /** The request the genres lookup keys on: no filters, the requested paging. */
  function GenresQuery(page: int, pageSize: int): GamesQuery
  {
    GamesQuery(None, None, None, None, page, pageSize)
  }

  /** Each genres page has a key of its own. */
  lemma GenresKeyInjective(page1: int, pageSize1: int, page2: int, pageSize2: int)
    ensures QueryKey("genres", GenresQuery(page1, pageSize1)) == QueryKey("genres", GenresQuery(page2, pageSize2))
            <==> page1 == page2 && pageSize1 == pageSize2
  {
    if QueryKey("genres", GenresQuery(page1, pageSize1)) == QueryKey("genres", GenresQuery(page2, pageSize2)) {
      SameCollectionKeys("genres", GenresQuery(page1, pageSize1), GenresQuery(page2, pageSize2));
    }
  }

  class CachedRawgApi {
    const gamesCache: LruCache<string, CollectionResult<Game>>
    const genresCache: LruCache<string, CollectionResult<Genre>>
    const rawgApi: RawgProvider

    ghost predicate Valid()
      reads this, gamesCache, genresCache
    {
      gamesCache.Valid() && genresCache.Valid()
    }

    constructor(gamesCache: LruCache<string, CollectionResult<Game>>,
                genresCache: LruCache<string, CollectionResult<Genre>>, rawgApi: RawgProvider)
      ensures this.gamesCache == gamesCache && this.genresCache == genresCache && this.rawgApi == rawgApi
    {
      this.gamesCache := gamesCache;
      this.genresCache := genresCache;
      this.rawgApi := rawgApi;
    }

    /** The source's constructor: null dependencies are rejected in order, naming the parameter. */
    static method Create(gamesCache: LruCache?<string, CollectionResult<Game>>,
                         genresCache: LruCache?<string, CollectionResult<Genre>>,
                         logger: Option<Logger>, rawgApiFactory: Option<string -> RawgProvider?>)
      returns (r: Result<CachedRawgApi, Errors.Exception>)
      ensures gamesCache == null ==> r == Failure(Errors.ArgumentNullException("gamesCache"))
      ensures gamesCache != null && genresCache == null ==> r == Failure(Errors.ArgumentNullException("genresCache"))
      ensures gamesCache != null && genresCache != null && logger.None?
              ==> r == Failure(Errors.ArgumentNullException("logger"))
      ensures gamesCache != null && genresCache != null && logger.Some?
              ==> match rawgApiFactory
                  case None => r == Failure(Errors.ArgumentNullException("rawgApiFactory"))
                  case Some(factory) =>
                    if factory("Base") == null then r == Failure(Errors.ArgumentNullException("rawgApiFactory"))
                    else r.Success? && fresh(r.value) && r.value.rawgApi == factory("Base")
                         && r.value.gamesCache == gamesCache && r.value.genresCache == genresCache
    {
      if gamesCache == null { return Failure(Errors.ArgumentNullException("gamesCache")); }
      if genresCache == null { return Failure(Errors.ArgumentNullException("genresCache")); }
      if logger.None? { return Failure(Errors.ArgumentNullException("logger")); }
      if rawgApiFactory.None? { return Failure(Errors.ArgumentNullException("rawgApiFactory")); }
      var rawgApi := rawgApiFactory.value("Base");
      if rawgApi == null { return Failure(Errors.ArgumentNullException("rawgApiFactory")); }
      var c := new CachedRawgApi(gamesCache, genresCache, rawgApi);
      return Success(c);
    }

    /** `GetGamesAsync`, at instant `now`: cache-aside under the "games" key. */
    method GetGamesAsync(query: GamesQuery, now: int) returns (r: Result<CollectionResult<Game>, Errors.Exception>)
      requires Valid()
      modifies gamesCache, rawgApi
      ensures Valid()
      ensures var s := Serve(old(gamesCache.list), gamesCache.size, QueryKey("games", query), now,
                             rawgApi.games(query), Always);
              && r == s.result
              && gamesCache.list == s.cache
              && rawgApi.calls == old(rawgApi.calls) + (if s.upstreamCalled then [GamesCall(query)] else [])
    {
      var key := BuildCacheKey("games", query.genres, query.parentPlatforms, query.ordering, query.search,
                               query.page, query.pageSize);
      var cached := gamesCache.Get(key, now);
      if cached.Some? {
        return Success(cached.value);
      }
      r := rawgApi.GetGamesAsync(query);
      if r.Success? {
        gamesCache.Set(key, r.value, Some(CacheTimeToLive), now);
      }
    }

    /**
     * `GetGenresAsync`, at instant `now`: the key names the requested page, but a miss asks
     * the provider for the default page and stores that answer under the key.
     */
    method GetGenresAsync(page: int, pageSize: int, now: int) returns (r: Result<CollectionResult<Genre>, Errors.Exception>)
      requires Valid()
      modifies genresCache, rawgApi
      ensures Valid()
      ensures var s := Serve(old(genresCache.list), genresCache.size, QueryKey("genres", GenresQuery(page, pageSize)),
                             now, rawgApi.genres(DefaultPage, DefaultPageSize), Always);
              && r == s.result
              && genresCache.list == s.cache
              && rawgApi.calls == old(rawgApi.calls)
                                  + (if s.upstreamCalled then [GenresCall(DefaultPage, DefaultPageSize)] else [])
    {
      var key := BuildCacheKey("genres", None, None, None, None, page, pageSize);
      var cached := genresCache.Get(key, now);
      if cached.Some? {
        return Success(cached.value);
      }
      r := rawgApi.GetGenresAsync(DefaultPage, DefaultPageSize);
      if r.Success? {
        genresCache.Set(key, r.value, Some(CacheTimeToLive), now);
      }
    }
  }

  /**
   * On empty caches, any two genres pages are answered with the provider's default page, and a
   * successful answer is stored under the requested page's key: for seven days, asking for
   * page 2 is a hit that returns what page 1 holds.
   */
  lemma GenresPagesShareAnswer(rawgApi: RawgProvider, size: int, page: int, pageSize: int,
                               otherPage: int, otherPageSize: int, now: int, later: int)
    requires 1 <= size && now <= later < now + CacheTimeToLive
    ensures var upstream := rawgApi.genres(DefaultPage, DefaultPageSize);
            var key := QueryKey("genres", GenresQuery(page, pageSize));
            var s := Serve([], size, key, now, upstream, Always);
            var t := Serve([], size, QueryKey("genres", GenresQuery(otherPage, otherPageSize)), now, upstream, Always);
            && s.result == upstream && t.result == upstream
            && (upstream.Success? ==> Hit(s.cache, key, later, Always) == Some(upstream.value))
  {
    var upstream := rawgApi.genres(DefaultPage, DefaultPageSize);
    var key := QueryKey("genres", GenresQuery(page, pageSize));
    if upstream.Success? {
      MissStoresAnswer([], size, key, now, upstream.value, Always, later, upstream);
    }
  }
}
