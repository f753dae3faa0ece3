/**
 * The caching decorator of the catalogue provider (GameHubApi.Providers/CachedRawgApi.cs).
 * Every request is turned into an ordered parameter dictionary, the dictionary into a key
 * `name=escaped;` per non-blank value, and the key is looked up in the cache of that kind
 * of answer (five caches). A miss asks the wrapped provider and stores its answer for seven days.
 */
module CachedRawg {
  import opened Wrappers
  import opened Text
  import opened UriEscape
  import opened KeyParts
  import opened Contracts
  import opened Rawg
  import opened Lru
  import opened CacheAside
  import Errors

  /** One entry of the parameter dictionary, in insertion order: name and possibly-null value. */
  type Parameter = (string, Option<string>)

  /** The segment of a present parameter: `name=escaped;`. */
  function Rendered(name: string, value: string): string
  {
    name + "=" + EscapeDataString(value) + ";"
  }

  /** What one parameter adds to the key: its rendered segment, or nothing for a blank value. */
  function Segment(p: Parameter): string
  {
    if IsNullOrWhiteSpace(p.1) then "" else Rendered(p.0, p.1.value)
  }

  /** The key of a parameter dictionary: the segments of its entries in insertion order. */
  function CacheKey(ps: seq<Parameter>): string
  {
    if ps == [] then "" else Segment(ps[0]) + CacheKey(ps[1..])
  }

  /** Appending a parameter to the dictionary appends its segment to the key. */
  lemma {:induction false} CacheKeyAppend(ps: seq<Parameter>, p: Parameter)
    ensures CacheKey(ps + [p]) == CacheKey(ps) + Segment(p)
  {
    if ps == [] {
      assert [p][1..] == [];
      assert ps + [p] == [p];
    } else {
      assert (ps + [p])[1..] == ps[1..] + [p];
      CacheKeyAppend(ps[1..], p);
    }
  }

  /** `BuildCacheKey`: the StringBuilder loop over the dictionary. */
  method BuildCacheKey(parameters: seq<Parameter>) returns (key: string)
    ensures key == CacheKey(parameters)
  {
    key := "";
    for i := 0 to |parameters|
      invariant key == CacheKey(parameters[..i])
    {
      CacheKeyAppend(parameters[..i], parameters[i]);
      assert parameters[..i + 1] == parameters[..i] + [parameters[i]];
      var (name, value) := parameters[i];
      if !IsNullOrWhiteSpace(value) {
        key := key + Rendered(name, value.value);
      } else {
        assert key + Segment(parameters[i]) == key;
      }
    }
    assert parameters[..|parameters|] == parameters;
  }

  /** The present parameters of a dictionary, in order. */
  function PresentPairs(ps: seq<Parameter>): seq<Pair>
  {
    if ps == [] then [] else Present(ps[0].0, ps[0].1) + PresentPairs(ps[1..])
  }

  /** The key is the rendered present parameters, each followed by ';'. */
  lemma {:induction false} CacheKeyIsTerminated(ps: seq<Parameter>)
    ensures CacheKey(ps) == Terminated(Bodies(PresentPairs(ps)), ';')
  {
    if ps != [] {
      CacheKeyIsTerminated(ps[1..]);
      var head := Present(ps[0].0, ps[0].1);
      var rest := PresentPairs(ps[1..]);
      if head != [] {
        assert (head + rest)[1..] == rest;
        assert Bodies(head + rest)[1..] == Bodies(rest);
      } else {
        assert head + rest == rest;
      }
    }
  }

  /** Split on ';', a key gives back the bodies of its present parameters and an empty tail. */
  lemma SplitCacheKey(ps: seq<Parameter>)
    requires PlainNames(PresentPairs(ps))
    ensures Split(CacheKey(ps), ';') == Bodies(PresentPairs(ps)) + [""]
  {
    var bs := Bodies(PresentPairs(ps));
    CacheKeyIsTerminated(ps);
    TerminatedIsJoin(bs, ';');
    BodiesHaveNoSeparators(PresentPairs(ps));
    assert forall i | 0 <= i < |bs + [""]| :: ';' !in (bs + [""])[i] by {
      forall i | 0 <= i < |bs + [""]| ensures ';' !in (bs + [""])[i] {
        if i < |bs| { assert (bs + [""])[i] == bs[i]; }
      }
    }
    SplitJoin(bs + [""], ';');
  }

  /** Equal keys come from dictionaries with the same present parameters. */
  lemma CacheKeyDeterminesParameters(ps: seq<Parameter>, qs: seq<Parameter>)
    requires PlainNames(PresentPairs(ps)) && PlainNames(PresentPairs(qs))
    requires CacheKey(ps) == CacheKey(qs)
    ensures PresentPairs(ps) == PresentPairs(qs)
  {
    var a, b := PresentPairs(ps), PresentPairs(qs);
    SplitCacheKey(ps);
    SplitCacheKey(qs);
    assert Bodies(a) + [""] == Bodies(b) + [""];
    assert Bodies(a) == (Bodies(a) + [""])[..|Bodies(a)|];
    assert Bodies(b) == (Bodies(b) + [""])[..|Bodies(b)|];
    BodiesInjective(a, b);
  }

  // ---------------------------------------------------------------- the five dictionaries

  /** The dictionary of `GetGamesAsync`; page and page size are always present. */
  function GamesParameters(q: GamesQuery): seq<Parameter>
  {
    [ ("genres", q.genres), ("parentPlatforms", q.parentPlatforms), ("ordering", q.ordering),
      ("search", q.search), ("page", Some(IntToString(q.page))), ("pageSize", Some(IntToString(q.pageSize))) ]
  }

  /** The dictionary of `GetGenresAsync`. */
  function GenresParameters(page: int, pageSize: int): seq<Parameter>
  {
    [("page", Some(IntToString(page))), ("pageSize", Some(IntToString(pageSize)))]
  }

  /** The dictionary of `GetGameAsync`, `GetMovies` and `GetScreenshots`. */
  function IdParameters(gameId: string): seq<Parameter>
  {
    [("id", Some(gameId))]
  }

  lemma SingleParameter(p: Parameter)
    ensures CacheKey([p]) == Segment(p) && PresentPairs([p]) == Present(p.0, p.1)
  {
    assert [p][1..] == [];
    assert Segment(p) + "" == Segment(p);
    assert Present(p.0, p.1) + [] == Present(p.0, p.1);
  }

  /** A six-entry dictionary, unfolded. */
  lemma Unfold6(a: Parameter, b: Parameter, c: Parameter, d: Parameter, e: Parameter, f: Parameter)
    ensures CacheKey([a, b, c, d, e, f])
         == Segment(a) + (Segment(b) + (Segment(c) + (Segment(d) + (Segment(e) + Segment(f)))))
    ensures PresentPairs([a, b, c, d, e, f])
         == Present(a.0, a.1) + (Present(b.0, b.1) + (Present(c.0, c.1) + (Present(d.0, d.1)
            + (Present(e.0, e.1) + Present(f.0, f.1)))))
  {
    SingleParameter(f);
    assert [e, f][1..] == [f];
    assert CacheKey([e, f]) == Segment(e) + CacheKey([f]);
    assert PresentPairs([e, f]) == Present(e.0, e.1) + PresentPairs([f]);
    assert [d, e, f][1..] == [e, f];
    assert CacheKey([d, e, f]) == Segment(d) + CacheKey([e, f]);
    assert PresentPairs([d, e, f]) == Present(d.0, d.1) + PresentPairs([e, f]);
    assert [c, d, e, f][1..] == [d, e, f];
    assert CacheKey([c, d, e, f]) == Segment(c) + CacheKey([d, e, f]);
    assert PresentPairs([c, d, e, f]) == Present(c.0, c.1) + PresentPairs([d, e, f]);
    assert [b, c, d, e, f][1..] == [c, d, e, f];
    assert CacheKey([b, c, d, e, f]) == Segment(b) + CacheKey([c, d, e, f]);
    assert PresentPairs([b, c, d, e, f]) == Present(b.0, b.1) + PresentPairs([c, d, e, f]);
    assert [a, b, c, d, e, f][1..] == [b, c, d, e, f];
  }

  /** The value a games request gives each name once rendered. */
  function GamesValue(q: GamesQuery, name: string): Option<string>
  {
    if name == "genres" then Normalize(q.genres)
    else if name == "parentPlatforms" then Normalize(q.parentPlatforms)
    else if name == "ordering" then Normalize(q.ordering)
    else if name == "search" then Normalize(q.search)
    else if name == "page" then Some(IntToString(q.page))
    else if name == "pageSize" then Some(IntToString(q.pageSize))
    else None
  }

  /** What one parameter gives a name when read back: its non-blank value, if it has that name. */
  function ValueFor(p: Parameter, name: string): Option<string>
  {
    if p.0 == name then Normalize(p.1) else None
  }

  /** The first of two answers that is present. */
  function Pick(x: Option<string>, y: Option<string>): Option<string>
  {
    if x.Some? then x else y
  }

  /** Reading a six-entry dictionary back gives, for each name, the first non-blank value under it. */
  lemma SixValues(a: Parameter, b: Parameter, c: Parameter, d: Parameter, e: Parameter, f: Parameter, name: string)
    ensures ValueOf(PresentPairs([a, b, c, d, e, f]), name)
         == Pick(ValueFor(a, name), Pick(ValueFor(b, name), Pick(ValueFor(c, name),
              Pick(ValueFor(d, name), Pick(ValueFor(e, name), ValueFor(f, name))))))
  {
    Unfold6(a, b, c, d, e, f);
    var p1, p2, p3 := Present(a.0, a.1), Present(b.0, b.1), Present(c.0, c.1);
    var p4, p5, p6 := Present(d.0, d.1), Present(e.0, e.1), Present(f.0, f.1);
    ValueOfConcat(p5, p6, name);
    ValueOfConcat(p4, p5 + p6, name);
    ValueOfConcat(p3, p4 + (p5 + p6), name);
    ValueOfConcat(p2, p3 + (p4 + (p5 + p6)), name);
    ValueOfConcat(p1, p2 + (p3 + (p4 + (p5 + p6))), name);
    PresentValue(a.0, a.1, name);
    PresentValue(b.0, b.1, name);
    PresentValue(c.0, c.1, name);
    PresentValue(d.0, d.1, name);
    PresentValue(e.0, e.1, name);
    PresentValue(f.0, f.1, name);
  }

  /** Reading the present parameters of a games request back gives each filter and the paging. */
  lemma GamesValues(q: GamesQuery, name: string)
    ensures ValueOf(PresentPairs(GamesParameters(q)), name) == GamesValue(q, name)
    ensures PlainNames(PresentPairs(GamesParameters(q)))
  {
    GamesValuesRead(q, name);
    GamesNamesPlain(q);
  }

  lemma GamesValuesRead(q: GamesQuery, name: string)
    ensures ValueOf(PresentPairs(GamesParameters(q)), name) == GamesValue(q, name)
  {
    var ps := GamesParameters(q);
    IntToStringCharset(q.page);
    IntToStringCharset(q.pageSize);
    SixValues(ps[0], ps[1], ps[2], ps[3], ps[4], ps[5], name);
    assert "genres" != "parentPlatforms" && "genres" != "ordering" && "genres" != "page" && "genres" != "pageSize";
    assert "genres"[0] != "search"[0];
    assert "parentPlatforms" != "ordering" && "parentPlatforms" != "search" && "parentPlatforms" != "page";
    assert "parentPlatforms" != "pageSize";
    assert "ordering" != "search" && "ordering" != "page" && "ordering"[0] != "pageSize"[0];
    assert "search" != "page" && "search" != "pageSize" && "page" != "pageSize";
  }

  /** The parameter names the decorator uses are plain. */
  lemma NamesPlain()
    ensures PlainName("genres") && PlainName("parentPlatforms") && PlainName("ordering")
    ensures PlainName("search") && PlainName("page") && PlainName("pageSize")
  {
    IdentifierPlain("genres");
    IdentifierPlain("parentPlatforms");
    IdentifierPlain("ordering");
    IdentifierPlain("search");
    IdentifierPlain("page");
    IdentifierPlain("pageSize");
  }

  /** A plain-named parameter in front of plain present parameters keeps them plain. */
  lemma PresentPairsCons(ps: seq<Parameter>)
    requires ps != [] && PlainName(ps[0].0) && PlainNames(PresentPairs(ps[1..]))
    ensures PlainNames(PresentPairs(ps))
  {
    PlainNamesConcat(Present(ps[0].0, ps[0].1), PresentPairs(ps[1..]));
  }

  /** The six names of a games request are plain. */
  lemma GamesNamesPlain(q: GamesQuery)
    ensures PlainNames(PresentPairs(GamesParameters(q)))
  {
    var ps := GamesParameters(q);
    NamesPlain();
    assert PresentPairs(ps[6..]) == [];
    assert ps[5..][1..] == ps[6..];
    PresentPairsCons(ps[5..]);
    assert ps[4..][1..] == ps[5..];
    PresentPairsCons(ps[4..]);
    assert ps[3..][1..] == ps[4..];
    PresentPairsCons(ps[3..]);
    assert ps[2..][1..] == ps[3..];
    PresentPairsCons(ps[2..]);
    assert ps[1..][1..] == ps[2..];
    PresentPairsCons(ps[1..]);
    PresentPairsCons(ps);
  }

  /** `s` ends with `t`. */
  predicate EndsWith(s: string, t: string)
  {
    |t| <= |s| && s[|s| - |t|..] == t
  }

  lemma EndsWithConcat(x: string, s: string, t: string)
    requires EndsWith(s, t)
    ensures EndsWith(x + s, t)
  {
    assert (x + s)[|x + s| - |t|..] == s[|s| - |t|..];
  }

  /** Page and page size are written as plain digits. */
  lemma PagingRendered(name: string, n: int)
    ensures Rendered(name, IntToString(n)) == name + "=" + IntToString(n) + ";"
  {
    IntToStringCharset(n);
    EscapeUnreservedIdentity(IntToString(n));
  }

  /** The games key always ends with the page segment and the page-size segment. */
  lemma GamesKeyEndsWithPaging(q: GamesQuery)
    ensures EndsWith(CacheKey(GamesParameters(q)),
                     Rendered("page", IntToString(q.page)) + Rendered("pageSize", IntToString(q.pageSize)))
  {
    var ps := GamesParameters(q);
    Unfold6(ps[0], ps[1], ps[2], ps[3], ps[4], ps[5]);
    IntToStringCharset(q.page);
    IntToStringCharset(q.pageSize);
    var tail := Segment(ps[4]) + Segment(ps[5]);
    assert Segment(ps[4]) == Rendered("page", IntToString(q.page));
    assert Segment(ps[5]) == Rendered("pageSize", IntToString(q.pageSize));
    var s3 := Segment(ps[3]) + tail;
    var s2 := Segment(ps[2]) + s3;
    var s1 := Segment(ps[1]) + s2;
    assert CacheKey(ps) == Segment(ps[0]) + s1;
    assert EndsWith(tail, tail);
    EndsWithConcat(Segment(ps[3]), tail, tail);
    EndsWithConcat(Segment(ps[2]), s3, tail);
    EndsWithConcat(Segment(ps[1]), s2, tail);
    EndsWithConcat(Segment(ps[0]), s1, tail);
  }

  /** Dictionaries whose entries have the same segments, entry by entry, have the same key. */
  lemma {:induction false} CacheKeyPointwise(ps: seq<Parameter>, ns: seq<Parameter>)
    requires |ps| == |ns| && forall i | 0 <= i < |ps| :: Segment(ps[i]) == Segment(ns[i])
    ensures CacheKey(ps) == CacheKey(ns)
  {
    if ps != [] {
      CacheKeyPointwise(ps[1..], ns[1..]);
    }
  }

  /** A null filter and a blank filter give the same games key. */
  lemma GamesKeyIgnoresBlankFilters(q: GamesQuery)
    ensures CacheKey(GamesParameters(q))
         == CacheKey(GamesParameters(GamesQuery(Normalize(q.genres), Normalize(q.parentPlatforms),
                                                Normalize(q.ordering), Normalize(q.search), q.page, q.pageSize)))
  {
    var n := GamesQuery(Normalize(q.genres), Normalize(q.parentPlatforms), Normalize(q.ordering),
                        Normalize(q.search), q.page, q.pageSize);
    var ps, ns := GamesParameters(q), GamesParameters(n);
    forall i | 0 <= i < |ps| ensures Segment(ps[i]) == Segment(ns[i]) {
      if i < 4 {
        SegmentIgnoresBlank(ps[i].0, ps[i].1);
        assert ns[i] == (ps[i].0, Normalize(ps[i].1));
      } else {
        assert ns[i] == ps[i];
      }
    }
    CacheKeyPointwise(ps, ns);
  }

  /** A blank value and null give the same segment. */
  lemma SegmentIgnoresBlank(name: string, v: Option<string>)
    ensures Segment((name, v)) == Segment((name, Normalize(v)))
  {
  }

  /** Two game queries share a key exactly when they are the same request. */
  lemma GamesKeyInjective(q1: GamesQuery, q2: GamesQuery)
    ensures CacheKey(GamesParameters(q1)) == CacheKey(GamesParameters(q2)) <==> SameGamesRequest(q1, q2)
  {
    if CacheKey(GamesParameters(q1)) == CacheKey(GamesParameters(q2)) {
      GamesValues(q1, "");
      GamesValues(q2, "");
      CacheKeyDeterminesParameters(GamesParameters(q1), GamesParameters(q2));
      GamesValues(q1, "genres");
      GamesValues(q2, "genres");
      GamesValues(q1, "parentPlatforms");
      GamesValues(q2, "parentPlatforms");
      GamesValues(q1, "ordering");
      GamesValues(q2, "ordering");
      GamesValues(q1, "search");
      GamesValues(q2, "search");
      GamesValues(q1, "page");
      GamesValues(q2, "page");
      GamesValues(q1, "pageSize");
      GamesValues(q2, "pageSize");
      IntToStringInjective(q1.page, q2.page);
      IntToStringInjective(q1.pageSize, q2.pageSize);
    }
    if SameGamesRequest(q1, q2) {
      GamesKeyIgnoresBlankFilters(q1);
      GamesKeyIgnoresBlankFilters(q2);
    }
  }

  /** The key of a detail request is `id=escaped;`, the same for all three detail caches. */
  lemma DetailKey(gameId: string)
    requires !IsNullOrWhiteSpace(Some(gameId))
    ensures CacheKey(IdParameters(gameId)) == "id=" + EscapeDataString(gameId) + ";"
  {
  }

  /** Distinct game ids give distinct detail keys. */
  lemma DetailKeyInjective(id1: string, id2: string)
    requires !IsNullOrWhiteSpace(Some(id1)) && !IsNullOrWhiteSpace(Some(id2))
    requires CacheKey(IdParameters(id1)) == CacheKey(IdParameters(id2))
    ensures id1 == id2
  {
    var e1, e2 := EscapeDataString(id1), EscapeDataString(id2);
    DetailKey(id1);
    DetailKey(id2);
    assert e1 == ("id=" + e1 + ";")[3..|e1| + 3];
    assert e2 == ("id=" + e2 + ";")[3..|e2| + 3];
    EscapeInjective(id1, id2);
  }

  // ---------------------------------------------------------------- the decorator

  /** The usability test of the details cache: a stored null counts as a miss. */
  predicate NotNull(g: Game?)
  {
    g != null
  }

  /** What a blank game id is answered with. */
  const BlankId: Errors.Exception := Errors.ArgumentException("gameId")

  class CachedRawgApi {
    const gamesCollectionCache: LruCache<string, CollectionResult<Game>>
    const genresCollectionCache: LruCache<string, CollectionResult<Genre>>
    const gameDetailsCache: LruCache<string, Game?>
    const movieCollectionCache: LruCache<string, CollectionResult<Movie>>
    const screenshotCollectionCache: LruCache<string, CollectionResult<Screenshot>>
    const rawgApi: RawgProvider

    ghost predicate Valid()
      reads this, gamesCollectionCache, genresCollectionCache, gameDetailsCache,
            movieCollectionCache, screenshotCollectionCache
    {
      && gamesCollectionCache.Valid() && genresCollectionCache.Valid() && gameDetailsCache.Valid()
      && movieCollectionCache.Valid() && screenshotCollectionCache.Valid()
    }

    /**
     * The five caches hold different value types, so they are five different objects, and none
     * is the provider: a call through one cache leaves the others as they were.
     */
    lemma Separate()
      ensures gamesCollectionCache as object != genresCollectionCache && gamesCollectionCache as object != gameDetailsCache
      ensures gamesCollectionCache as object != movieCollectionCache && gamesCollectionCache as object != screenshotCollectionCache
      ensures genresCollectionCache as object != gameDetailsCache && genresCollectionCache as object != movieCollectionCache
      ensures genresCollectionCache as object != screenshotCollectionCache
      ensures gameDetailsCache as object != movieCollectionCache && gameDetailsCache as object != screenshotCollectionCache
      ensures movieCollectionCache as object != screenshotCollectionCache
      ensures rawgApi as object != gamesCollectionCache && rawgApi as object != genresCollectionCache
      ensures rawgApi as object != gameDetailsCache && rawgApi as object != movieCollectionCache
      ensures rawgApi as object != screenshotCollectionCache
    {
    }

    constructor(
      gamesCollectionCache: LruCache<string, CollectionResult<Game>>,
      genresCollectionCache: LruCache<string, CollectionResult<Genre>>,
      gameDetailsCache: LruCache<string, Game?>,
      movieCollectionCache: LruCache<string, CollectionResult<Movie>>,
      screenshotCollectionCache: LruCache<string, CollectionResult<Screenshot>>,
      rawgApi: RawgProvider)
      ensures this.gamesCollectionCache == gamesCollectionCache
      ensures this.genresCollectionCache == genresCollectionCache
      ensures this.gameDetailsCache == gameDetailsCache
      ensures this.movieCollectionCache == movieCollectionCache
      ensures this.screenshotCollectionCache == screenshotCollectionCache
      ensures this.rawgApi == rawgApi
    {
      this.gamesCollectionCache := gamesCollectionCache;
      this.genresCollectionCache := genresCollectionCache;
      this.gameDetailsCache := gameDetailsCache;
      this.movieCollectionCache := movieCollectionCache;
      this.screenshotCollectionCache := screenshotCollectionCache;
      this.rawgApi := rawgApi;
    }

    /**
     * The source's constructor: each null dependency is rejected, in order, with
     * ArgumentNullException naming it; the decorator wraps the provider the factory makes for "Base".
     */
    static method Create(
      gamesCollectionCache: LruCache?<string, CollectionResult<Game>>,
      genresCollectionCache: LruCache?<string, CollectionResult<Genre>>,
      gameDetailsCache: LruCache?<string, Game?>,
      movieCollectionCache: LruCache?<string, CollectionResult<Movie>>,
      screenshotCollectionCache: LruCache?<string, CollectionResult<Screenshot>>,
      logger: Option<Logger>,
      rawgApiFactory: Option<string -> RawgProvider?>)
      returns (r: Result<CachedRawgApi, Errors.Exception>)
      ensures gamesCollectionCache == null ==> r == Failure(Errors.ArgumentNullException("gamesCollectionCache"))
      ensures gamesCollectionCache != null && genresCollectionCache == null
              ==> r == Failure(Errors.ArgumentNullException("genresCollectionCache"))
      ensures gamesCollectionCache != null && genresCollectionCache != null && gameDetailsCache == null
              ==> r == Failure(Errors.ArgumentNullException("gameDetailsCache"))
      ensures gamesCollectionCache != null && genresCollectionCache != null && gameDetailsCache != null
              && movieCollectionCache == null
              ==> r == Failure(Errors.ArgumentNullException("movieCollectionCache"))
      ensures gamesCollectionCache != null && genresCollectionCache != null && gameDetailsCache != null
              && movieCollectionCache != null && screenshotCollectionCache == null
              ==> r == Failure(Errors.ArgumentNullException("screenshotCollectionCache"))
      ensures gamesCollectionCache != null && genresCollectionCache != null && gameDetailsCache != null
              && movieCollectionCache != null && screenshotCollectionCache != null && logger.None?
              ==> r == Failure(Errors.ArgumentNullException("logger"))
      ensures gamesCollectionCache != null && genresCollectionCache != null && gameDetailsCache != null
              && movieCollectionCache != null && screenshotCollectionCache != null && logger.Some?
              ==> match rawgApiFactory
                  case None => r == Failure(Errors.ArgumentNullException("rawgApiFactory"))
                  case Some(factory) =>
                    if factory("Base") == null then r == Failure(Errors.ArgumentNullException("rawgApiFactory"))
                    else r.Success? && fresh(r.value) && r.value.rawgApi == factory("Base")
                         && r.value.gamesCollectionCache == gamesCollectionCache
                         && r.value.genresCollectionCache == genresCollectionCache
                         && r.value.gameDetailsCache == gameDetailsCache
                         && r.value.movieCollectionCache == movieCollectionCache
                         && r.value.screenshotCollectionCache == screenshotCollectionCache
    {
      if gamesCollectionCache == null { return Failure(Errors.ArgumentNullException("gamesCollectionCache")); }
      if genresCollectionCache == null { return Failure(Errors.ArgumentNullException("genresCollectionCache")); }
      if gameDetailsCache == null { return Failure(Errors.ArgumentNullException("gameDetailsCache")); }
      if movieCollectionCache == null { return Failure(Errors.ArgumentNullException("movieCollectionCache")); }
      if screenshotCollectionCache == null { return Failure(Errors.ArgumentNullException("screenshotCollectionCache")); }
      if logger.None? { return Failure(Errors.ArgumentNullException("logger")); }
      if rawgApiFactory.None? { return Failure(Errors.ArgumentNullException("rawgApiFactory")); }
      var rawgApi := rawgApiFactory.value("Base");
      if rawgApi == null { return Failure(Errors.ArgumentNullException("rawgApiFactory")); }
      var c := new CachedRawgApi(gamesCollectionCache, genresCollectionCache, gameDetailsCache,
                                 movieCollectionCache, screenshotCollectionCache, rawgApi);
      return Success(c);
    }

    /** `GetGamesAsync`, at instant `now`. */
    method GetGamesAsync(query: GamesQuery, now: int) returns (r: Result<CollectionResult<Game>, Errors.Exception>)
      requires Valid()
      modifies gamesCollectionCache, rawgApi
      ensures Valid()
      ensures var s := Serve(old(gamesCollectionCache.list), gamesCollectionCache.size, CacheKey(GamesParameters(query)),
                             now, rawgApi.games(query), Always);
              && r == s.result
              && gamesCollectionCache.list == s.cache
              && rawgApi.calls == old(rawgApi.calls) + (if s.upstreamCalled then [GamesCall(query)] else [])
    {
      Separate();
      var key := BuildCacheKey(GamesParameters(query));
      var cached := gamesCollectionCache.Get(key, now);
      if cached.Some? {
        return Success(cached.value);
      }
      r := rawgApi.GetGamesAsync(query);
      if r.Success? {
        gamesCollectionCache.Set(key, r.value, Some(CacheTimeToLive), now);
      }
    }

    /** `GetGenresAsync`, at instant `now`. */
    method GetGenresAsync(page: int, pageSize: int, now: int) returns (r: Result<CollectionResult<Genre>, Errors.Exception>)
      requires Valid()
      modifies genresCollectionCache, rawgApi
      ensures Valid()
      ensures var s := Serve(old(genresCollectionCache.list), genresCollectionCache.size, CacheKey(GenresParameters(page, pageSize)),
                             now, rawgApi.genres(page, pageSize), Always);
              && r == s.result
              && genresCollectionCache.list == s.cache
              && rawgApi.calls == old(rawgApi.calls) + (if s.upstreamCalled then [GenresCall(page, pageSize)] else [])
    {
      Separate();
      var key := BuildCacheKey(GenresParameters(page, pageSize));
      var cached := genresCollectionCache.Get(key, now);
      if cached.Some? {
        return Success(cached.value);
      }
      r := rawgApi.GetGenresAsync(page, pageSize);
      if r.Success? {
        genresCollectionCache.Set(key, r.value, Some(CacheTimeToLive), now);
      }
    }

    /**
     * `GetGameAsync`, at instant `now`: a blank id is rejected before any cache access; a
     * stored null counts as a miss. The movie and screenshot caches, which use the same
     * `id=X;` keys, are separate objects and keep their contents.
     */
    method GetGameAsync(gameId: string, now: int) returns (r: Result<Game?, Errors.Exception>)
      requires Valid()
      modifies gameDetailsCache, rawgApi
      ensures Valid()
      ensures IsNullOrWhiteSpace(Some(gameId)) ==>
                r == Failure(BlankId) && gameDetailsCache.list == old(gameDetailsCache.list)
                && rawgApi.calls == old(rawgApi.calls)
      ensures !IsNullOrWhiteSpace(Some(gameId)) ==>
              var s := Serve(old(gameDetailsCache.list), gameDetailsCache.size, CacheKey(IdParameters(gameId)),
                             now, rawgApi.game(gameId), NotNull);
              && r == s.result
              && gameDetailsCache.list == s.cache
              && rawgApi.calls == old(rawgApi.calls) + (if s.upstreamCalled then [GameCall(gameId)] else [])
      ensures movieCollectionCache.list == old(movieCollectionCache.list)
              && screenshotCollectionCache.list == old(screenshotCollectionCache.list)
    {
      Separate();
      if IsNullOrWhiteSpace(Some(gameId)) {
        return Failure(BlankId);
      }
      var key := BuildCacheKey(IdParameters(gameId));
      var cached := gameDetailsCache.Get(key, now);
      if cached.Some? && cached.value != null {
        return Success(cached.value);
      }
      r := rawgApi.GetGameAsync(gameId);
      if r.Success? {
        gameDetailsCache.Set(key, r.value, Some(CacheTimeToLive), now);
      }
    }

    /** `GetMovies`, at instant `now`: a blank id is rejected before any cache access. */
    method GetMovies(gameId: string, now: int) returns (r: Result<CollectionResult<Movie>, Errors.Exception>)
      requires Valid()
      modifies movieCollectionCache, rawgApi
      ensures Valid()
      ensures IsNullOrWhiteSpace(Some(gameId)) ==>
                r == Failure(BlankId) && movieCollectionCache.list == old(movieCollectionCache.list)
                && rawgApi.calls == old(rawgApi.calls)
      ensures !IsNullOrWhiteSpace(Some(gameId)) ==>
              var s := Serve(old(movieCollectionCache.list), movieCollectionCache.size, CacheKey(IdParameters(gameId)),
                             now, rawgApi.movies(gameId), Always);
              && r == s.result
              && movieCollectionCache.list == s.cache
              && rawgApi.calls == old(rawgApi.calls) + (if s.upstreamCalled then [MoviesCall(gameId)] else [])
      ensures gameDetailsCache.list == old(gameDetailsCache.list)
              && screenshotCollectionCache.list == old(screenshotCollectionCache.list)
    {
      Separate();
      if IsNullOrWhiteSpace(Some(gameId)) {
        return Failure(BlankId);
      }
      var key := BuildCacheKey(IdParameters(gameId));
      var cached := movieCollectionCache.Get(key, now);
      if cached.Some? {
        return Success(cached.value);
      }
      r := rawgApi.GetMovies(gameId);
      if r.Success? {
        movieCollectionCache.Set(key, r.value, Some(CacheTimeToLive), now);
      }
    }

    /** `GetScreenshots`, at instant `now`: a blank id is rejected before any cache access. */
    method GetScreenshots(gameId: string, now: int) returns (r: Result<CollectionResult<Screenshot>, Errors.Exception>)
      requires Valid()
      modifies screenshotCollectionCache, rawgApi
      ensures Valid()
      ensures IsNullOrWhiteSpace(Some(gameId)) ==>
                r == Failure(BlankId) && screenshotCollectionCache.list == old(screenshotCollectionCache.list)
                && rawgApi.calls == old(rawgApi.calls)
      ensures !IsNullOrWhiteSpace(Some(gameId)) ==>
              var s := Serve(old(screenshotCollectionCache.list), screenshotCollectionCache.size, CacheKey(IdParameters(gameId)),
                             now, rawgApi.screenshots(gameId), Always);
              && r == s.result
              && screenshotCollectionCache.list == s.cache
              && rawgApi.calls == old(rawgApi.calls) + (if s.upstreamCalled then [ScreenshotsCall(gameId)] else [])
      ensures gameDetailsCache.list == old(gameDetailsCache.list)
              && movieCollectionCache.list == old(movieCollectionCache.list)
    {
      Separate();
      if IsNullOrWhiteSpace(Some(gameId)) {
        return Failure(BlankId);
      }
      var key := BuildCacheKey(IdParameters(gameId));
      var cached := screenshotCollectionCache.Get(key, now);
      if cached.Some? {
        return Success(cached.value);
      }
      r := rawgApi.GetScreenshots(gameId);
      if r.Success? {
        screenshotCollectionCache.Set(key, r.value, Some(CacheTimeToLive), now);
      }
    }
  }
}
