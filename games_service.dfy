/**
 * The games service (GameHubApi.Services/GamesService.cs): it filters the catalogue through the
 * content filter, turns provider failures into service failures, translates a game's
 * description on a clone so that the cached game is never altered, and hydrates the games a
 * language model recommends. The filter is a verdict per game object; the language model's
 * reply comes in already parsed.
 */
module GamesServices {
  import opened Wrappers
  import opened Text
  import opened Contracts
  import opened Rawg
  import opened Translation
  import opened GameFilters
  import opened CacheAside
  import Errors

  const GameNotFoundMessage: string := "Game not found."
  const GameFetchErrorMessage: string := "An error occurred while fetching the game details."
  const ForbiddenMessage: string := "The requested game does not pass the filter criteria."
  const MoviesNotFoundMessage: string := "Movies not found for the specified game."
  const MoviesErrorMessage: string := "An error occurred while fetching the movies."
  const ScreenshotsNotFoundMessage: string := "Screenshots not found for the specified game."
  const ScreenshotsErrorMessage: string := "An error occurred while fetching the screenshots."
  const UnparsableReplyMessage: string := "Failed to parse AI recommendation response as JSON."
  /** The exception the deserialiser throws, outside the parsing guard, for JSON of the wrong shape. */
  const JsonExceptionName: string := "JsonException"

  /** The number of recommended games returned at most. */
  const MaxRecommendations: nat := 5

  /**
   * `Results.Where(FilterResult == Passed)`: the games the filter passes, in their order.
   */
  function KeepPassed(games: seq<Game>, verdict: Game -> FilterResult): (r: seq<Game>)
    ensures forall g | g in r :: g in games && verdict(g) == Passed
    ensures forall g | g in games && verdict(g) == Passed :: g in r
    ensures |r| <= |games|
  {
    if games == [] then []
    else (if verdict(games[0]) == Passed then [games[0]] else []) + KeepPassed(games[1..], verdict)
  }

  /** Filtering keeps the order: filtering two stretches is filtering their concatenation. */
  lemma {:induction false} KeepPassedConcat(a: seq<Game>, b: seq<Game>, verdict: Game -> FilterResult)
    ensures KeepPassed(a + b, verdict) == KeepPassed(a, verdict) + KeepPassed(b, verdict)
  {
    if a == [] {
      assert a + b == b;
    } else {
      assert (a + b)[0] == a[0];
      assert (a + b)[1..] == a[1..] + b;
      KeepPassedConcat(a[1..], b, verdict);
    }
  }

  /** When every game passes, nothing is dropped. */
  lemma {:induction false} KeepPassedAllPass(games: seq<Game>, verdict: Game -> FilterResult)
    requires forall i | 0 <= i < |games| :: verdict(games[i]) == Passed
    ensures KeepPassed(games, verdict) == games
  {
    if games != [] {
      KeepPassedAllPass(games[1..], verdict);
    }
  }

  /** Filtering twice is filtering once. */
  lemma {:induction false} KeepPassedIdempotent(games: seq<Game>, verdict: Game -> FilterResult)
    ensures KeepPassed(KeepPassed(games, verdict), verdict) == KeepPassed(games, verdict)
  {
    var r := KeepPassed(games, verdict);
    assert forall i | 0 <= i < |r| :: r[i] in r;
    KeepPassedAllPass(r, verdict);
  }

  /**
   * The `catch` pair around a provider call: a provider NotFound becomes a service NotFound with
   * the given message; every other exception becomes an internal server error.
   */
  function MapProviderError<T>(outcome: Result<T, Errors.Exception>, notFound: string, otherwise: string)
    : (r: Result<T, Errors.Exception>)
    ensures outcome.Success? ==> r == outcome
    ensures r.Success? ==> r == outcome
    ensures r.Failure? ==> r.error.ServiceException?
    ensures outcome == Failure(Errors.ProviderException(Errors.ProviderResultCode.NotFound))
            <==> r == Failure(Errors.ServiceException(Errors.ServiceResultCode.NotFound, notFound))
    ensures outcome.Failure? && outcome != Failure(Errors.ProviderException(Errors.ProviderResultCode.NotFound))
            <==> r == Failure(Errors.ServiceException(Errors.ServiceResultCode.InternalServerError, otherwise))
  {
    if outcome.Success? then outcome
    else if outcome.error == Errors.ProviderException(Errors.ProviderResultCode.NotFound) then
      Failure(Errors.ServiceException(Errors.ServiceResultCode.NotFound, notFound))
    else
      Failure(Errors.ServiceException(Errors.ServiceResultCode.InternalServerError, otherwise))
  }

  /**
   * What `GetGameAsync` makes of the provider's answer: provider failures mapped, a null game
   * not found, a game the filter does not pass forbidden, anything else the game itself.
   */
  function Checked(fetched: Result<Game?, Errors.Exception>, verdict: Game -> FilterResult): (r: Result<Game, Errors.Exception>)
    ensures r == Failure(Errors.ServiceException(Errors.ServiceResultCode.NotFound, GameNotFoundMessage))
            <==> fetched == Failure(Errors.ProviderException(Errors.ProviderResultCode.NotFound)) || fetched == Success(null)
    ensures r == Failure(Errors.ServiceException(Errors.ServiceResultCode.InternalServerError, GameFetchErrorMessage))
            <==> fetched.Failure? && fetched != Failure(Errors.ProviderException(Errors.ProviderResultCode.NotFound))
    ensures r == Failure(Errors.ServiceException(Errors.ServiceResultCode.Forbidden, ForbiddenMessage))
            <==> fetched.Success? && fetched.value != null && verdict(fetched.value) != Passed
    ensures r.Success? <==> fetched.Success? && fetched.value != null && verdict(fetched.value) == Passed
    ensures r.Success? ==> fetched == Success(r.value)
  {
    match MapProviderError(fetched, GameNotFoundMessage, GameFetchErrorMessage)
    case Failure(e) => Failure(e)
    case Success(g) =>
      if g == null then Failure(Errors.ServiceException(Errors.ServiceResultCode.NotFound, GameNotFoundMessage))
      else if verdict(g) != Passed then Failure(Errors.ServiceException(Errors.ServiceResultCode.Forbidden, ForbiddenMessage))
      else Success(g)
  }

  /** The description is translated only when both the language and the description are not blank. */
  predicate ShouldTranslate(language: Option<string>, description: Option<string>)
  {
    !IsNullOrWhiteSpace(language) && !IsNullOrWhiteSpace(description)
  }

  /** `b` is `a` with, possibly, another description: every other property is the same. */
  ghost predicate SameExceptDescription(a: Game, b: Game)
    reads a, b
  {
    && b.id == a.id && b.name == a.name && b.slug == a.slug
    && b.backgroundImage == a.backgroundImage && b.rating == a.rating
    && b.metacritic == a.metacritic && b.ratingTop == a.ratingTop
    && b.parentPlatforms == a.parentPlatforms && b.tags == a.tags
    && b.genres == a.genres && b.publishers == a.publishers
  }

  /** A game the language model recommends: its JSON `name` and `slug`. */
  datatype RecommendedGame = RecommendedGame(name: string, slug: string)

  /**
   * The language model's reply: not JSON at all; JSON that does not deserialise to a list of
   * recommendations (an object, or an element without its required `slug`); or JSON that
   * deserialises to a possibly-null list whose elements may themselves be null.
   */
  datatype ModelReply = Unparsable | Undeserialisable | Parsed(games: Option<seq<Option<RecommendedGame>>>)

  /** The language-model client; only its reply is modelled. */
  datatype LargeLanguageModel = LargeLanguageModel

  /** A recommendation that is silently skipped: a game not found or not passing the filter. */
  predicate Dropped(o: Result<Game, Errors.Exception>)
  {
    && o.Failure? && o.error.ServiceException?
    && (o.error.serviceCode == Errors.ServiceResultCode.NotFound || o.error.serviceCode == Errors.ServiceResultCode.Forbidden)
  }

  /** A recommendation whose failure fails the whole request. */
  predicate Fatal(o: Result<Game, Errors.Exception>)
  {
    o.Failure? && !Dropped(o)
  }

  /**
   * The hydration of the lookups, in recommendation order: the first fatal failure wins;
   * otherwise the games found, dropped lookups left out.
   */
  function Hydrate(outcomes: seq<Result<Game, Errors.Exception>>): Result<seq<Game>, Errors.Exception>
  {
    if outcomes == [] then Success([])
    else Absorb(Hydrate(outcomes[..|outcomes| - 1]), outcomes[|outcomes| - 1])
  }

  /** One step of the hydration: a failure sticks, a game is appended, a dropped lookup is skipped. */
  function Absorb(acc: Result<seq<Game>, Errors.Exception>, o: Result<Game, Errors.Exception>): Result<seq<Game>, Errors.Exception>
  {
    if acc.Failure? then acc
    else if o.Success? then Success(acc.value + [o.value])
    else if Dropped(o) then acc
    else Failure(o.error)
  }

  /** Hydrating one more lookup absorbs it into the hydration of the earlier ones. */
  lemma HydrateSnoc(outcomes: seq<Result<Game, Errors.Exception>>, i: nat)
    requires i < |outcomes|
    ensures Hydrate(outcomes[..i + 1]) == Absorb(Hydrate(outcomes[..i]), outcomes[i])
  {
    assert outcomes[..i + 1][..i] == outcomes[..i];
  }

  /** The games of the successful lookups, in order. */
  function Successes(outcomes: seq<Result<Game, Errors.Exception>>): seq<Game>
  {
    if outcomes == [] then []
    else Successes(outcomes[..|outcomes| - 1])
         + (if outcomes[|outcomes| - 1].Success? then [outcomes[|outcomes| - 1].value] else [])
  }

  /**
   * Hydration fails exactly when some lookup fails fatally, and then with the first such
   * failure; otherwise it returns every game found, in order.
   */
  lemma {:induction false} HydrateMeaning(outcomes: seq<Result<Game, Errors.Exception>>)
    ensures (forall i | 0 <= i < |outcomes| :: !Fatal(outcomes[i])) ==> Hydrate(outcomes) == Success(Successes(outcomes))
    ensures Hydrate(outcomes).Failure? ==>
              exists i | 0 <= i < |outcomes| :: Fatal(outcomes[i]) && Hydrate(outcomes).error == outcomes[i].error
                                                  && forall j | 0 <= j < i :: !Fatal(outcomes[j])
    ensures Hydrate(outcomes).Success? <==> forall i | 0 <= i < |outcomes| :: !Fatal(outcomes[i])
  {
    if forall i | 0 <= i < |outcomes| :: !Fatal(outcomes[i]) {
      HydrateNoFatal(outcomes);
    } else {
      var i :| 0 <= i < |outcomes| && Fatal(outcomes[i]);
      HydrateFatal(outcomes, i);
      HydrateFirstFatal(outcomes);
    }
  }

  lemma {:induction false} HydrateNoFatal(outcomes: seq<Result<Game, Errors.Exception>>)
    requires forall i | 0 <= i < |outcomes| :: !Fatal(outcomes[i])
    ensures Hydrate(outcomes) == Success(Successes(outcomes))
  {
    if outcomes != [] {
      var n := |outcomes| - 1;
      var prefix := outcomes[..n];
      assert forall i | 0 <= i < n :: prefix[i] == outcomes[i];
      HydrateNoFatal(prefix);
      var o := outcomes[n];
      if o.Success? {
        assert Successes(outcomes) == Successes(prefix) + [o.value];
      } else {
        assert Successes(outcomes) == Successes(prefix) + [];
        assert Successes(prefix) + [] == Successes(prefix);
      }
    }
  }

  lemma {:induction false} HydrateFatal(outcomes: seq<Result<Game, Errors.Exception>>, i: nat)
    requires i < |outcomes| && Fatal(outcomes[i])
    ensures Hydrate(outcomes).Failure?
  {
    var n := |outcomes| - 1;
    if i < n {
      var prefix := outcomes[..n];
      assert prefix[i] == outcomes[i];
      HydrateFatal(prefix, i);
    }
  }

  lemma {:induction false} HydrateFirstFatal(outcomes: seq<Result<Game, Errors.Exception>>)
    requires Hydrate(outcomes).Failure?
    ensures exists i | 0 <= i < |outcomes| :: Fatal(outcomes[i]) && Hydrate(outcomes).error == outcomes[i].error
                                             && forall j | 0 <= j < i :: !Fatal(outcomes[j])
  {
    var n := |outcomes| - 1;
    var prefix := outcomes[..n];
    assert forall i | 0 <= i < n :: prefix[i] == outcomes[i];
    if Hydrate(prefix).Failure? {
      HydrateFirstFatal(prefix);
      var i :| 0 <= i < n && Fatal(prefix[i]) && Hydrate(prefix).error == prefix[i].error
               && forall j | 0 <= j < i :: !Fatal(prefix[j]);
      assert Fatal(outcomes[i]);
    } else {
      assert Fatal(outcomes[n]);
      if exists j | 0 <= j < n :: Fatal(outcomes[j]) {
        var j :| 0 <= j < n && Fatal(outcomes[j]);
        assert prefix[j] == outcomes[j];
        HydrateFatal(prefix, j);
      }
    }
  }

  /** `Take(n)`. */
  function Take<T>(s: seq<T>, n: nat): (r: seq<T>)
    ensures |r| <= n && r <= s
    ensures |s| <= n ==> r == s
    ensures |s| > n ==> r == s[..n]
  {
    if |s| <= n then s else s[..n]
  }

  /** The slugs looked up, each recorded as a provider call unless it is blank. */
  function GameCalls(recommended: seq<Option<RecommendedGame>>): seq<RawgCall>
  {
    if recommended == [] then []
    else GameCalls(recommended[..|recommended| - 1]) + SlugCall(recommended[|recommended| - 1])
  }

  /** The provider call one recommendation makes: none for a null element or a blank slug. */
  function SlugCall(rg: Option<RecommendedGame>): seq<RawgCall>
  {
    if rg.None? || IsNullOrWhiteSpace(Some(rg.value.slug)) then [] else [GameCall(rg.value.slug)]
  }

  /** Reading the slug of a null element of the list throws. */
  function NullElement(): Result<Game, Errors.Exception>
  {
    Failure(Errors.NullReferenceException)
  }

  /** Looking up one more recommendation logs one more call, unless its slug is blank. */
  lemma GameCallsSnoc(recommended: seq<Option<RecommendedGame>>, i: nat)
    requires i < |recommended|
    ensures GameCalls(recommended[..i + 1]) == GameCalls(recommended[..i]) + SlugCall(recommended[i])
  {
    assert recommended[..i + 1][..i] == recommended[..i];
  }

  class GamesService {
    const rawgApi: RawgProvider
    const gameFilter: Game -> FilterResult
    const translator: Translator

    constructor(rawgApi: RawgProvider, gameFilter: Game -> FilterResult, translator: Translator)
      ensures this.rawgApi == rawgApi && this.gameFilter == gameFilter && this.translator == translator
    {
      this.rawgApi := rawgApi;
      this.gameFilter := gameFilter;
      this.translator := translator;
    }

    /** The source's constructor: the five dependencies are checked for null in order, by name. */
    static method Create(rawgApi: RawgProvider?, gameFilter: Option<Game -> FilterResult>, translator: Translator?,
                         largeLanguageModel: Option<LargeLanguageModel>, logger: Option<Logger>)
      returns (r: Result<GamesService, Errors.Exception>)
      ensures rawgApi == null ==> r == Failure(Errors.ArgumentNullException("rawgApi"))
      ensures rawgApi != null && gameFilter.None? ==> r == Failure(Errors.ArgumentNullException("gameFilter"))
      ensures rawgApi != null && gameFilter.Some? && translator == null
              ==> r == Failure(Errors.ArgumentNullException("translator"))
      ensures rawgApi != null && gameFilter.Some? && translator != null && largeLanguageModel.None?
              ==> r == Failure(Errors.ArgumentNullException("largeLanguageModel"))
      ensures rawgApi != null && gameFilter.Some? && translator != null && largeLanguageModel.Some? && logger.None?
              ==> r == Failure(Errors.ArgumentNullException("logger"))
      ensures rawgApi != null && gameFilter.Some? && translator != null && largeLanguageModel.Some? && logger.Some?
              ==> r.Success? && fresh(r.value) && r.value.rawgApi == rawgApi
                  && r.value.gameFilter == gameFilter.value && r.value.translator == translator
    {
      if rawgApi == null { return Failure(Errors.ArgumentNullException("rawgApi")); }
      if gameFilter.None? { return Failure(Errors.ArgumentNullException("gameFilter")); }
      if translator == null { return Failure(Errors.ArgumentNullException("translator")); }
      if largeLanguageModel.None? { return Failure(Errors.ArgumentNullException("largeLanguageModel")); }
      if logger.None? { return Failure(Errors.ArgumentNullException("logger")); }
      var s := new GamesService(rawgApi, gameFilter.value, translator);
      return Success(s);
    }

    /**
     * `GetGamesAsync`: the provider's page with its count and links unchanged (the count is not
     * recomputed) and only the games the filter passes, in order; a provider failure propagates.
     */
    method GetGamesAsync(query: GamesQuery) returns (r: Result<CollectionResult<Game>, Errors.Exception>)
      modifies rawgApi
      ensures rawgApi.calls == old(rawgApi.calls) + [GamesCall(query)]
      ensures rawgApi.games(query).Failure? ==> r == Failure(rawgApi.games(query).error)
      ensures rawgApi.games(query).Success? ==>
                var upstream := rawgApi.games(query).value;
                r == Success(CollectionResult(upstream.count, upstream.next, upstream.previous,
                                              KeepPassed(upstream.results, gameFilter)))
    {
      var getGamesResult := rawgApi.GetGamesAsync(query);
      if getGamesResult.Failure? {
        return Failure(getGamesResult.error);
      }
      var upstream := getGamesResult.value;
      return Success(CollectionResult(upstream.count, upstream.next, upstream.previous,
                                      KeepPassed(upstream.results, gameFilter)));
    }

    /** `GetGameAsync` up to the translation: a blank id is rejected before the provider is asked. */
    function Fetch(gameId: string): (r: Result<Game, Errors.Exception>)
      ensures IsNullOrWhiteSpace(Some(gameId)) ==> r == Failure(Errors.ArgumentException("gameId"))
      ensures r.Success? ==> !IsNullOrWhiteSpace(Some(gameId)) && gameFilter(r.value) == Passed
                             && rawgApi.game(gameId) == Success(r.value)
    {
      if IsNullOrWhiteSpace(Some(gameId)) then Failure(Errors.ArgumentException("gameId"))
      else Checked(rawgApi.game(gameId), gameFilter)
    }

    /**
     * `GetGameAsync`: the checked game; when both the language and its description are not
     * blank, a new clone carrying the translated description, the game itself left untouched;
     * a translator failure propagates. Only the provider and the translator are modified, so no
     * game that existed before the call, the cached one included, is changed.
     */
    method GetGameAsync(gameId: string, language: Option<string>) returns (r: Result<Game, Errors.Exception>)
      modifies rawgApi, translator
      ensures IsNullOrWhiteSpace(Some(gameId)) ==> rawgApi.calls == old(rawgApi.calls)
      ensures !IsNullOrWhiteSpace(Some(gameId)) ==> rawgApi.calls == old(rawgApi.calls) + [GameCall(gameId)]
      ensures Fetch(gameId).Failure? ==> r == Fetch(gameId) && translator.calls == old(translator.calls)
      ensures Fetch(gameId).Success? && !ShouldTranslate(language, Fetch(gameId).value.description) ==>
                r == Fetch(gameId) && translator.calls == old(translator.calls)
      ensures Fetch(gameId).Success? && ShouldTranslate(language, Fetch(gameId).value.description) ==>
                var game := Fetch(gameId).value;
                var translation := translator.translate(game.description.value, None, language.value);
                && translator.calls == old(translator.calls) + [TranslateCall(game.description.value, None, language.value)]
                && (translation.Failure? ==> r == Failure(translation.error))
                && (translation.Success? ==>
                      && r.Success? && fresh(r.value) && r.value != game
                      && r.value.description == Some(translation.value)
                      && SameExceptDescription(game, r.value))
    {
      if IsNullOrWhiteSpace(Some(gameId)) {
        return Failure(Errors.ArgumentException("gameId"));
      }
      var fetched := rawgApi.GetGameAsync(gameId);
      var checked := Checked(fetched, gameFilter);
      if checked.Failure? {
        return checked;
      }
      var game := checked.value;
      if !IsNullOrWhiteSpace(language) && !IsNullOrWhiteSpace(game.description) {
        var translation := translator.Translate(game.description.value, None, language.value);
        if translation.Failure? {
          return Failure(translation.error);
        }
        var clonedGame := CloneWithDescription(game, Some(translation.value));
        return Success(clonedGame);
      }
      return Success(game);
    }

    /** `GetMovies`: the provider's movies, its failures mapped. */
    method GetMovies(gameId: string) returns (r: Result<CollectionResult<Movie>, Errors.Exception>)
      modifies rawgApi
      ensures rawgApi.calls == old(rawgApi.calls) + [MoviesCall(gameId)]
      ensures r == MapProviderError(rawgApi.movies(gameId), MoviesNotFoundMessage, MoviesErrorMessage)
    {
      var movies := rawgApi.GetMovies(gameId);
      return MapProviderError(movies, MoviesNotFoundMessage, MoviesErrorMessage);
    }

    /** `GetScreenshots`: the provider's screenshots, its failures mapped. */
    method GetScreenshots(gameId: string) returns (r: Result<CollectionResult<Screenshot>, Errors.Exception>)
      modifies rawgApi
      ensures rawgApi.calls == old(rawgApi.calls) + [ScreenshotsCall(gameId)]
      ensures r == MapProviderError(rawgApi.screenshots(gameId), ScreenshotsNotFoundMessage, ScreenshotsErrorMessage)
    {
      var screenshots := rawgApi.GetScreenshots(gameId);
      return MapProviderError(screenshots, ScreenshotsNotFoundMessage, ScreenshotsErrorMessage);
    }

    /**
     * The lookups of the recommended slugs, untranslated, in recommendation order; a null
     * element throws when its slug is read.
     */
    function Lookups(recommended: seq<Option<RecommendedGame>>): (r: seq<Result<Game, Errors.Exception>>)
      ensures |r| == |recommended|
      ensures forall i | 0 <= i < |recommended| ::
                && (recommended[i].Some? ==> r[i] == Fetch(recommended[i].value.slug))
                && (recommended[i].None? ==> r[i] == NullElement())
    {
      seq(|recommended|, i requires 0 <= i < |recommended| => Lookup(recommended[i]))
    }

    /** The lookup of one recommendation. */
    function Lookup(rg: Option<RecommendedGame>): Result<Game, Errors.Exception>
    {
      if rg.None? then NullElement() else Fetch(rg.value.slug)
    }

    /** The recommendations the service returns for a reply of the language model. */
    function Recommendations(reply: ModelReply): Result<CollectionResult<Game>, Errors.Exception>
    {
      match reply
      case Unparsable =>
        Failure(Errors.ServiceException(Errors.ServiceResultCode.InternalServerError, UnparsableReplyMessage))
      case Undeserialisable => Failure(Errors.Unexpected(JsonExceptionName))
      case Parsed(None) => Success(CollectionResult(0, None, None, []))
      case Parsed(Some(recommended)) =>
        match Hydrate(Lookups(recommended))
        case Failure(e) => Failure(e)
        case Success(games) =>
          var top := Take(games, MaxRecommendations);
          Success(CollectionResult(|top|, None, None, top))
    }

    /**
     * At most five games, each one that passes the filter, the first of those found in
     * recommendation order; the count is the number of games returned and there are no links.
     */
    lemma RecommendationsShape(reply: ModelReply)
      requires Recommendations(reply).Success?
      ensures var page := Recommendations(reply).value;
              && |page.results| <= MaxRecommendations && page.count == |page.results|
              && page.next.None? && page.previous.None?
              && (forall g | g in page.results :: gameFilter(g) == Passed)
              && (reply.Parsed? && reply.games.Some? ==>
                    page.results == Take(Successes(Lookups(reply.games.value)), MaxRecommendations))
    {
      if reply.Parsed? && reply.games.Some? {
        var outcomes := Lookups(reply.games.value);
        HydrateMeaning(outcomes);
        SuccessesPass(outcomes);
      }
    }

    /** Every game of a successful lookup passes the filter. */
    lemma {:induction false} SuccessesPass(outcomes: seq<Result<Game, Errors.Exception>>)
      requires forall i | 0 <= i < |outcomes| :: outcomes[i].Success? ==> gameFilter(outcomes[i].value) == Passed
      ensures forall g | g in Successes(outcomes) :: gameFilter(g) == Passed
    {
      if outcomes != [] {
        var n := |outcomes| - 1;
        assert forall i | 0 <= i < n :: outcomes[..n][i] == outcomes[i];
        SuccessesPass(outcomes[..n]);
      }
    }

    /**
     * The loop of `GetGameRecommendationsAsync`: every recommended slug is looked up in order,
     * without translation; a game not found or forbidden is skipped, any other failure ends the
     * hydration.
     */
    method LookUpRecommended(recommended: seq<Option<RecommendedGame>>) returns (hydrated: Result<seq<Game>, Errors.Exception>)
      modifies rawgApi, translator
      ensures hydrated == Hydrate(Lookups(recommended))
      ensures translator.calls == old(translator.calls)
      ensures rawgApi.calls == old(rawgApi.calls) + GameCalls(recommended)
    {
      ghost var lookups := Lookups(recommended);
      hydrated := Success([]);
      for i := 0 to |recommended|
        invariant hydrated == Hydrate(lookups[..i])
        invariant translator.calls == old(translator.calls)
        invariant rawgApi.calls == old(rawgApi.calls) + GameCalls(recommended[..i])
      {
        var game;
        if recommended[i].None? {
          game := NullElement();
        } else {
          game := GetGameAsync(recommended[i].value.slug, None);
        }
        assert game == lookups[i];
        HydrateSnoc(lookups, i);
        GameCallsSnoc(recommended, i);
        if hydrated.Success? {
          if game.Success? {
            hydrated := Success(hydrated.value + [game.value]);
          } else if !Dropped(game) {
            hydrated := Failure(game.error);
          }
        }
      }
      assert lookups[..|recommended|] == lookups;
      assert recommended[..|recommended|] == recommended;
    }

    /**
     * `GetGameRecommendationsAsync` after the model has replied: an unparsable reply is an
     * internal error, and a reply of the wrong shape escapes as the deserialiser's exception,
     * unwrapped; otherwise every recommended slug is looked up in order, without translation,
     * and the result is `Recommendations(reply)`.
     */
    method GetGameRecommendationsAsync(reply: ModelReply) returns (r: Result<CollectionResult<Game>, Errors.Exception>)
      modifies rawgApi, translator
      ensures r == Recommendations(reply)
      ensures translator.calls == old(translator.calls)
      ensures rawgApi.calls == old(rawgApi.calls) + (if reply.Parsed? && reply.games.Some? then GameCalls(reply.games.value) else [])
    {
      if reply.Unparsable? {
        return Failure(Errors.ServiceException(Errors.ServiceResultCode.InternalServerError, UnparsableReplyMessage));
      }
      if reply.Undeserialisable? {
        return Failure(Errors.Unexpected(JsonExceptionName));
      }
      if reply.games.None? {
        return Success(CollectionResult(0, None, None, []));
      }
      var hydrated := LookUpRecommended(reply.games.value);
      if hydrated.Failure? {
        return Failure(hydrated.error);
      }
      var top := Take(hydrated.value, MaxRecommendations);
      return Success(CollectionResult(|top|, None, None, top));
    }
  }

  /** A game the filter turns away is forbidden even when the provider found it. */
  lemma BlockedGameForbidden(fetched: Result<Game?, Errors.Exception>, verdict: Game -> FilterResult)
    requires fetched.Success? && fetched.value != null && verdict(fetched.value) == Blocked
    ensures Checked(fetched, verdict) == Failure(Errors.ServiceException(Errors.ServiceResultCode.Forbidden, ForbiddenMessage))
  {
  }
}
