/**
 * The game-catalogue provider interface (GameHubApi.Providers/IRawgApi.cs) as seen by its
 * callers. What each call answers is a fixed function of its arguments, chosen when the
 * provider is made; `calls` records every call in order, so that a caller's contract can say
 * whether, and with what, the provider was asked.
 */
module Rawg {
  import opened Wrappers
  import opened Contracts
  import opened Text
  import Errors

  /** The arguments of `GetGamesAsync`; a null filter is None. */
  datatype GamesQuery = GamesQuery(
    genres: Option<string>,
    parentPlatforms: Option<string>,
    ordering: Option<string>,
    search: Option<string>,
    page: int,
    pageSize: int)

  /** Two queries ask for the same games once null and blank filters are identified. */
  predicate SameFilters(q1: GamesQuery, q2: GamesQuery)
  {
    && Normalize(q1.genres) == Normalize(q2.genres)
    && Normalize(q1.parentPlatforms) == Normalize(q2.parentPlatforms)
    && Normalize(q1.ordering) == Normalize(q2.ordering)
    && Normalize(q1.search) == Normalize(q2.search)
  }

  /** Two queries are the same request: the same filters and the same page. */
  predicate SameGamesRequest(q1: GamesQuery, q2: GamesQuery)
  {
    SameFilters(q1, q2) && q1.page == q2.page && q1.pageSize == q2.pageSize
  }

  datatype RawgCall =
    | GamesCall(query: GamesQuery)
    | GenresCall(page: int, pageSize: int)
    | GameCall(gameId: string)
    | MoviesCall(gameId: string)
    | ScreenshotsCall(gameId: string)

  /** The default paging of `GetGenresAsync(int page = 1, int pageSize = 20)`. */
  const DefaultPage := 1
  const DefaultPageSize := 20

  class RawgProvider {
    const games: GamesQuery -> Result<CollectionResult<Game>, Errors.Exception>
    const genres: (int, int) -> Result<CollectionResult<Genre>, Errors.Exception>
    /** A game lookup may answer null. */
    const game: string -> Result<Game?, Errors.Exception>
    const movies: string -> Result<CollectionResult<Movie>, Errors.Exception>
    const screenshots: string -> Result<CollectionResult<Screenshot>, Errors.Exception>
    ghost var calls: seq<RawgCall>

    constructor(
      games: GamesQuery -> Result<CollectionResult<Game>, Errors.Exception>,
      genres: (int, int) -> Result<CollectionResult<Genre>, Errors.Exception>,
      game: string -> Result<Game?, Errors.Exception>,
      movies: string -> Result<CollectionResult<Movie>, Errors.Exception>,
      screenshots: string -> Result<CollectionResult<Screenshot>, Errors.Exception>)
      ensures this.games == games && this.genres == genres && this.game == game
      ensures this.movies == movies && this.screenshots == screenshots
      ensures calls == []
    {
      this.games := games;
      this.genres := genres;
      this.game := game;
      this.movies := movies;
      this.screenshots := screenshots;
      calls := [];
    }

    method GetGamesAsync(query: GamesQuery) returns (r: Result<CollectionResult<Game>, Errors.Exception>)
      modifies this
      ensures r == games(query) && calls == old(calls) + [GamesCall(query)]
    {
      calls := calls + [GamesCall(query)];
      r := games(query);
    }

    method GetGenresAsync(page: int, pageSize: int) returns (r: Result<CollectionResult<Genre>, Errors.Exception>)
      modifies this
      ensures r == genres(page, pageSize) && calls == old(calls) + [GenresCall(page, pageSize)]
    {
      calls := calls + [GenresCall(page, pageSize)];
      r := genres(page, pageSize);
    }

    method GetGameAsync(gameId: string) returns (r: Result<Game?, Errors.Exception>)
      modifies this
      ensures r == game(gameId) && calls == old(calls) + [GameCall(gameId)]
    {
      calls := calls + [GameCall(gameId)];
      r := game(gameId);
    }

    method GetMovies(gameId: string) returns (r: Result<CollectionResult<Movie>, Errors.Exception>)
      modifies this
      ensures r == movies(gameId) && calls == old(calls) + [MoviesCall(gameId)]
    {
      calls := calls + [MoviesCall(gameId)];
      r := movies(gameId);
    }

    method GetScreenshots(gameId: string) returns (r: Result<CollectionResult<Screenshot>, Errors.Exception>)
      modifies this
      ensures r == screenshots(gameId) && calls == old(calls) + [ScreenshotsCall(gameId)]
    {
      calls := calls + [ScreenshotsCall(gameId)];
      r := screenshots(gameId);
    }
  }
}
