/**
 * The earlier games service (GameHubApi/Services/GamesService.cs): the catalogue page of the
 * provider, filtered through the synchronous content filter.
 */
module GamesServicesSync {
  import opened Wrappers
  import opened Contracts
  import opened Rawg
  import opened GameFilters
  import opened GamesServices
  import Errors

  class SyncGamesService {
    const rawgApi: RawgProvider
    const gameFilter: Game -> FilterResult

    constructor(rawgApi: RawgProvider, gameFilter: Game -> FilterResult)
      ensures this.rawgApi == rawgApi && this.gameFilter == gameFilter
    {
      this.rawgApi := rawgApi;
      this.gameFilter := gameFilter;
    }

    /** The source's constructor: a null provider, then a null filter, is rejected by name. */
    static method Create(rawgApi: RawgProvider?, gameFilter: Option<Game -> FilterResult>)
      returns (r: Result<SyncGamesService, Errors.Exception>)
      ensures rawgApi == null ==> r == Failure(Errors.ArgumentNullException("rawgApi"))
      ensures rawgApi != null && gameFilter.None? ==> r == Failure(Errors.ArgumentNullException("gameFilter"))
      ensures rawgApi != null && gameFilter.Some? ==>
                r.Success? && fresh(r.value) && r.value.rawgApi == rawgApi && r.value.gameFilter == gameFilter.value
    {
      if rawgApi == null { return Failure(Errors.ArgumentNullException("rawgApi")); }
      if gameFilter.None? { return Failure(Errors.ArgumentNullException("gameFilter")); }
      var s := new SyncGamesService(rawgApi, gameFilter.value);
      return Success(s);
    }

    /**
     * `GetGamesAsync`: one provider call with the caller's arguments; the page's count and links
     * copied, and only the games the filter passes, in order. A provider failure propagates.
     */
    method GetGamesAsync(query: GamesQuery) returns (r: Result<CollectionResult<Game>, Errors.Exception>)
      modifies rawgApi
      ensures rawgApi.calls == old(rawgApi.calls) + [GamesCall(query)]
      ensures rawgApi.games(query).Failure? ==> r == Failure(rawgApi.games(query).error)
      ensures rawgApi.games(query).Success? ==>
                var upstream := rawgApi.games(query).value;
                r == Success(CollectionResult(upstream.count, upstream.next, upstream.previous,
                                              KeepPassed(upstream.results, gameFilter)))
    {
      var getGamesResult := rawgApi.GetGamesAsync(query);
      if getGamesResult.Failure? {
        return Failure(getGamesResult.error);
      }
      var upstream := getGamesResult.value;
      var filteredGames := KeepPassed(upstream.results, gameFilter);
      return Success(CollectionResult(upstream.count, upstream.next, upstream.previous, filteredGames));
    }
  }
}
