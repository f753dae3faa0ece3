/**
 * The earlier, synchronous content filter (GameHubApi/Services/GameFilter.cs): the same
 * blocked-tag pipeline and the same three rules, with no AI filter.
 */
module GameFilterSync {
  import opened Wrappers
  import opened Contracts
  import opened GameFilters
  import Errors

  /** A constructed filter: its blocked tags. */
  datatype SyncGameFilter = SyncGameFilter(blockedTags: seq<string>)

  /** The constructor: a null configuration is rejected; the blocked tags are parsed from `BlockedTags`. */
  function NewSync(configuration: Option<map<string, string>>): (r: Result<SyncGameFilter, Errors.Exception>)
    ensures configuration.None? <==> r == Failure(Errors.ArgumentNullException("configuration"))
    ensures r.Success? <==> configuration.Some?
    ensures r.Success? ==> r.value.blockedTags == ParseBlockedTags(ConfigValue(configuration.value, BlockedTagsKey))
  {
    if configuration.None? then Failure(Errors.ArgumentNullException("configuration"))
    else Success(SyncGameFilter(ParseBlockedTags(ConfigValue(configuration.value, BlockedTagsKey))))
  }

  /** `Filter`: a null game is rejected; otherwise the verdict of the three rules. */
  function Filter(filter: SyncGameFilter, game: Game?): (r: Result<FilterResult, Errors.Exception>)
    reads game, if game != null then {game.tags} else {}
    ensures game == null ==> r == Failure(Errors.ArgumentNullException("game"))
    ensures game != null ==> r == Success(Verdict(filter.blockedTags, TagsOf(game), game.name, game.description))
  {
    if game == null then Failure(Errors.ArgumentNullException("game"))
    else Success(Verdict(filter.blockedTags, TagsOf(game), game.name, game.description))
  }

  /** Built from the same configuration, the synchronous and the asynchronous filters agree on every game. */
  lemma FiltersAgree(configuration: map<string, string>, gameFilterFactory: string -> Option<AiGameFilter>, game: Game?)
    requires gameFilterFactory("AI").Some?
    ensures NewSync(Some(configuration)).Success? && New(Some(configuration), Some(gameFilterFactory)).Success?
    ensures Filter(NewSync(Some(configuration)).value, game)
         == FilterAsync(New(Some(configuration), Some(gameFilterFactory)).value, game)
  {
  }
}
