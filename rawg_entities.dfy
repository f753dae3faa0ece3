/**
 * The RAWG game entity and its conversion into the public game contract
 * (GameHubApi.Providers/RawgApi.Entities/Game.cs). Every property of the entity may be missing;
 * the conversion rejects redirect placeholders and entities without an id, a name or a slug.
 */
module RawgEntities {
  import opened Wrappers
  import opened Text
  import opened Contracts
  import Errors

  /** A game as deserialised from RAWG: `None` where the document has no value. */
  datatype RawgGame = RawgGame(
    redirect: Option<bool>,
    id: Option<int>,
    name: Option<string>,
    slug: Option<string>,
    backgroundImage: Option<string>,
    rating: Option<real>,
    metacritic: Option<int>,
    ratingTop: Option<int>,
    parentPlatforms: ListRef?<ParentPlatform>,
    tags: ListRef?<Tag>,
    description: Option<string>,
    genres: ListRef?<Genre>,
    publishers: ListRef?<Publisher>)

  const RedirectedMessage: string := "Cannot convert a redirected game to contract."
  const MissingPropertiesMessage: string := "Missing required game properties to convert to contract."

  /** The entity is a redirect placeholder. */
  predicate IsRedirect(e: RawgGame)
  {
    e.redirect == Some(true)
  }

  /** The entity has the id, name and slug a contract requires. */
  predicate HasRequired(e: RawgGame)
  {
    e.id.Some? && !IsNullOrWhiteSpace(e.name) && !IsNullOrWhiteSpace(e.slug)
  }

  /** What the converted contract always satisfies: a name and a slug that are not blank, and a description. */
  ghost predicate WellFormedContract(g: Game)
    reads g
  {
    !IsNullOrWhiteSpace(Some(g.name)) && !IsNullOrWhiteSpace(Some(g.slug)) && g.description.Some?
  }

  /**
   * `ToContract`: a redirect fails first, then a missing id, name or slug, each with its own
   * message; otherwise a new contract carrying the entity's values, with a missing rating and
   * rating top read as 0 and a missing description as the empty string. The lists are the
   * entity's own list objects.
   */
  method ToContract(e: RawgGame) returns (r: Result<Game, Errors.Exception>)
    ensures IsRedirect(e) ==> r == Failure(Errors.InvalidOperationException(RedirectedMessage))
    ensures !IsRedirect(e) && !HasRequired(e) ==> r == Failure(Errors.InvalidOperationException(MissingPropertiesMessage))
    ensures r.Success? <==> !IsRedirect(e) && HasRequired(e)
    ensures r.Success? ==>
              var g := r.value;
              && fresh(g) && WellFormedContract(g)
              && g.id == e.id.value && Some(g.name) == e.name && Some(g.slug) == e.slug
              && g.backgroundImage == e.backgroundImage && g.metacritic == e.metacritic
              && g.rating == (if e.rating.Some? then e.rating.value else 0.0)
              && g.ratingTop == (if e.ratingTop.Some? then e.ratingTop.value else 0)
              && g.description == Some(if e.description.Some? then e.description.value else "")
              && g.parentPlatforms == e.parentPlatforms && g.tags == e.tags
              && g.genres == e.genres && g.publishers == e.publishers
  {
    if e.redirect.Some? && e.redirect.value {
      return Failure(Errors.InvalidOperationException(RedirectedMessage));
    }
    if e.id.None? || IsNullOrWhiteSpace(e.name) || IsNullOrWhiteSpace(e.slug) {
      return Failure(Errors.InvalidOperationException(MissingPropertiesMessage));
    }
    var g := new Game(
      e.id.value,
      e.name.value,
      e.slug.value,
      e.backgroundImage,
      if e.rating.Some? then e.rating.value else 0.0,
      e.metacritic,
      if e.ratingTop.Some? then e.ratingTop.value else 0,
      e.parentPlatforms,
      e.tags,
      Some(if e.description.Some? then e.description.value else ""),
      e.genres,
      e.publishers);
    return Success(g);
  }
}
