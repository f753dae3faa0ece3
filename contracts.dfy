/**
 * The public data contracts (GameHubApi.Contracts). The value-like records are datatypes; the
 * game record, whose properties the services assign and whose list properties are shared
 * references, is a class.
 */
module Contracts {
  import opened Wrappers

  datatype Platform = Platform(id: int, name: string, slug: string)

  datatype ParentPlatform = ParentPlatform(platform: Platform)

  datatype Tag = Tag(id: int, name: string, slug: string)

  datatype Genre = Genre(id: int, name: string, slug: string, backgroundImage: Option<string>)

  datatype Publisher = Publisher(id: int, name: string, slug: string, backgroundImage: Option<string>)

  datatype Movie = Movie(id: int, name: string, preview: string, data: map<string, string>)

  datatype Screenshot = Screenshot(id: int, image: string, width: int, height: int, isDeleted: bool)

  /** One page of a collection: total count, links to the neighbouring pages, and the items. */
  datatype CollectionResult<T> = CollectionResult(count: int, next: Option<string>, previous: Option<string>, results: seq<T>)

  datatype Preference = Neutral | Like | Dislike | Owned | WishList

  datatype UserGame = UserGame(
    id: string,
    slug: string,
    name: string,
    backgroundImage: Option<string>,
    userId: string,
    gameId: string,
    preferences: Preference)

  /** A mutable list object (`IList<T>`): several games may refer to the same one. */
  class ListRef<T> {
    var items: seq<T>

    constructor(items: seq<T>)
      ensures this.items == items
    {
      this.items := items;
    }
  }

  /** The game contract returned to clients and held in the game-details cache. */
  class Game {
    var id: int
    var name: string
    var slug: string
    var backgroundImage: Option<string>
    /** A double in the source; no arithmetic is done on it. */
    var rating: real
    var metacritic: Option<int>
    var ratingTop: int
    var parentPlatforms: ListRef?<ParentPlatform>
    var tags: ListRef?<Tag>
    var description: Option<string>
    var genres: ListRef?<Genre>
    var publishers: ListRef?<Publisher>

    constructor(
      id: int, name: string, slug: string, backgroundImage: Option<string>, rating: real,
      metacritic: Option<int>, ratingTop: int, parentPlatforms: ListRef?<ParentPlatform>,
      tags: ListRef?<Tag>, description: Option<string>, genres: ListRef?<Genre>,
      publishers: ListRef?<Publisher>)
      ensures this.id == id && this.name == name && this.slug == slug
      ensures this.backgroundImage == backgroundImage && this.rating == rating
      ensures this.metacritic == metacritic && this.ratingTop == ratingTop
      ensures this.parentPlatforms == parentPlatforms && this.tags == tags
      ensures this.description == description && this.genres == genres
      ensures this.publishers == publishers
    {
      this.id := id;
      this.name := name;
      this.slug := slug;
      this.backgroundImage := backgroundImage;
      this.rating := rating;
      this.metacritic := metacritic;
      this.ratingTop := ratingTop;
      this.parentPlatforms := parentPlatforms;
      this.tags := tags;
      this.description := description;
      this.genres := genres;
      this.publishers := publishers;
    }

    /** Every property of `other` equals this one's; the list properties refer to the same lists. */
    ghost predicate SameAs(other: Game)
      reads this, other
    {
      && other.id == id && other.name == name && other.slug == slug
      && other.backgroundImage == backgroundImage && other.rating == rating
      && other.metacritic == metacritic && other.ratingTop == ratingTop
      && other.parentPlatforms == parentPlatforms && other.tags == tags
      && other.description == description && other.genres == genres
      && other.publishers == publishers
    }

    /**
     * `Clone`: a new game, distinct from this one, with every property copied; the copy is
     * shallow, so the clone shares this game's list objects. Nothing existing is modified.
     */
    method Clone() returns (c: Game)
      ensures fresh(c) && c != this
      ensures SameAs(c)
    {
      c := new Game(id, name, slug, backgroundImage, rating, metacritic, ratingTop,
                    parentPlatforms, tags, description, genres, publishers);
    }
  }

  /**
   * Assigning the description of a clone leaves the original untouched, while the clone still
   * shares the original's lists: the step that keeps a cached game from being altered.
   */
  method CloneWithDescription(g: Game, description: Option<string>) returns (c: Game)
    ensures fresh(c) && c != g
    ensures c.description == description
    ensures c.id == g.id && c.name == g.name && c.slug == g.slug
    ensures c.backgroundImage == g.backgroundImage && c.rating == g.rating
    ensures c.metacritic == g.metacritic && c.ratingTop == g.ratingTop
    ensures c.parentPlatforms == g.parentPlatforms && c.tags == g.tags
    ensures c.genres == g.genres && c.publishers == g.publishers
    ensures g.description == old(g.description)
  {
    c := g.Clone();
    c.description := description;
  }
}
