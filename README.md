# GameHub API core, modelled in Dafny

GameHub API is an ASP.NET service in front of the RAWG video-game catalogue. Its core has three parts:

- An in-memory, bounded LRU cache with per-entry time to live.
- Caching decorators around the catalogue provider and the translator. Each builds a string key from the request, answers from the cache on a hit, and on a miss asks the wrapped provider and stores the answer for seven days.
- Service logic around them:
  - the rule-based content filter;
  - converting RAWG entities into contracts;
  - mapping user-game repository failures;
  - filtering, translating and mapping errors for games, including the post-processing of AI recommendations.

The model follows the source file by file:

| file | module |
|---|---|
| `lru_cache.dfy` | `Lru`: the cache as a class whose recency list (`seq`) and index (`map`) are updated in place, specified by functions on the list |
| `cache_aside.dfy` | `CacheAside`: the hit/miss step shared by every decorator, as a function with its properties |
| `cached_rawg_api.dfy`, `cached_rawg_api_query.dfy`, `cached_rawg_api_games_path.dfy` | the current, the earlier and the earliest catalogue decorator, each with its own key format |
| `cached_translator.dfy` | the caching translator |
| `game_filter.dfy`, `game_filter_sync.dfy` | the asynchronous and the synchronous rule-based filter |
| `rawg_entities.dfy` | `RawgGame.ToContract` |
| `user_game_service.dfy` | the user-game service |
| `games_service.dfy`, `games_service_sync.dfy` | the current and the earlier games service |
| `contracts.dfy` | the `Game` contract, a class whose `Clone` is a shallow copy |
| `rawg_provider.dfy`, `translation.dfy` | the wrapped provider and translator: each answer is a function of the request, and a ghost log records every call |
| `text.dfy`, `uri_escape.dfy`, `key_parts.dfy`, `query_keys.dfy` | the .NET string operations the core relies on, `Uri.EscapeDataString` (section 2.3 of RFC 3986, UTF-8 per RFC 3629) and the key-decoding lemmas |

Conventions:

- **Time.** The clock is an integer parameter `now`, in milliseconds. An entry with expiration `x` is live while `now < x`.
- **Exceptions.** A thrown exception is a `Failure` value of the `Errors.Exception` datatype. A null reference argument is an `Option` or a nullable class type.
- **Null games.** The provider's `GetGameAsync` answers a `Game?`, because both the decorator (GameHubApi.Providers/CachedRawgApi.cs:125) and the service (GameHubApi.Services/GamesService.cs:76) handle a null game.

## Model

| member | source | states |
|---|---|---|
| `Lru.LruCache.Create` | GameHubApi.Providers/LruCache.cs:22-30 | A capacity below 1 is rejected with ArgumentOutOfRangeException("size"), and any other capacity gives an empty, valid cache of that capacity. |
| `Lru.LruCache.constructor` | GameHubApi.Providers/LruCache.cs:29 | A new cache is empty, valid and has the given capacity. |
| `Lru.LruCache.Get` | GameHubApi.Providers/LruCache.cs:73-91 | Returns the value of a live entry, otherwise null. A live entry moves to the front and an expired one is removed. The recency list and the index stay coherent. |
| `Lru.LruCache.Set` | GameHubApi.Providers/LruCache.cs:101-128 | Drops an existing entry for the key, or else the last entry when the cache is full, then puts the new entry at the front with expiration `now + ttl`, or none for a null TTL. Keeps the cache coherent and within capacity. |
| `Lru.LruCache.Remove` | GameHubApi.Providers/LruCache.cs:134-141 | Removes the key's entry if present and keeps the cache coherent. |
| `Lru.LruCache.Clear` | GameHubApi.Providers/LruCache.cs:146-150 | Empties both the list and the index. |
| `Lru.CoherentSize` | GameHubApi.Providers/LruCache.cs:13-14 | When list and index are coherent, the index has exactly as many keys as the list has nodes. |
| `Lru.CoherentWithout` | GameHubApi.Providers/LruCache.cs:136-140 | Unlinking a node and forgetting its key keeps list and index coherent. |
| `Lru.CoherentPush` | GameHubApi.Providers/LruCache.cs:124-127 | Adding a node for a new key at the front and indexing it keeps list and index coherent. |
| `Lru.SetKeepsInvariant` | GameHubApi.Providers/LruCache.cs:108-127 | After `Set`, keys are distinct, the count is between 1 and the capacity, the new entry is first, and every other key was present before. |
| `Lru.SetEvictsLeastRecentlyUsed` | GameHubApi.Providers/LruCache.cs:113-127 | A new key on a full cache evicts exactly the last entry, whatever its expiration. The new entry goes first and the others keep their order. |
| `Lru.SetWithRoomKeepsAll` | GameHubApi.Providers/LruCache.cs:124-127 | A new key on a cache with room evicts nothing. |
| `Lru.SetExistingReplaces` | GameHubApi.Providers/LruCache.cs:108-112 | Setting a present key replaces its value and expiration and moves it to the front. The set of keys and the count stay the same. |
| `Lru.GetLiveMovesToFront` | GameHubApi.Providers/LruCache.cs:77-82 | A live entry's value is returned. The entry moves to the front and the other entries keep their relative order. |
| `Lru.GetExpiredRemoves` | GameHubApi.Providers/LruCache.cs:84-90 | An expired entry reads as null and only that entry is removed. Every later `Get` of it is null and changes nothing. |
| `Lru.GetKeepsInvariant` | GameHubApi.Providers/LruCache.cs:73-91 | `Get` keeps keys distinct and never grows the list. |
| `Lru.GetRepeatable` | GameHubApi.Providers/LruCache.cs:73-91 | A second `Get` at the same instant gives the same answer as the first. |
| `Lru.GetAbsentChangesNothing` | GameHubApiTests/LruCacheTests.cs:21-31 | A missing key reads as null and leaves the cache unchanged. |
| `Lru.SetThenGetWithoutExpiration` | GameHubApiTests/LruCacheTests.cs:11-18 | An entry set with a null TTL is returned by a `Get` at any later instant. |
| `Lru.SetThenGetWithExpiration` | GameHubApi.Providers/LruCache.cs:77 | An entry set with a TTL is returned exactly while `later < now + ttl`, and is null afterwards. |
| `Lru.RemoveDropsOnlyThatKey` | GameHubApi.Providers/LruCache.cs:134-141 | Removing an absent key changes nothing. Removing a present key drops that key only and keeps the order of the rest. |
| `Lru.ReadProtectsFromEviction` | GameHubApi.Providers/LruCache.cs:80-81 | With capacity 2: set A, set B, read A, set C. C evicts B rather than A, and the order is C, A. |
| `CacheAside.Hit` | GameHubApi.Providers/CachedRawgApi.cs:69-71 | A hit happens exactly when the cache holds a live entry whose value counts as present. The hit's value is that entry's value. |
| `CacheAside.HitSkipsProvider` | GameHubApi.Providers/CachedRawgApi.cs:69-75 | On a hit, the cached value is returned and the provider is not called. |
| `CacheAside.MissAsksProvider` | GameHubApi.Providers/CachedRawgApi.cs:77-81 | On a miss, the provider is called and its answer, value or failure, is returned. |
| `CacheAside.MissStoresAnswer` | GameHubApi.Providers/CachedRawgApi.cs:77-78 | A provider answer on a miss is stored under the key with a 7-day TTL. For seven days a lookup reads it back, and a later call is served from the cache without the provider. |
| `CacheAside.FailureNotCached` | GameHubApi.Providers/CachedRawgApi.cs:77-78 | A provider failure propagates and nothing is stored. A retry asks the provider again. |
| `CacheAside.ServeKeepsInvariant` | GameHubApi.Providers/CachedRawgApi.cs:68-81 | A cache-aside call keeps keys distinct and the count within capacity. |
| `CachedRawg.CacheKeyAppend` | GameHubApi.Providers/CachedRawgApi.cs:204-210 | One more dictionary entry appends exactly that entry's segment to the key. |
| `CachedRawg.BuildCacheKey` | GameHubApi.Providers/CachedRawgApi.cs:201-213 | The loop builds `name=escaped;` for every non-blank value, in insertion order. |
| `CachedRawg.CacheKeyIsTerminated` | GameHubApi.Providers/CachedRawgApi.cs:206-208 | The key is the present parameters' `name=escaped` strings, each followed by ';'. |
| `CachedRawg.CacheKeyDeterminesParameters` | GameHubApi.Providers/CachedRawgApi.cs:201-213 | Equal keys come from the same present parameters, names and raw values alike. |
| `CachedRawg.GamesKeyEndsWithPaging` | GameHubApi.Providers/CachedRawgApi.cs:58-68 | A games key always ends with `page=P;pageSize=S;`. |
| `CachedRawg.GamesKeyIgnoresBlankFilters` | GameHubApi.Providers/CachedRawgApi.cs:58-68 | A null filter and a blank filter give the same games key. |
| `CachedRawg.GamesKeyInjective` | GameHubApi.Providers/CachedRawgApi.cs:58-68 | Two game queries share a key if and only if they agree on paging and on every filter once blank is read as null. |
| `CachedRawg.DetailKey` | GameHubApi.Providers/CachedRawgApi.cs:117-122 | The key of a detail, movies or screenshots request is `id=escaped;`. |
| `CachedRawg.DetailKeyInjective` | GameHubApi.Providers/CachedRawgApi.cs:117-122 | Distinct game ids give distinct detail keys. |
| `CachedRawg.CachedRawgApi.constructor` | GameHubApi.Providers/CachedRawgApi.cs:12-18 | The decorator holds the five given caches and the wrapped provider. |
| `CachedRawg.CachedRawgApi.Create` | GameHubApi.Providers/CachedRawgApi.cs:31-53 | Null caches are rejected in field order, then a null logger, a null factory and a null "Base" provider, each with ArgumentNullException naming the parameter. Otherwise the decorator wraps the provider the factory makes for "Base". |
| `CachedRawg.CachedRawgApi.GetGamesAsync` | GameHubApi.Providers/CachedRawgApi.cs:56-82 | Cache-aside on the games cache under the games key. The result, the new cache state and whether the provider was called (with the original arguments) are given by `Serve`. |
| `CachedRawg.CachedRawgApi.GetGenresAsync` | GameHubApi.Providers/CachedRawgApi.cs:85-107 | Cache-aside on the genres cache under the paging key; a miss asks for the requested page. |
| `CachedRawg.CachedRawgApi.GetGameAsync` | GameHubApi.Providers/CachedRawgApi.cs:110-136 | A blank id fails with ArgumentException("gameId") before any cache access or provider call. Otherwise cache-aside on the details cache, where a stored null counts as a miss. The movie and screenshot caches are left as they were. |
| `CachedRawg.CachedRawgApi.GetMovies` | GameHubApi.Providers/CachedRawgApi.cs:139-165 | A blank id fails before any cache access. Otherwise cache-aside on the movies cache. The details and screenshot caches, which hold the same `id=X;` keys, are left as they were. |
| `CachedRawg.CachedRawgApi.GetScreenshots` | GameHubApi.Providers/CachedRawgApi.cs:168-194 | A blank id fails before any cache access. Otherwise cache-aside on the screenshots cache. The details and movie caches are left as they were. |
| `CachedRawgQuery.BuildCacheKey` | GameHubApi/Providers/CachedRawgApi.cs:67-89 | Builds `collection?page=P&page_size=S`, then `&genres=`, `&parent_platforms=`, `&ordering=` and `&search=` with escaped values, in that order, leaving out blank values. |
| `CachedRawgQuery.QueryKeyPieces` | GameHubApi/Providers/CachedRawgApi.cs:69-86 | Split on '&', the key is its two paging pieces followed by the present filters. |
| `CachedRawgQuery.SameCollectionKeys` | GameHubApi/Providers/CachedRawgApi.cs:67-89 | Equal keys of one collection mean the same paging and the same filters. |
| `CachedRawgQuery.GamesKeyInjective` | GameHubApi/Providers/CachedRawgApi.cs:29 | Two game queries share a key if and only if they are the same request, once blank is read as null. |
| `CachedRawgQuery.GenresKeyInjective` | GameHubApi/Providers/CachedRawgApi.cs:49 | Each requested genres page has its own key. |
| `CachedRawgQuery.CachedRawgApi.constructor` | GameHubApi/Providers/CachedRawgApi.cs:8-11 | The decorator holds the two given caches and the wrapped provider. |
| `CachedRawgQuery.CachedRawgApi.Create` | GameHubApi/Providers/CachedRawgApi.cs:13-26 | Rejects a null games cache, genres cache, logger, factory or "Base" provider, in that order, naming the parameter. |
| `CachedRawgQuery.CachedRawgApi.GetGamesAsync` | GameHubApi/Providers/CachedRawgApi.cs:27-45 | Cache-aside under the "games" key. A miss asks the provider with the original arguments and stores the answer for seven days. |
| `CachedRawgQuery.CachedRawgApi.GetGenresAsync` | GameHubApi/Providers/CachedRawgApi.cs:47-65 | Cache-aside under the key of the requested page. A miss asks the provider for the default page (1, 20), not the requested one, and stores that answer under the requested key. |
| `CachedRawgQuery.GenresPagesShareAnswer` | GameHubApi/Providers/CachedRawgApi.cs:59-61 | On empty caches, any two requested genres pages are answered with what the provider returns for the default page (1, 20). A successful answer is stored under the requested page's key, so for seven days a lookup of that key is a hit returning the default page. |
| `CachedRawgGamesPath.BuildCacheKey` | Providers/CachedRawgApi.cs:44-66 | Builds `/games&page=P&page_size=S`, then the escaped non-blank filters in the fixed order genres, parent_platforms, ordering, search. |
| `CachedRawgGamesPath.PathKeyPieces` | Providers/CachedRawgApi.cs:46-63 | Split on '&', the key is "/games", its two paging pieces, then the present filters. |
| `CachedRawgGamesPath.PathKeyInjective` | Providers/CachedRawgApi.cs:44-66 | Two requests share a key if and only if they agree on paging and on every filter once blank is read as null, so null and blank filters give the same key. |
| `CachedRawgGamesPath.CachedRawgApi.constructor` | Providers/CachedRawgApi.cs:8-10 | The decorator holds the given cache and the wrapped provider. |
| `CachedRawgGamesPath.CachedRawgApi.Create` | Providers/CachedRawgApi.cs:12-23 | Rejects a null cache, logger, factory or "Base" provider, in that order, naming the parameter. |
| `CachedRawgGamesPath.CachedRawgApi.GetGamesAsync` | Providers/CachedRawgApi.cs:24-42 | Cache-aside under the `/games&...` key. A miss asks the provider with the original arguments and stores the answer for seven days. |
| `CachedTranslation.NullAndEmptyFromShareKey` | GameHubApi/Providers/CachedTranslator.cs:30 | A null and an empty source language give the same key. |
| `CachedTranslation.UnderscoreCollision` | GameHubApi/Providers/CachedTranslator.cs:30 | The hashed string `{text}_{from}_{to}` is the same for ("a_b", "c", "d") and ("a", "b_c", "d"). |
| `CachedTranslation.KeySourceInjective` | GameHubApi/Providers/CachedTranslator.cs:30 | When text and source language contain no '_', the hashed string determines text, source language and target language. The same triple always gives the same key. |
| `CachedTranslation.CachedTranslator.constructor` | GameHubApi/Providers/CachedTranslator.cs:8-9 | The decorator holds the given cache, translator and key hash. |
| `CachedTranslation.CachedTranslator.Create` | GameHubApi/Providers/CachedTranslator.cs:10-19 | A null factory, then a null cache, then a null "Base" translator is rejected with ArgumentNullException naming the parameter. Otherwise it wraps the "Base" translator. |
| `CachedTranslation.CachedTranslator.Translate` | GameHubApi/Providers/CachedTranslator.cs:20-39 | A blank text, then a blank target language, fails with ArgumentException before the cache or the translator is touched. Otherwise cache-aside under the hashed key: a hit skips the translator, and a miss calls it once and caches the answer for seven days. A failure propagates uncached. |
| `CachedTranslation.CollidingCallsShareTranslation` | GameHubApi/Providers/CachedTranslator.cs:30-35 | After a miss stores the translation of ("a_b", "c", "d"), the call ("a", "b_c", "d") is answered with it without asking the translator. |
| `Translation.Translator.Translate` | GameHubApi.Providers/ITranslator.cs:15 | The translator's answer is a function of (text, from, to), and each call is appended to its log. |
| `Rawg.RawgProvider.GetGamesAsync` | GameHubApi.Providers/IRawgApi.cs:20 | The provider's answer is a function of the query, and the call is logged. |
| `Rawg.RawgProvider.GetGenresAsync` | GameHubApi.Providers/IRawgApi.cs:28 | The provider's answer is a function of the paging, and the call is logged. |
| `Rawg.RawgProvider.GetGameAsync` | GameHubApi.Providers/IRawgApi.cs:35 | The provider's answer, possibly null, is a function of the id, and the call is logged. |
| `Rawg.RawgProvider.GetMovies` | GameHubApi.Providers/IRawgApi.cs:42 | The provider's answer is a function of the id, and the call is logged. |
| `Rawg.RawgProvider.GetScreenshots` | GameHubApi.Providers/IRawgApi.cs:49 | The provider's answer is a function of the id, and the call is logged. |
| `UriEscape.Utf8Decodes` | GameHubApi.Providers/CachedRawgApi.cs:208 | The UTF-8 bytes of every character decode back to that character. |
| `UriEscape.PercentRoundTrip` | GameHubApi.Providers/CachedRawgApi.cs:208 | Reading `%XX` triples back gives the encoded bytes. |
| `UriEscape.EscapedCharset` | GameHubApi.Providers/CachedRawgApi.cs:208 | The escaped form holds only unreserved characters and '%'. |
| `UriEscape.EscapedHasNoSeparators` | GameHubApi.Providers/CachedRawgApi.cs:208 | The escaped form never contains ';', '&', '=' or '?'. |
| `UriEscape.EscapeUnreservedIdentity` | GameHubApi.Providers/CachedRawgApi.cs:64-65 | A string of unreserved characters, such as a number, is left unchanged by escaping. |
| `UriEscape.EscapeRoundTrip` | GameHubApi.Providers/CachedRawgApi.cs:208 | Unescaping undoes escaping. |
| `UriEscape.EscapeInjective` | GameHubApi.Providers/CachedRawgApi.cs:208 | Distinct strings escape differently. |
| `KeyParts.BodiesInjective` | GameHubApi.Providers/CachedRawgApi.cs:208 | Rendered `name=escaped` strings with plain names determine the names and the raw values. |
| `KeyParts.JoinDetermines` | GameHubApi/Providers/CachedRawgApi.cs:69-86 | A key joined from separator-free pieces gives back its pieces. |
| `KeyParts.FiltersValues` | GameHubApi/Providers/CachedRawgApi.cs:71-86 | The rendered filters give back each filter's non-blank value under its name, and nothing for other names. |
| `QueryKeys.FilterSuffixIsPrefixed` | GameHubApi/Providers/CachedRawgApi.cs:71-86 | The four conditional appends render exactly the present filters, each preceded by '&'. |
| `QueryKeys.PiecesDetermine` | GameHubApi/Providers/CachedRawgApi.cs:67-89 | Keys with '&'-free head pieces give back their heads and their filters. |
| `Text.Normalize` | GameHubApi.Providers/CachedRawgApi.cs:206 | A value reads as absent exactly when it is null, empty or white space. |
| `Text.TrimStart` | GameHubApi.Services/GameFilter.cs:32 | Drops exactly the leading white space. |
| `Text.TrimEnd` | GameHubApi.Services/GameFilter.cs:32 | Drops exactly the trailing white space. |
| `Text.Trim` | GameHubApi.Services/GameFilter.cs:32 | Trimming never lengthens a string. |
| `Text.TrimShape` | GameHubApi.Services/GameFilter.cs:32 | The trimmed string is a slice of the input with only white space before and after it, and it neither starts nor ends with white space. |
| `Text.TrimBlank` | GameHubApi.Services/GameFilter.cs:31-32 | Trimming gives the empty string exactly when the piece is all white space. |
| `Text.Split` | GameHubApi.Services/GameFilter.cs:31 | At least one piece, and no piece holds the separator. |
| `Text.JoinSplit` | GameHubApi.Services/GameFilter.cs:31 | Joining the pieces with the separator gives back the input. |
| `Text.SplitJoin` | GameHubApi.Services/GameFilter.cs:31 | Splitting a join of separator-free pieces gives back the pieces. |
| `Text.RemoveEmpty` | GameHubApi.Services/GameFilter.cs:31 | Keeps exactly the non-empty pieces. |
| `Text.TrimAll` | GameHubApi.Services/GameFilter.cs:32 | Trims every piece, in place. |
| `Text.IsInfix` | GameHubApi.Services/GameFilter.cs:57 | True exactly when the pattern occurs somewhere in the text. |
| `Text.ContainsEmpty` | GameHubApi.Services/GameFilter.cs:57 | Every text contains the empty string. |
| `Text.IntToString` | GameHubApi.Providers/CachedRawgApi.cs:64-65 | `int.ToString()` is non-empty and starts with '-' exactly for negative numbers. |
| `Text.IntToStringCharset` | GameHubApi.Providers/CachedRawgApi.cs:64-65 | The digits and sign of a number are never blank and hold only '-' and '0'-'9'. |
| `Text.IntToStringInjective` | GameHubApi.Providers/CachedRawgApi.cs:64-65 | Distinct numbers have distinct decimal forms. |
| `GameFilters.BlankValueBlocksNothing` | GameHubApi.Services/GameFilter.cs:29-30 | A missing or blank configuration value gives no blocked tags. |
| `GameFilters.ParsedTags` | GameHubApi.Services/GameFilter.cs:28-33 | The blocked tags are exactly the trims of the non-empty pieces between commas, and none contains ','. |
| `GameFilters.BlankEntryIsEmptyTag` | GameHubApi.Services/GameFilter.cs:31-32 | The value "a, " gives the tags "a" and "": a piece of spaces survives as the empty tag. |
| `GameFilters.ContainsTag` | GameHubApi.Services/GameFilter.cs:51 | True exactly when some blocked tag equals the name, ignoring case. |
| `GameFilters.AnyTagBlocked` | GameHubApi.Services/GameFilter.cs:50-51 | True exactly when some tag of the game is blocked. |
| `GameFilters.AnyContained` | GameHubApi.Services/GameFilter.cs:57 | True exactly when the text contains some blocked tag, ignoring case. |
| `GameFilters.Verdict` | GameHubApi.Services/GameFilter.cs:49-72 | Blocked if and only if a tag is blocked, or the name contains a blocked tag, or the non-blank description contains one. Otherwise Passed. |
| `GameFilters.EmptyListPassesAll` | GameHubApi.Services/GameFilter.cs:72 | With no blocked tags, every game passes. |
| `GameFilters.EmptyTagBlocksAll` | GameHubApi.Services/GameFilter.cs:57-60 | An empty blocked tag blocks every game, because every name contains "". |
| `GameFilters.MoreTagsBlockMore` | GameHubApi.Services/GameFilter.cs:49-67 | A game blocked by a list of tags is blocked by any list containing them. |
| `GameFilters.VerdictIgnoresNameCase` | GameHubApi.Services/GameFilter.cs:57 | The verdict does not change when the game's name is case-folded. |
| `GameFilters.New` | GameHubApi.Services/GameFilter.cs:22-36 | A null configuration fails with ArgumentNullException("configuration"), a null factory with NullReferenceException, and a null "AI" filter with ArgumentNullException("aiGameFilter"). Otherwise construction succeeds, and the blocked tags are the parsed configuration value. |
| `GameFilters.FilterAsync` | GameHubApi.Services/GameFilter.cs:45-73 | A null game fails with ArgumentNullException("game"). Otherwise the verdict depends only on the blocked list and the game's tags, name and description; the AI filter is not consulted. |
| `GameFilters.NoBlockedTagsPassesEveryGame` | GameHubApi.Services/GameFilter.cs:28-30 | With no or a blank "BlockedTags" setting, every game passes. |
| `GameFilters.BlankEntryBlocksEveryGame` | GameHubApi.Services/GameFilter.cs:31-32 | With the setting "a, ", every game is blocked. |
| `GameFilterSync.NewSync` | GameHubApi/Services/GameFilter.cs:10-24 | Fails with ArgumentNullException("configuration") exactly when the configuration is null. Otherwise the blocked tags are the parsed value. |
| `GameFilterSync.Filter` | GameHubApi/Services/GameFilter.cs:25-53 | A null game fails with ArgumentNullException("game"). Otherwise the verdict is the same rule as the asynchronous filter's. |
| `RawgEntities.ToContract` | GameHubApi.Providers/RawgApi.Entities/Game.cs:97-126 | A redirect fails first, then a missing id or a blank name or slug, each with its own InvalidOperationException message. Success happens exactly otherwise, with a fresh contract: id, name, slug, background image and metacritic copied; rating and rating top defaulting to 0 and the description to ""; the four lists passed by reference. |
| `Contracts.Game.Clone` | GameHubApi.Contracts/Game.cs:84-105 | A new object, distinct from the source, with every property equal. The list properties are the same list objects, so the copy is shallow. |
| `Contracts.CloneWithDescription` | GameHubApi.Services/GamesService.cs:94-97 | A clone whose description is replaced. Every other property equals the original's, and the original keeps its description. |
| `UserGames.New` | GameHubApi.Services/UserGameService.cs:12-15 | Fails with ArgumentNullException("repository") exactly when the repository is null, and otherwise gives the service over that repository. |
| `UserGames.MapResultCode` | GameHubApi.Services/UserGameService.cs:83-94 | BadRequest, NotFound, Conflict, Forbidden and InternalServerError map to the service code of the same name; any other code maps to InternalServerError, and never to Success. |
| `UserGames.MapResultCodeInjective` | GameHubApi.Services/UserGameService.cs:85-91 | Distinct listed codes map to distinct service codes. |
| `UserGames.Rewrap` | GameHubApi.Services/UserGameService.cs:23-26 | A success is returned unchanged. A RepositoryException becomes a ServiceException with the mapped code and the same message. Anything else passes through, so no repository exception escapes. |
| `UserGames.GetUserGame` | GameHubApi.Services/UserGameService.cs:17-27 | Returns the repository's answer unchanged on success, and no repository exception escapes. |
| `UserGames.CreateUserGame` | GameHubApi.Services/UserGameService.cs:29-44 | A body user id that differs, ignoring case, fails with BadRequest whatever the repository would do. Otherwise the repository's success is returned unchanged. |
| `UserGames.UpdateUserGame` | GameHubApi.Services/UserGameService.cs:46-66 | The id is checked first, then the user id, both ignoring case. Either mismatch is BadRequest with its own message, before the repository. Otherwise the repository's success is returned unchanged. |
| `UserGames.GetUserGames` | GameHubApi.Services/UserGameService.cs:68-78 | Returns the repository's collection unchanged on success, and no repository exception escapes. |
| `UserGames.RepositoryFailureKeepsMessage` | GameHubApi.Services/UserGameService.cs:74-77 | A repository failure reaches the caller with the repository's message and the mapped code. |
| `UserGames.CaseOnlyDifferenceAccepted` | GameHubApi.Services/UserGameService.cs:31 | The user ids "User1" and "USER1" match. |
| `GamesServices.KeepPassed` | GameHubApi.Services/GamesService.cs:47 | Keeps exactly the games the filter passes, and never more games than given. |
| `GamesServices.KeepPassedConcat` | GameHubApi.Services/GamesService.cs:47 | Filtering keeps the order: filtering a concatenation concatenates the filtered parts. |
| `GamesServices.KeepPassedAllPass` | GameHubApi.Services/GamesService.cs:47 | When every game passes, the list is unchanged. |
| `GamesServices.KeepPassedIdempotent` | GameHubApi.Services/GamesService.cs:47 | Filtering twice is filtering once. |
| `GamesServices.MapProviderError` | GameHubApi.Services/GamesService.cs:102-120 | A success is returned unchanged. A provider NotFound becomes NotFound if and only if it was NotFound. Any other failure becomes InternalServerError, each with its message. |
| `GamesServices.Checked` | GameHubApi.Services/GamesService.cs:58-88 | NotFound if and only if the provider reports NotFound or returns null. InternalServerError if and only if it fails otherwise. Forbidden if and only if the game does not pass the filter. Success if and only if the provider's game passes, and then the game is returned. |
| `GamesServices.HydrateMeaning` | GameHubApi.Services/GamesService.cs:174-188 | Hydration fails if and only if some lookup fails with neither NotFound nor Forbidden, and then with the first such failure. Otherwise it returns every game found, in recommendation order. |
| `GamesServices.BlockedGameForbidden` | GameHubApi.Services/GamesService.cs:83-88 | A game the filter blocks is Forbidden even though the provider found it. |
| `GamesServices.GamesService.constructor` | GameHubApi.Services/GamesService.cs:13-15 | The service holds the given provider, filter and translator. |
| `GamesServices.GamesService.Create` | GameHubApi.Services/GamesService.cs:19-31 | A null provider, filter, translator, language model or logger is rejected, in that order, with ArgumentNullException naming it. |
| `GamesServices.GamesService.GetGamesAsync` | GameHubApi.Services/GamesService.cs:33-49 | Calls the provider once with the query. Count, next and previous are copied unchanged, not recomputed. The results are the provider's games that pass the filter, in order. A provider failure propagates. |
| `GamesServices.GamesService.Fetch` | GameHubApi.Services/GamesService.cs:53-88 | A blank id fails with ArgumentException("gameId"). A success is a game the provider returned that passes the filter. |
| `GamesServices.GamesService.GetGameAsync` | GameHubApi.Services/GamesService.cs:51-100 | Errors as in `Fetch`; a blank id never reaches the provider. The description is translated only when the language and the description are both non-blank. Then the result is a fresh clone with the translated description and every other property equal, and a translator failure propagates. Otherwise the game itself is returned and the translator is not called. |
| `GamesServices.GamesService.GetMovies` | GameHubApi.Services/GamesService.cs:102-120 | Provider NotFound becomes NotFound and any other failure InternalServerError; a success is unchanged. |
| `GamesServices.GamesService.GetScreenshots` | GameHubApi.Services/GamesService.cs:122-140 | Provider NotFound becomes NotFound and any other failure InternalServerError; a success is unchanged. |
| `GamesServices.GamesService.Lookups` | GameHubApi.Services/GamesService.cs:175-181 | Looks up each recommended slug without translation, in recommendation order. A null element of the list fails with NullReferenceException. |
| `GamesServices.GamesService.RecommendationsShape` | GameHubApi.Services/GamesService.cs:174-197 | The results are exactly the first min(5, found) of the games found, in recommendation order, and each passes the filter. Count equals the number of results, and next and previous are null. |
| `GamesServices.GamesService.LookUpRecommended` | GameHubApi.Services/GamesService.cs:174-189 | Every recommended slug is looked up in order without translation. A null element throws when its slug is read. The provider is asked once for each non-blank slug of a non-null element, and the translator is never asked. The outcome is the hydration of those lookups. |
| `GamesServices.GamesService.GetGameRecommendationsAsync` | GameHubApi.Services/GamesService.cs:156-197 | An unparsable reply is InternalServerError. JSON that does not deserialise to a list of recommendations lets the deserialiser's JsonException through unwrapped, because that call sits outside the try block. A null list is an empty page. Otherwise each slug is looked up in order without translation, NotFound and Forbidden are dropped, any other failure fails the call, and the first five games are kept. |
| `GamesServicesSync.SyncGamesService.constructor` | GameHubApi/Services/GamesService.cs:8-9 | The service holds the given provider and filter. |
| `GamesServicesSync.SyncGamesService.Create` | GameHubApi/Services/GamesService.cs:10-14 | A null provider, then a null filter, is rejected with ArgumentNullException naming it. |
| `GamesServicesSync.SyncGamesService.GetGamesAsync` | GameHubApi/Services/GamesService.cs:15-26 | Calls the provider once with the original arguments. Count, next and previous are copied, and the results are the games that pass the filter, in upstream order. |

## Left out

- The `lock (syncRoot)` wrappers of the cache (GameHubApi.Providers/LruCache.cs:33-66): each public call is modelled as one atomic step of the matching `*Internal` method.
- `DateTime.UtcNow` and `TimeSpan`: the clock is the integer `now` (milliseconds), and a decorator call reads it once for both its `Get` and its `Set`.
- SetInternal's null-key guard (LruCache.cs:103-106) and its "No value to evict!" branch (LruCache.cs:116-119): keys are non-null strings here, and a full cache of capacity at least 1 always has a last node.
- Dictionary enumeration order: `BuildCacheKey` receives the parameters as a sequence in insertion order, which is the order .NET enumerates a dictionary that has never had an entry removed.
- Case-insensitive comparison (`OrdinalIgnoreCase`) is an ASCII case fold; full Unicode case folding is not modelled.
- `Uri.EscapeDataString` is defined concretely (RFC 3986 section 2.3, UTF-8 per RFC 3629). A Dafny `char` is a Unicode scalar value, so the model never meets a lone surrogate, and how .NET escapes one is not modelled.
- `int.ToString()` is the invariant-culture rendering; culture-specific signs are not modelled.
- `Rating` (a `double`) is a `real`; no floating-point behaviour is modelled.
- CachedTranslation.CachedTranslator.Key: `string.GetHashCode().ToString("X8")` is randomised per process, so the hash is a parameter `keyHash`. The model does not claim the hash is injective; collisions before hashing are shown by `UnderscoreCollision`.
- GamesServices.GamesService.GetGameAsync: "the original game is not modified" follows from the frame (only the provider and the translator are modified) and is not a separate clause, because the game comes from the provider's answer function.
- GamesServices.GamesService.GetGamesAsync: the filter is an abstract verdict per game (`Game -> FilterResult`). The concrete rule filter is modelled separately, in `GameFilters.FilterAsync`.
- `Task.WhenAll` fan-out in `GetGamesAsync` and the recommendations is modelled as an order-preserving sequential loop. Every lookup is made, and the first fatal failure in recommendation order is the one reported.
- The language model call and the JSON parsing of its reply (GamesService.cs:144-169) are I/O and a foreign parser. The reply enters already classified as `ModelReply`: not JSON, JSON of the wrong shape (an object, or an element without its required `slug`), or a possibly-null list of possibly-null recommendations.
- The `as Game ?? throw InvalidOperationException` branch after `Clone` (GamesService.cs:95) cannot be taken, because `Clone` always returns a Game.
- Inner exceptions attached to re-thrown exceptions, and all logging calls, are side channels and not modelled.
- A null `Game.Name` would raise NullReferenceException in both filters; the contract's name is a non-null string here.
- The AI game filter (`AIGameFilter.cs`) is only checked for null at construction, as the source does; its own filtering is LLM I/O.
- The repository is a datatype of four answer functions following the calls `UserGameService.cs` makes. The interface file GameHubApi.Repository/IUserGameRepository.cs:5-9 declares different members (`GetUserGame` and `CreateOrUpdateUserGamePreference`), and the repository's implementation is database I/O.
- The `RepositoryResultCode` enum is not part of this model's sources: its five named members are the ones `MapResultCode` lists, and `Unlisted(name)` stands for any other value.
- The older contract GameHubApi/Contracts/Game.cs:5-27 has no `Tags` or `Description`; the older filter and service are modelled against the current contract.
- HTTP clients (`RawgApi.cs`, `AzureTranslatorApi.cs`, `OpenAILargeLanguageModel.cs`), the database repository, controllers and dependency-injection wiring are I/O and composition. The wiring's capacities, 500 for the games cache and 100 for the others (GameHubApi.Host/Program.cs:145-164), are not modelled.
