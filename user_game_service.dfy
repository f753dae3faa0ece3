/**
 * The user-game service (GameHubApi.Services/UserGameService.cs): it checks that the ids in a
 * request body match the ids of the route, forwards to the repository, and re-raises the
 * repository's failures as service failures with a mapped result code and the same message.
 * The repository is a record of the answers its four calls give.
 */
module UserGames {
  import opened Wrappers
  import opened Text
  import opened Contracts
  import Errors

  /** The repository as the service uses it: what each call returns or throws. */
  datatype UserGameRepository = UserGameRepository(
    getUserGame: (string, string) -> Result<Option<UserGame>, Errors.Exception>,
    createUserGame: (string, UserGame) -> Result<UserGame, Errors.Exception>,
    updateUserGame: (string, string, UserGame) -> Result<UserGame, Errors.Exception>,
    getUserGames: string -> Result<CollectionResult<UserGame>, Errors.Exception>)

  datatype UserGameService = UserGameService(repository: UserGameRepository)

  const UserIdMismatch: string := "UserGame UserId does not match the provided userId."
  const IdMismatch: string := "UserGame Id does not match the provided id."

  /** The constructor: a null repository is rejected by name. */
  function New(repository: Option<UserGameRepository>): (r: Result<UserGameService, Errors.Exception>)
    ensures repository.None? <==> r == Failure(Errors.ArgumentNullException("repository"))
    ensures r.Success? ==> Some(r.value.repository) == repository
    ensures repository.Some? ==> r == Success(UserGameService(repository.value))
  {
    if repository.None? then Failure(Errors.ArgumentNullException("repository"))
    else Success(UserGameService(repository.value))
  }

  /** The enum member names of the two code types. */
  function RepositoryCodeName(code: Errors.RepositoryResultCode): string
  {
    match code
    case BadRequest => "BadRequest"
    case NotFound => "NotFound"
    case Conflict => "Conflict"
    case Forbidden => "Forbidden"
    case InternalServerError => "InternalServerError"
    case Unlisted(name) => name
  }

  function ServiceCodeName(code: Errors.ServiceResultCode): string
  {
    match code
    case Success => "Success"
    case NotFound => "NotFound"
    case Unauthorized => "Unauthorized"
    case BadRequest => "BadRequest"
    case Conflict => "Conflict"
    case DataAccessError => "DataAccessError"
    case InternalServerError => "InternalServerError"
    case Forbidden => "Forbidden"
  }

  /** `MapResultCode`: the five listed codes keep their name; any other code is an internal error. */
  function MapResultCode(code: Errors.RepositoryResultCode): (r: Errors.ServiceResultCode)
    ensures !code.Unlisted? ==> ServiceCodeName(r) == RepositoryCodeName(code)
    ensures code.Unlisted? ==> r == Errors.ServiceResultCode.InternalServerError
    ensures r != Errors.ServiceResultCode.Success
  {
    match code
    case BadRequest => Errors.ServiceResultCode.BadRequest
    case NotFound => Errors.ServiceResultCode.NotFound
    case Conflict => Errors.ServiceResultCode.Conflict
    case Forbidden => Errors.ServiceResultCode.Forbidden
    case InternalServerError => Errors.ServiceResultCode.InternalServerError
    case Unlisted(_) => Errors.ServiceResultCode.InternalServerError
  }

  /** Distinct listed codes stay distinct: the mapping loses nothing but the unlisted codes. */
  lemma MapResultCodeInjective(c1: Errors.RepositoryResultCode, c2: Errors.RepositoryResultCode)
    requires !c1.Unlisted? && !c2.Unlisted?
    requires MapResultCode(c1) == MapResultCode(c2)
    ensures c1 == c2
  {
  }

  /**
   * The `catch (RepositoryException)` around every repository call: a success is returned
   * unchanged, a repository exception becomes a service exception with the mapped code and the
   * same message, and any other exception passes through.
   */
  function Rewrap<T>(outcome: Result<T, Errors.Exception>): (r: Result<T, Errors.Exception>)
    ensures outcome.Success? ==> r == outcome
    ensures outcome.Failure? && outcome.error.RepositoryException? ==>
              r == Failure(Errors.ServiceException(MapResultCode(outcome.error.repositoryCode), outcome.error.message))
    ensures outcome.Failure? && !outcome.error.RepositoryException? ==> r == outcome
    ensures r.Failure? ==> !r.error.RepositoryException?
  {
    if outcome.Failure? && outcome.error.RepositoryException? then
      Failure(Errors.ServiceException(MapResultCode(outcome.error.repositoryCode), outcome.error.message))
    else
      outcome
  }

  /** `GetUserGame`: the repository's answer, with its failures re-raised. */
  function GetUserGame(s: UserGameService, id: string, userId: string): (r: Result<Option<UserGame>, Errors.Exception>)
    ensures s.repository.getUserGame(id, userId).Success? ==> r == s.repository.getUserGame(id, userId)
    ensures r.Failure? ==> !r.error.RepositoryException?
  {
    Rewrap(s.repository.getUserGame(id, userId))
  }

  /**
   * `CreateUserGame`: a body whose user id differs, ignoring case, from the route's is a bad
   * request, whatever the repository would do; otherwise the repository's answer.
   */
  function CreateUserGame(s: UserGameService, userId: string, userGame: UserGame): (r: Result<UserGame, Errors.Exception>)
    ensures !EqualsIgnoreCase(userGame.userId, userId) ==>
              r == Failure(Errors.ServiceException(Errors.ServiceResultCode.BadRequest, UserIdMismatch))
    ensures EqualsIgnoreCase(userGame.userId, userId) && s.repository.createUserGame(userId, userGame).Success? ==>
              r == s.repository.createUserGame(userId, userGame)
    ensures r.Failure? ==> !r.error.RepositoryException?
  {
    if !EqualsIgnoreCase(userGame.userId, userId) then
      Failure(Errors.ServiceException(Errors.ServiceResultCode.BadRequest, UserIdMismatch))
    else
      Rewrap(s.repository.createUserGame(userId, userGame))
  }

  /**
   * `UpdateUserGame`: the id is checked first, then the user id, both ignoring case; either
   * mismatch is a bad request before the repository is asked.
   */
  function UpdateUserGame(s: UserGameService, id: string, userId: string, userGame: UserGame): (r: Result<UserGame, Errors.Exception>)
    ensures !EqualsIgnoreCase(userGame.id, id) ==>
              r == Failure(Errors.ServiceException(Errors.ServiceResultCode.BadRequest, IdMismatch))
    ensures EqualsIgnoreCase(userGame.id, id) && !EqualsIgnoreCase(userGame.userId, userId) ==>
              r == Failure(Errors.ServiceException(Errors.ServiceResultCode.BadRequest, UserIdMismatch))
    ensures EqualsIgnoreCase(userGame.id, id) && EqualsIgnoreCase(userGame.userId, userId)
            && s.repository.updateUserGame(id, userId, userGame).Success? ==>
              r == s.repository.updateUserGame(id, userId, userGame)
    ensures r.Failure? ==> !r.error.RepositoryException?
  {
    if !EqualsIgnoreCase(userGame.id, id) then
      Failure(Errors.ServiceException(Errors.ServiceResultCode.BadRequest, IdMismatch))
    else if !EqualsIgnoreCase(userGame.userId, userId) then
      Failure(Errors.ServiceException(Errors.ServiceResultCode.BadRequest, UserIdMismatch))
    else
      Rewrap(s.repository.updateUserGame(id, userId, userGame))
  }

  /** `GetUserGames`: the repository's collection, with its failures re-raised. */
  function GetUserGames(s: UserGameService, userId: string): (r: Result<CollectionResult<UserGame>, Errors.Exception>)
    ensures s.repository.getUserGames(userId).Success? ==> r == s.repository.getUserGames(userId)
    ensures r.Failure? ==> !r.error.RepositoryException?
  {
    Rewrap(s.repository.getUserGames(userId))
  }

  /** A repository exception reaches the caller with the repository's message and the mapped code. */
  lemma RepositoryFailureKeepsMessage(s: UserGameService, userId: string, code: Errors.RepositoryResultCode, message: string)
    requires s.repository.getUserGames(userId) == Failure(Errors.RepositoryException(code, message))
    ensures GetUserGames(s, userId) == Failure(Errors.ServiceException(MapResultCode(code), message))
  {
  }

  /** The id checks ignore the case of ASCII letters: a body id differing only in case is accepted. */
  lemma CaseOnlyDifferenceAccepted(s: UserGameService, userGame: UserGame)
    requires userGame.userId == "User1"
    ensures CreateUserGame(s, "USER1", userGame) == Rewrap(s.repository.createUserGame("USER1", userGame))
  {
    assert Fold("User1") == "user1";
    assert Fold("USER1") == "user1";
  }
}
