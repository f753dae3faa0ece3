/** The result codes and exception kinds the core raises, catches or re-wraps. */
module Errors {

  /** ProviderResultCode (GameHubApi.Providers/Exceptions/ProviderResultCode.cs). */
  datatype ProviderResultCode =
    | Success | NotFound | Unauthorized | BadRequest | Conflict | DataAccessError | InternalServerError

  /** ServiceResultCode (GameHubApi.Services/Exceptions/ServiceResultCode.cs). */
  datatype ServiceResultCode =
    | Success | NotFound | Unauthorized | BadRequest | Conflict | DataAccessError | InternalServerError | Forbidden

  /** RepositoryResultCode: the five codes the service maps by name, and any other value of the enum. */
  datatype RepositoryResultCode =
    | BadRequest | NotFound | Conflict | Forbidden | InternalServerError | Unlisted(name: string)

  /** An exception as it leaves a member: its .NET type and the data the core inspects. */
  datatype Exception =
    | ArgumentException(paramName: string)
    | ArgumentNullException(paramName: string)
    | ArgumentOutOfRangeException(paramName: string)
    | InvalidOperationException(message: string)
    | NullReferenceException
    | ProviderException(providerCode: ProviderResultCode)
    | ServiceException(serviceCode: ServiceResultCode, message: string)
    | RepositoryException(repositoryCode: RepositoryResultCode, message: string)
    /** Any other exception of a collaborator (HTTP, JSON, timeouts), identified only by a description. */
    | Unexpected(description: string)
}
