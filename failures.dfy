/**
 * The exceptions the export code throws, and the HTTP status the server answers
 * each with once its exception filter has handled it.
 */
module Failures {
  import opened Http
  import opened ExportMessages

  /** Why a request was refused as not valid; each reason carries its own diagnostic in the source. */
  datatype NotValidReason =
    | InvalidAcceptHeader
    | InvalidPreferHeader
    | MissingDestinationType
    | MissingDestinationConnectionString
    | UnsupportedDestinationType(destinationType: string)
    | UnsupportedOperation
    | UnsupportedResourceType(resourceType: string)

  datatype Failure =
    | RequestNotValid(reason: NotValidReason)
    | OperationNotImplemented
    | JobNotCreated
    | JobNotFound(id: string)
    | InvalidArgument(error: ArgumentError)

  /** The status of the answer to a request whose handling threw `f`. */
  function StatusOf(f: Failure): (s: HttpStatus)
    ensures s == BadRequest <==> f.RequestNotValid?
    ensures s == NotImplemented <==> f.OperationNotImplemented?
    ensures s == NotFound <==> f.JobNotFound?
    ensures s == InternalServerError <==> f.JobNotCreated? || f.InvalidArgument?
    ensures 400 <= s.Code() < 500 <==> f.RequestNotValid? || f.JobNotFound?
    ensures s.Code() >= 400
  {
    match f
    case RequestNotValid(_) => BadRequest
    case OperationNotImplemented => NotImplemented
    case JobNotFound(_) => NotFound
    case JobNotCreated => InternalServerError
    case InvalidArgument(_) => InternalServerError
  }
}
