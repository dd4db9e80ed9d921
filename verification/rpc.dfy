/** The gRPC status vocabulary the services answer with. */
module Rpc {

  /** The canonical gRPC status codes. */
  datatype Code =
    | Ok | Cancelled | Unknown | InvalidArgument | DeadlineExceeded | NotFound
    | AlreadyExists | PermissionDenied | ResourceExhausted | FailedPrecondition
    | Aborted | OutOfRange | Unimplemented | Internal | Unavailable | DataLoss
    | Unauthenticated

  /** An error status returned to a remote caller: a code and a message. */
  datatype Status = Status(code: Code, message: string)
}
