/**
 * Transport status codes, the Go error values that reach the remote state
 * adapter, and the store error kinds it translates them to
 * (pkg/state/protobuf/client/client.go).
 */
module Errors {

  /** The gRPC status codes. */
  datatype Code =
    | OK | Canceled | Unknown | InvalidArgument | DeadlineExceeded | NotFound
    | AlreadyExists | PermissionDenied | ResourceExhausted | FailedPrecondition
    | Aborted | OutOfRange | Unimplemented | Internal | Unavailable | DataLoss
    | Unauthenticated

  /** A non-nil Go `error` as the adapter receives it. */
  datatype Cause =
    | Status(code: Code, message: string)  // an error carrying a gRPC status
    | EndOfStream                          // io.EOF
    | Text(message: string)                // any other error, e.g. errors.New(message)

  /** `status.Code(err)`: the status code of a status error, Unknown for any other error. */
  function CodeOf(c: Cause): Code
  {
    if c.Status? then c.code else Unknown
  }

  /**
   * The error an adapter operation returns. Every kind wraps the original
   * error unchanged. `OwnerConflictError` and `PhaseConflictError` stand for
   * `eOwnerConflict{eConflict{err}}` and `ePhaseConflict{eConflict{err}}`:
   * both are conflicts too.
   */
  datatype Error =
    | Passed(cause: Cause)              // the error is returned as it is
    | NotFoundError(cause: Cause)       // eNotFound{err}
    | ConflictError(cause: Cause)       // eConflict{err}
    | OwnerConflictError(cause: Cause)  // eOwnerConflict{eConflict{err}}
    | PhaseConflictError(cause: Cause)  // ePhaseConflict{eConflict{err}}

  predicate IsNotFound(e: Error) { e.NotFoundError? }

  predicate IsConflict(e: Error) { e.ConflictError? || e.OwnerConflictError? || e.PhaseConflictError? }

  predicate IsOwnerConflict(e: Error) { e.OwnerConflictError? }

  predicate IsPhaseConflict(e: Error) { e.PhaseConflictError? }

  /** The table of Get and List: only NotFound is translated. */
  function MapLookupError(err: Cause): (r: Error)
    ensures r.cause == err
    ensures IsNotFound(r) <==> CodeOf(err) == NotFound
    ensures !IsConflict(r)
  {
    match CodeOf(err)
    case NotFound => NotFoundError(err)
    case _ => Passed(err)
  }

  /** The table of Create. */
  function MapCreateError(err: Cause): (r: Error)
    ensures r.cause == err
    ensures IsNotFound(r) <==> CodeOf(err) == NotFound
    ensures IsConflict(r) <==> CodeOf(err) in {PermissionDenied, AlreadyExists}
    ensures IsOwnerConflict(r) <==> CodeOf(err) == PermissionDenied
    ensures !IsPhaseConflict(r)
  {
    match CodeOf(err)
    case NotFound => NotFoundError(err)
    case PermissionDenied => OwnerConflictError(err)
    case AlreadyExists => ConflictError(err)
    case _ => Passed(err)
  }

  /** The table of Update. */
  function MapUpdateError(err: Cause): (r: Error)
    ensures r.cause == err
    ensures IsNotFound(r) <==> CodeOf(err) == NotFound
    ensures IsConflict(r) <==> CodeOf(err) in {PermissionDenied, InvalidArgument, FailedPrecondition}
    ensures IsOwnerConflict(r) <==> CodeOf(err) == PermissionDenied
    ensures IsPhaseConflict(r) <==> CodeOf(err) == InvalidArgument
  {
    match CodeOf(err)
    case NotFound => NotFoundError(err)
    case PermissionDenied => OwnerConflictError(err)
    case InvalidArgument => PhaseConflictError(err)
    case FailedPrecondition => ConflictError(err)
    case _ => Passed(err)
  }

  /** The table of Destroy. */
  function MapDestroyError(err: Cause): (r: Error)
    ensures r.cause == err
    ensures IsNotFound(r) <==> CodeOf(err) == NotFound
    ensures IsConflict(r) <==> CodeOf(err) in {PermissionDenied, FailedPrecondition}
    ensures IsOwnerConflict(r) <==> CodeOf(err) == PermissionDenied
    ensures !IsPhaseConflict(r)
  {
    match CodeOf(err)
    case NotFound => NotFoundError(err)
    case PermissionDenied => OwnerConflictError(err)
    case FailedPrecondition => ConflictError(err)
    case _ => Passed(err)
  }

  /** Errors that are not gRPC statuses (a decode failure, io.EOF) are never translated. */
  lemma NonStatusErrorsPassThrough(err: Cause)
    requires !err.Status?
    ensures MapLookupError(err) == Passed(err) && MapCreateError(err) == Passed(err)
    ensures MapUpdateError(err) == Passed(err) && MapDestroyError(err) == Passed(err)
  {
  }

  /**
   * The Update table is the Create table with InvalidArgument and
   * FailedPrecondition added and AlreadyExists dropped.
   */
  lemma UpdateTableExtendsCreateTable(err: Cause)
    ensures CodeOf(err) !in {AlreadyExists, InvalidArgument, FailedPrecondition} ==>
              MapUpdateError(err) == MapCreateError(err)
    ensures CodeOf(err) == AlreadyExists ==>
              MapCreateError(err) == ConflictError(err) && MapUpdateError(err) == Passed(err)
  {
  }
}
