/** Go error values as the code base builds them: leaf errors from the
    collaborators, `io.EOF`, `*exec.ExitError`, and message wrapping by
    `errors.Wrap` (which renders as "context: cause"). */
module Errors {
  import opened Base

  datatype Error =
    | Plain(msg: string)                        // errors.New, or any error returned by a collaborator
    | Eof                                       // the io.EOF sentinel
    | ExitError(status: string, stderr: Bytes)  // *exec.ExitError: a non-zero exit or a kill
    | Wrapped(context: string, inner: Error)    // errors.Wrap / errors.Wrapf

  /** A Go `error` return: None is nil. */
  type Outcome = Option<Error>

  datatype Result<+T> = Success(value: T) | Failure(error: Error)

  /** err.Error(). An ExitError's message is its status only: the
      captured standard error travels as data, not as text. */
  function Message(e: Error): string {
    match e
    case Plain(m) => m
    case Eof => "EOF"
    case ExitError(status, _) => status
    case Wrapped(c, inner) => c + ": " + Message(inner)
  }

  /** errors.Wrap(err, context): nil stays nil. */
  function Wrap(err: Outcome, context: string): (r: Outcome)
    ensures r.None? <==> err.None?
    ensures r.Some? ==> Message(r.value) == context + ": " + Message(err.value)
  {
    match err
    case None => None
    case Some(e) => Some(Wrapped(context, e))
  }

  /** The error a call returned alongside its value: nil on success. */
  function ErrorOf<T>(r: Result<T>): (e: Outcome)
    ensures e.None? <==> r.Success?
    ensures e.Some? ==> e.value == r.error
  {
    if r.Success? then None else Some(r.error)
  }

  /** errors.Is(e, target): target is somewhere on e's wrap chain. */
  predicate Is(e: Error, target: Error) {
    e == target || (e.Wrapped? && Is(e.inner, target))
  }

  /** errors.As(e, &exitErr): the first *exec.ExitError on e's wrap chain. */
  function AsExitError(e: Error): (r: Option<Error>)
    ensures r.Some? ==> r.value.ExitError? && Is(e, r.value)
    ensures forall status, stderr :: Is(e, ExitError(status, stderr)) ==> r.Some?
  {
    match e
    case ExitError(_, _) => Some(e)
    case Wrapped(_, inner) => AsExitError(inner)
    case _ => None
  }

  /** `exitErr.Stderr = stderr` after errors.As: sets the captured standard
      error of the ExitError found on the chain, in place. */
  function SetExitStderr(e: Error, stderr: Bytes): (r: Error)
    ensures AsExitError(e).None? ==> r == e
    ensures AsExitError(e).Some? ==>
      AsExitError(r) == Some(ExitError(AsExitError(e).value.status, stderr))
    ensures Message(r) == Message(e)
  {
    match e
    case ExitError(status, _) => ExitError(status, stderr)
    case Wrapped(c, inner) => Wrapped(c, SetExitStderr(inner, stderr))
    case _ => e
  }
}
