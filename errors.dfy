/** The error values of the compute layer, with the Option and Outcome
    wrappers used where Go returns a value beside an `error`. */
module Errors {

  /** Go's nilable values: a nil error, a nil context, an absent result. */
  datatype Option<+T> = None | Some(value: T)

  /** A Go `(T, error)` pair in which exactly one side is meaningful. */
  datatype Outcome<+T> = Ok(value: T) | Err(error: Error)

  /** Every error value the core can produce. */
  datatype Error =
    // compute/command
    | InvalidCommand
    | InvalidArguments
    // the query parsers of compute/impl/network and compute/repl
    | InvalidQuery
    // storage/engine
    | EmptyKey
    | NotFound
    | Internal
    | LoggerRequired
    | DoneChannelRequired
    // what `ctx.Err()` reports once a context is done
    | Canceled
    | DeadlineExceeded
    // the dispatchers' `errors.New("unknown command")`
    | UnknownCommand
    // whatever an `io.Writer` reports when a write fails
    | WriteFailed

  /** `err.Error()`: the text of each error. */
  function Message(e: Error): string
  {
    match e
    case InvalidCommand => "invalid command"
    case InvalidArguments => "invalid arguments"
    case InvalidQuery => "invalid query"
    case EmptyKey => "empty key"
    case NotFound => "not found"
    case Internal => "internal error"
    case LoggerRequired => "logger is required"
    case DoneChannelRequired => "done channel is required"
    case Canceled => "context canceled"
    case DeadlineExceeded => "context deadline exceeded"
    case UnknownCommand => "unknown command"
    case WriteFailed => "write failed"
  }

  /** No two errors share a text, so an "ERR: " line names its error. */
  lemma MessageInjective(e1: Error, e2: Error)
    requires Message(e1) == Message(e2)
    ensures e1 == e2
  {
  }
}
