/** Option and Result, and the fatal error conditions of a distribution run. */
module Wrappers {

  datatype Option<+T> = None | Some(value: T)

  datatype Result<+T, +E> = Ok(value: T) | Err(error: E) {
    predicate IsFailure() {
      Err?
    }

    function PropagateFailure<U>(): Result<U, E>
      requires Err?
    {
      Err(error)
    }

    function Extract(): T
      requires Ok?
    {
      value
    }
  }

  /** The conditions on which a run stops. Each is fatal to the whole group of processes. */
  datatype Error =
    | SourceUnavailable   // the hypergraph file cannot be opened
    | UnsupportedFormat   // the header line does not hold exactly two numbers
    | InputExhausted      // the input ended where a data line was expected
    | Stalled             // a receive has no message to match: the receiver would block forever
    | Malformed           // a received message has another type or size than the receive expects
}
