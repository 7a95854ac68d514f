/** Result values that replace the agents' fatal `panic!`/`expect` calls. */
module Outcomes {

  datatype Option<T> = None | Some(value: T)

  /** Why a run stops for good: one value per fatal exit in the agents. */
  datatype Fatal =
    | OracleUnavailable          // the request to the language model failed, and so did its retry
    | MalformedReply             // a structured reply could not be decoded
    | NoUrlsOnFactSheet          // the architect tests URLs but the fact sheet holds none
    | OperatorDeclined           // the operator answered "n" at the safety prompt
    | BuildNotLaunched           // `cargo build` could not be executed at all
    | BuildErrorsNotUtf8         // the failed build's error output is not valid UTF-8
    | TooManyBugs                // the third consecutive failed build
    | ServerNotLaunched          // `cargo run` could not be spawned
    | EndpointFailed(url: string) // a route did not answer with status 200

  datatype Result<T> = Ok(value: T) | Fail(reason: Fatal)

  /** What `execute` hands back: `Ok(())`, or the process ended by a panic. */
  datatype Outcome = Completed | Aborted(reason: Fatal)

  /** The end of a state-machine run (or of one step of it), with the state at that point.
      For an abort, `config` is the state at the moment of the panic. */
  datatype Step<C> = Done(config: C) | Abort(config: C, reason: Fatal) {
    function ToOutcome(): Outcome {
      if Done? then Completed else Aborted(reason)
    }
  }
}
