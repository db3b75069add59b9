/** Success and failure values shared by every decision provider.

    The C# code signals failure by throwing; here every operation returns a
    `Result` whose failure side keeps both the kind of failure and the name of
    the operation that raised it, so that a caller can tell an exhausted
    script from an unimplemented operation or an empty candidate list. */
module Outcome {

  datatype Option<+T> = None | Some(value: T)

  /** Why a decision could not be made. Every kind carries the name of the
      provider operation that failed. */
  datatype Failure =
    | EmptyCandidates(op: string)          // a candidate list or deck was empty
    | ArgumentOutOfRange(op: string)       // Random.Next(min, maxExclusive) with min > maxExclusive
    | Unimplemented(op: string)            // a scripted provider did not override the operation
    | ExhaustedScript(op: string)          // the scripted queue for the operation was empty
    | NoMatch(op: string)                  // `First()` found no candidate with the scripted name

  datatype Result<+T> = Ok(value: T) | Err(failure: Failure)
}
