/** src/error/error_context.rs: a recorded error with an optional location and named
    parameters. The code type is a parameter because the semantic checker records codes
    (`Semantic002`..`Semantic008`) that src/error/error_code.rs does not declare. */
module ErrorContexts {
  import opened Wrappers

  datatype ErrorContext<C> = ErrorContext(errorCode: C, row: Option<nat>, col: Option<nat>,
                                          params: seq<(string, string)>)

  /** `ErrorContext::new`: never fails; the code and location are kept, and the i-th
      parameter pair is the i-th given pair (the `&str` to `String` conversion changes no
      characters). */
  function NewErrorContext<C>(errorCode: C, row: Option<nat>, col: Option<nat>,
                              params: seq<(string, string)>): (e: ErrorContext<C>)
    ensures e.errorCode == errorCode && e.row == row && e.col == col
    ensures |e.params| == |params|
    ensures forall i :: 0 <= i < |params| ==> e.params[i] == params[i]
  {
    ErrorContext(errorCode, row, col, seq(|params|, i requires 0 <= i < |params| => params[i]))
  }
}
