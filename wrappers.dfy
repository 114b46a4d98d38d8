/** Optional values and failure results shared by the whole model. The exceptions the
    library throws become `Failure` values carrying the exception kind. */
module Wrappers {

  datatype Option<+T> = None | Some(value: T)

  /** The exception kinds the modelled code raises. */
  datatype Error =
    | ArgumentNull(paramName: string)          // ArgumentNullException from Argument.NotNull
    | InvalidArgument(message: string)         // what Argument.Ensure throws when its condition is false
    | InvalidState(message: string)            // `throw new Exception("Unexpected ...")`
    | NotImplemented                           // NotImplementedException
    | ArgumentOutOfRange(paramName: string)    // ArgumentOutOfRangeException

  datatype Result<+T> = Success(value: T) | Failure(error: Error) {

    predicate IsFailure() {
      Failure?
    }

    function PropagateFailure<U>(): Result<U>
      requires Failure?
    {
      Failure(error)
    }

    function Extract(): T
      requires Success?
    {
      value
    }
  }

  /** `string.ToLowerInvariant` on text whose only letters are A to Z and a to z, as the
      names of the enumeration members are: each capital becomes its small letter. */
  function LowerInvariant(s: string): (r: string)
    ensures |r| == |s|
    ensures forall i :: 0 <= i < |s| ==> r[i] == if 'A' <= s[i] <= 'Z' then (s[i] as int + 32) as char else s[i]
  {
    seq(|s|, i requires 0 <= i < |s| => if 'A' <= s[i] <= 'Z' then (s[i] as int + 32) as char else s[i])
  }
}
