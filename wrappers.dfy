/** Option and Result values for the places where the C# code uses null,
    a failed lookup or an exception that the caller catches, and the one
    sequence fact the proofs hand to the solver by name. */
module Wrappers {

  datatype Option<+T> = None | Some(value: T) {
    function GetOr(default: T): T {
      match this
      case Some(v) => v
      case None => default
    }
  }

  datatype Result<+T> = Success(value: T) | Failure(error: string)

  /** Concatenation regroups freely; calling this instead of leaving the step to
      the solver keeps proofs about long texts cheap. */
  lemma ConcatAssoc<T>(x: seq<T>, y: seq<T>, z: seq<T>)
    ensures (x + y) + z == x + (y + z)
  {
  }
}
