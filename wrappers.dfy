/** The optional value used wherever the source has `T | null` or an optional property. */
module Wrappers {

  datatype Option<+T> = None | Some(value: T) {

    /** Failure-compatible: `:-` on an Option stops at None. */
    predicate IsFailure() {
      None?
    }

    function PropagateFailure<U>(): Option<U>
      requires None?
    {
      None
    }

    function Extract(): T
      requires Some?
    {
      value
    }
  }
}
