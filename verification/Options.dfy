/** A value that may be absent. */
module Options {

  datatype Option<+T> = None | Some(value: T) {

    /** Absence is what `:-` hands on. */
    predicate IsFailure() { None? }

    function PropagateFailure<U>(): Option<U>
      requires None?
    {
      None
    }

    function Extract(): T
      requires Some?
    {
      value
    }
  }
}
