/** Values that may be absent, and readings that may be refused. */
module Options {
  /** Python's None where the source uses it as "no answer". */
  datatype Option<+T> = None | Some(value: T)

  /** `Refused` is a ValueError. */
  datatype Loaded<+T> = Loaded(value: T) | Refused {
    predicate IsFailure() { Refused? }
    function PropagateFailure<U>(): Loaded<U>
      requires IsFailure()
    {
      Refused
    }
    function Extract(): T
      requires !IsFailure()
    {
      value
    }
  }
}
