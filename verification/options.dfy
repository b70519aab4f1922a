/** Optional values, with the failure-propagation members that let `:-` work. */
module Options {

  /** `None` stands for JavaScript's `undefined`/`null` wherever the system
      treats a missing value as distinct from a present one. */
  datatype Option<+T> = None | Some(value: T) {

    predicate IsFailure() {
      None?
    }

    function PropagateFailure<U>(): Option<U>
      requires None?
    {
      None
    }

    function Extract(): T
      requires Some?
    {
      value
    }
  }
}
