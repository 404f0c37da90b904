/** Small containers shared by every other module. */
module Common {

  datatype Option<+T> = None | Some(value: T) {
    predicate IsFailure() { None? }
    function PropagateFailure<U>(): Option<U> requires None? { None }
    function Extract(): T requires Some? { value }
  }

  /** A 128-bit sensor UID as the two 64-bit halves the protocol carries. */
  datatype Uid = Uid(high: nat, low: nat)
}
