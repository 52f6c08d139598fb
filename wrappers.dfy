/** Option and Result, the two shapes the store uses for "maybe absent" and "rejected". */
module Wrappers {

  datatype Option<+T> = None | Some(value: T)

  datatype Result<+R, +E> = Success(value: R) | Failure(error: E)

  /** JavaScript truthiness of an optional number: absent and 0 are falsy. */
  predicate Truthy(o: Option<int>) {
    o.Some? && o.value != 0
  }

  /** JavaScript `o || fallback` on an optional number. */
  function OrElse(o: Option<int>, fallback: int): int {
    if Truthy(o) then o.value else fallback
  }
}
