/** Primitive values the counter pallet is written in: Rust's `Option` and the
    unsigned 32-bit integer with its overflow-checked arithmetic. */
module Primitives {

  /** Rust's `Option<T>`; storage reads return `None` for a key never written. */
  datatype Option<+T> = None | Some(value: T) {
    /** `Option::unwrap_or`: the contained value, or `default` when absent. */
    function UnwrapOr(default: T): T {
      match this
      case Some(v) => v
      case None => default
    }
  }

  /** Largest value of a Rust `u32`. */
  const U32_MAX: nat := 0xFFFF_FFFF

  /** Rust's `u32`: integers are unbounded here, so the range is explicit. */
  type u32 = x: nat | x <= U32_MAX

  /** `u32::checked_add`: the exact sum when it is representable, `None` when it would wrap. */
  function CheckedAdd(a: u32, b: u32): (r: Option<u32>)
    ensures r.Some? <==> a + b <= U32_MAX
    ensures r.Some? ==> r.value == a + b && r.value >= a
  {
    if a + b <= U32_MAX then Some(a + b) else None
  }

  /** `u32::checked_sub`: the exact difference when it is not negative, `None` otherwise. */
  function CheckedSub(a: u32, b: u32): (r: Option<u32>)
    ensures r.Some? <==> b <= a
    ensures r.Some? ==> r.value == a - b && r.value <= a
  {
    if b <= a then Some(a - b) else None
  }
}
