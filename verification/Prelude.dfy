/** Vocabulary shared by every pallet: results of a dispatch, and the fixed-width
    arithmetic the Rust code asks for by name. */
module Prelude {

  type Account = nat

  const U32_MAX: nat := 0xFFFF_FFFF
  const U128_MAX: nat := 0xFFFF_FFFF_FFFF_FFFF_FFFF_FFFF_FFFF_FFFF

  datatype Option<+T> = None | Some(value: T) {
    /** `ok_or` / `map_err`: name the error a missing value turns into. */
    function OrErr<E>(error: E): Outcome<T, E> {
      match this
      case Some(v) => Ok(v)
      case None => Err(error)
    }
  }

  /** What a dispatchable answers. */
  datatype Outcome<+S, +E> = Ok(value: S) | Err(error: E) {
    predicate IsFailure() { Err? }

    function PropagateFailure<U>(): Outcome<U, E>
      requires Err?
    {
      Err(error)
    }

    function Extract(): S
      requires Ok?
    {
      value
    }
  }

  /** `ensure!(condition, error)`. */
  function Need<E>(condition: bool, error: E): Outcome<(), E> {
    if condition then Ok(()) else Err(error)
  }

  /** A call that ran in place did what its specification says: on success the
      storage is the specified one, on failure it is the storage before the call. */
  ghost predicate Atomic<S, E>(spec: Outcome<S, E>, before: S, after: S, answer: Outcome<(), E>) {
    match spec
    case Ok(s) => answer == Ok(()) && after == s
    case Err(e) => answer == Err(e) && after == before
  }

  function Min(a: nat, b: nat): nat { if a <= b then a else b }

  function SatSub(a: nat, b: nat): nat { if a <= b then 0 else a - b }

  /** Integer division of unsigned numbers. */
  function Quotient(a: nat, b: nat): nat
    requires b > 0
  {
    a / b
  }

  /** `saturating_add` and `saturating_mul` on `u128`. */
  function SatAdd(a: nat, b: nat): nat { Min(a + b, U128_MAX) }

  function SatMul(a: nat, b: nat): nat { Min(a * b, U128_MAX) }
}
