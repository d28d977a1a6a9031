/** What every contract of the repository takes from the chain it runs on: addresses, block
    data, the width of its integers, and entry points that either abort or commit. */
module Chain {
  type Addr = string

  /** Width of `Uint128`; its `+`, `-` and `*` abort outside this range. */
  const U128_MAX: nat := 0xFFFF_FFFF_FFFF_FFFF_FFFF_FFFF_FFFF_FFFF

  /** Width of the `u64` inside a `Timestamp`. */
  const U64_MAX: nat := 0xFFFF_FFFF_FFFF_FFFF

  const NANOS: nat := 1_000_000_000

  datatype Block = Block(height: nat, time: nat)

  datatype Option<+T> = None | Some(value: T)

  /** Outcome of an entry point: `Err` means that the host rolls the storage back. */
  datatype Result<+T, +E> = Ok(value: T) | Err(error: E) {
    predicate IsFailure() { Err? }

    function PropagateFailure<U>(): Result<U, E>
      requires Err?
    {
      Err(error)
    }

    function Extract(): T
      requires Ok?
    {
      value
    }
  }

  /** A check that yields its error when it fails. */
  datatype Check<+E> = Pass | Fail(error: E) {
    predicate IsFailure() { Fail? }

    function PropagateFailure<U>(): Result<U, E>
      requires Fail?
    {
      Err(error)
    }
  }

  function Require<E>(condition: bool, error: E): Check<E> {
    if condition then Pass else Fail(error)
  }

  predicate Distinct<T(==)>(s: seq<T>) {
    forall i, j :: 0 <= i < j < |s| ==> s[i] != s[j]
  }

  predicate Fits(n: int) { 0 <= n <= U128_MAX }

  /** The value stored under a key, or the type's default. */
  function Get<K, V>(m: map<K, V>, k: K, default: V): V {
    if k in m then m[k] else default
  }

  /** Division rounded down, with what rounding down means. */
  function Floor(a: nat, b: nat): (q: nat)
    requires b > 0
    ensures q * b <= a < q * b + b
  {
    a / b
  }

  /** `checked_mul(..).unwrap_or_default()`: a product that is too wide becomes 0. */
  function MulOrZero(a: nat, b: nat): nat {
    if Fits(a * b) then a * b else 0
  }

  /** `checked_div(..).unwrap_or_default()`: a division by zero becomes 0. */
  function DivOrZero(a: nat, b: nat): nat {
    if b == 0 then 0 else Floor(a, b)
  }
}
