/** Failure-carrying values shared by every module, and Go's nil-able slices. */
module Wrappers {

  datatype Option<+T> = None | Some(value: T)

  /** The `(value, error)` pair a Go function returns: exactly one side is meaningful. */
  datatype Result<+T> = Ok(value: T) | Err(msg: string) {
    predicate IsFailure() { Err? }
    function PropagateFailure<U>(): Result<U> requires Err? { Err(msg) }
    function Extract(): T requires Ok? { value }
  }

  /** A bare Go `error`: `Pass` is `nil`. */
  datatype Outcome = Pass | Fail(msg: string)

  /** A Go slice. `Nil` is the nil slice, `Made(items)` a non-nil one, possibly empty.
      Only the caches tell the two apart (a nil slot means "not fetched yet");
      everywhere else a slice is just its items. */
  datatype Slice<+T> = Nil | Made(items: seq<T>) {
    function Items(): seq<T> {
      if Nil? then [] else items
    }
  }

  /** Decimal rendering of a length, as Go's `%d` prints it. */
  function NatToString(n: nat): string {
    if n < 10 then [DigitChar(n)] else NatToString(n / 10) + [DigitChar(n % 10)]
  }

  function DigitChar(d: nat): char
    requires d < 10
  {
    "0123456789"[d]
  }
}
