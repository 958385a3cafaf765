/** Values shared by the whole model: optional values, results, bytes and Go's 64-bit integers. */
module Common {

  /** One byte of a response body. */
  newtype byte = x: int | 0 <= x < 256

  /** A Go value that may be nil: a `[]byte` before the first fetch, say. */
  datatype Option<+T> = None | Some(value: T)

  /** A value, or the error the Go code reports (or panics with) instead. */
  datatype Result<+T, +E> = Success(value: T) | Failure(error: E)

  const TwoTo63: int := 0x8000_0000_0000_0000
  const TwoTo64: int := 0x1_0000_0000_0000_0000

  /** Values of Go's `int64`, which is also the representation of `time.Duration`. */
  predicate IsInt64(x: int) {
    -TwoTo63 <= x < TwoTo63
  }

  /** The int64 that Go stores when an arithmetic result `x` does not fit: two's complement wrap-around. */
  function WrapInt64(x: int): (r: int)
    ensures IsInt64(r)
    ensures (x - r) % TwoTo64 == 0
    ensures IsInt64(x) ==> r == x
  {
    (x + TwoTo63) % TwoTo64 - TwoTo63
  }
}
