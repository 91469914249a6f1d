/**
 * The Go building blocks the payment-session layer is written in: fixed-width
 * integers with Go's arithmetic, durations, identities and errors.
 */
module Base {

  const Int64Min: int := -0x8000_0000_0000_0000
  const Int64Max: int := 0x7fff_ffff_ffff_ffff
  const TwoTo64: int := 0x1_0000_0000_0000_0000

  /** Go's `int64`. */
  newtype int64 = x: int | -0x8000_0000_0000_0000 <= x < 0x8000_0000_0000_0000

  /** Go's `uint64`. */
  newtype uint64 = x: int | 0 <= x < 0x1_0000_0000_0000_0000

  /**
   * Go's `a + b` on `int64`: the exact sum when it fits, otherwise the sum
   * wrapped around modulo 2^64 (two's complement). Go neither traps nor
   * saturates on overflow.
   */
  function AddInt64(a: int64, b: int64): (r: int64)
    ensures Int64Min <= a as int + b as int <= Int64Max ==> r as int == a as int + b as int
    ensures (a as int + b as int - r as int) % TwoTo64 == 0
  {
    var s := a as int + b as int;
    if s > Int64Max then (s - TwoTo64) as int64
    else if s < Int64Min then (s + TwoTo64) as int64
    else s as int64
  }

  /** The two postconditions of AddInt64 determine its result: no other int64 is congruent to the sum. */
  lemma AddInt64Unique(a: int64, b: int64, r: int64)
    requires (a as int + b as int - r as int) % TwoTo64 == 0
    ensures r == AddInt64(a, b)
  {
  }

  /** A positive delta that overflows the signed range wraps to a negative amount. */
  lemma AddInt64OverflowIsNegative(a: int64, b: int64)
    requires a as int + b as int > Int64Max
    ensures AddInt64(a, b) < 0
  {
  }

  /** Go's `time.Duration`: a signed count of nanoseconds. */
  type Duration = int64

  /** Go's `time.Minute`. */
  const Minute: Duration := 60_000_000_000

  /** `identity.Identity`: a party of the network, known by its hex address. */
  datatype Identity = Identity(address: string)

  /**
   * A Go `error` value. `UnexpectedAmount` is the promise package's sentinel
   * error, created once and compared by identity: it equals no other error,
   * even one carrying the same message.
   */
  datatype Error = UnexpectedAmount | Error(message: string)
}
