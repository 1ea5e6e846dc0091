/** Small value types shared by the whole model: an optional value (C#'s
    nullable `T?` / `default`), unsigned 64-bit integers and DateTime ticks. */
module Primitives {

  /** `None` plays the part of C#'s `null` / `default` for reference types. */
  datatype Option<+T> = None | Some(value: T) {
    function GetOr(default: T): T {
      match this
      case Some(v) => v
      case None => default
    }
  }

  /** 2^64: the number of values of C#'s `ulong`. */
  const U64_MODULUS: int := 0x1_0000_0000_0000_0000

  /** C#'s `ulong`: user ids, message ids, role ids and the money balance. */
  type U64 = x: int | 0 <= x < U64_MODULUS

  /** `a + b` as C# computes it on `ulong` in an unchecked context: modulo 2^64. */
  function WrapAdd(a: U64, b: U64): (r: U64)
    ensures a + b < U64_MODULUS ==> r == a + b
    ensures a + b >= U64_MODULUS ==> r == a + b - U64_MODULUS && r < a
  {
    (a + b) % U64_MODULUS
  }

  /** Ticks of `DateTime.MaxValue` (23:59:59.9999999, 31 December 9999). */
  const MAX_TICKS: int := 3155378975999999999

  /** A `DateTime` as its number of 100-nanosecond ticks since 0001-01-01;
      `DateTime.MinValue` is tick 0. */
  type Ticks = t: int | 0 <= t <= MAX_TICKS

  /** `DateTime.MinValue`, the sentinel for "never". */
  const MIN_TICKS: Ticks := 0

  /** `TimeSpan.TicksPerHour`. */
  const TICKS_PER_HOUR: int := 36_000_000_000
}
