/**
 * Java's fixed-width integer arithmetic as the metrics classes use it:
 * `int` and `long` sums wrap around modulo 2^32 and 2^64, and `/` on
 * integers rounds toward zero. Also the `AtomicInteger` counter idiom the
 * metrics classes share: `incrementAndGet`, and a getter that reads the
 * value and sets it back to 0.
 */
module JavaInt {
  import opened LongCodec

  const MinInt: int := -0x8000_0000
  const MaxInt: int := 0x7FFF_FFFF
  const TwoTo32: int := 0x1_0000_0000

  predicate IsInt(x: int) {
    MinInt <= x <= MaxInt
  }

  /** The 32-bit `int` an exact result `x` is stored as: the one in range that differs from `x` by a multiple of 2^32. */
  function WrapInt(x: int): (r: int)
    ensures IsInt(r) && (x - r) % TwoTo32 == 0
    ensures IsInt(x) ==> r == x
  {
    (x - MinInt) % TwoTo32 + MinInt
  }

  /** The 64-bit `long` an exact result `x` is stored as. */
  function WrapLong(x: int): (r: int)
    ensures IsLong(r) && (x - r) % TwoTo64 == 0
    ensures IsLong(x) ==> r == x
  {
    (x - MinLong) % TwoTo64 + MinLong
  }

  /** Java's integer `/` by a positive divisor: the exact quotient rounded toward zero. */
  function Quot(a: int, b: int): (q: int)
    requires b > 0
    ensures 0 <= a ==> 0 <= q && q * b <= a < q * b + b
    ensures a < 0 ==> q <= 0 && q * b - b < a <= q * b
  {
    if a >= 0 then a / b else -((-a) / b)
  }

  /** Rounding toward zero, not down: -7 / 2 is -3 in Java. */
  lemma QuotTowardZero()
    ensures Quot(-7, 2) == -3 && Quot(7, 2) == 3
  {
  }

  /** `incrementAndGet` on an `AtomicInteger` (and `++` on an `int`). */
  function Bump(c: int): (r: int)
    ensures IsInt(r)
    ensures c < MaxInt ==> IsInt(c) ==> r == c + 1
    ensures c == MaxInt ==> r == MinInt
  {
    WrapInt(c + 1)
  }

  /** The counter after `n` increments. */
  function BumpTimes(c: int, n: nat): int {
    if n == 0 then c else Bump(BumpTimes(c, n - 1))
  }

  /** Increments that stay in range simply add up. */
  lemma {:induction false} BumpTimesAdds(c: int, n: nat)
    requires IsInt(c) && c + n <= MaxInt
    ensures BumpTimes(c, n) == c + n
  {
    if n > 0 {
      BumpTimesAdds(c, n - 1);
    }
  }

  /**
   * The read-and-reset getter shared by every counter: the value read, and
   * the counter afterwards.
   */
  function Take(c: int): (int, int) {
    (c, 0)
  }

  /** `n` increments from a reset counter are read back as `n`, and a second read gives 0. */
  lemma IncrementsThenRead(n: nat)
    requires n <= MaxInt
    ensures Take(BumpTimes(0, n)).0 == n
    ensures Take(Take(BumpTimes(0, n)).1).0 == 0
  {
    BumpTimesAdds(0, n);
  }
}
