/**
 * The retry delay the dispatch worker waits after a failed upload:
 * `min(max(2^failures * 60000, retryAfter), 600000)` milliseconds, where
 * `retryAfter` is the last Retry-After hint converted to milliseconds.
 *
 * `NextDelay` and `HintMillis` are the delay computed over exact integers,
 * which the worker uses.  `DelayAsWritten` and `HintMillisAsWritten` keep
 * Java's `long` and `int` arithmetic, whose overflow the lemmas at the end
 * exhibit.
 */
module Backoff {
  import opened JavaInt

  const BASE_DELAY: int := 60 * 1000
  const MAX_DELAY: int := 10 * 60 * 1000

  function Pow2(n: nat): (p: nat)
    ensures p >= 1
  {
    if n == 0 then 1 else 2 * Pow2(n - 1)
  }

  /** Delay after the `failures`-th consecutive failure, given the stored hint. */
  function NextDelay(failures: nat, retryAfter: int): (d: int)
    ensures d <= MAX_DELAY
    ensures d >= Min(BASE_DELAY, MAX_DELAY)
    ensures d >= Min(retryAfter, MAX_DELAY)
    ensures d == MAX_DELAY || (d >= Pow2(failures) * BASE_DELAY && d >= retryAfter)
    ensures d == MAX_DELAY || d == Pow2(failures) * BASE_DELAY || d == retryAfter
  {
    Min(Max(Pow2(failures) * BASE_DELAY, retryAfter), MAX_DELAY)
  }

  /** The stored hint after a 503 response: Retry-After seconds in milliseconds. */
  function HintMillis(seconds: int): int
  {
    seconds * 1000
  }

  /** The exponential part doubles with every further failure until the cap. */
  lemma {:induction false} NextDelayMonotone(failures: nat, retryAfter: int)
    ensures NextDelay(failures, retryAfter) <= NextDelay(failures + 1, retryAfter)
  {
    assert Pow2(failures + 1) == 2 * Pow2(failures);
  }

  /** From the fourth failure on (2^4 minutes > 10 minutes) every delay is the cap. */
  lemma {:induction false} NextDelayCapped(failures: nat, retryAfter: int)
    requires failures >= 4
    ensures NextDelay(failures, retryAfter) == MAX_DELAY
  {
    Pow2AtLeast(failures, 4);
  }

  lemma {:induction false} Pow2AtLeast(n: nat, k: nat)
    requires n >= k
    ensures Pow2(n) >= Pow2(k)
  {
    if n > k {
      Pow2AtLeast(n - 1, k);
    }
  }

  // ---------------------------------------------------------------------
  // The same computation in Java's fixed-width arithmetic

  /** `(long) Math.pow(2, n)`: exact up to 2^62, saturated to `Long.MAX_VALUE` from 2^63 on. */
  function PowAsLong(n: nat): (p: int)
    ensures IsLong(p)
  {
    if n >= 63 then LONG_MAX
    else
      Pow2AtMost62(n);
      Pow2(n)
  }

  lemma Pow2AtMost62(n: nat)
    requires n <= 62
    ensures Pow2(n) <= 0x4000_0000_0000_0000
  {
    Pow2AtLeast(62, n);
    Pow2Value48();
    assert Pow2(56) == 0x100_0000_0000_0000;
    assert Pow2(62) == 0x4000_0000_0000_0000;
  }

  /** The delay as the `long` expression computes it: the product wraps before the cap applies. */
  function DelayAsWritten(failures: nat, retryAfter: int): (d: int)
    ensures d <= MAX_DELAY
  {
    Min(Max(WrapLong(PowAsLong(failures) * BASE_DELAY), retryAfter), MAX_DELAY)
  }

  /** `getRetryAfter() * 1000` is an `int` product, so it wraps before widening to `long`. */
  function HintMillisAsWritten(seconds: int): (ms: int)
    ensures IsInt(ms)
  {
    WrapInt(seconds * 1000)
  }

  /** Both forms agree for the first 47 failures and any hint. */
  lemma {:induction false} DelayAsWrittenAgreesEarly(failures: nat, retryAfter: int)
    requires failures <= 47
    ensures DelayAsWritten(failures, retryAfter) == NextDelay(failures, retryAfter)
  {
    Pow2Bound(failures);
  }

  lemma Pow2Bound(n: nat)
    requires n <= 47
    ensures Pow2(n) <= 0x8000_0000_0000
  {
    Pow2AtLeast(47, n);
    Pow2Value48();
  }

  /**
   * At the 49th consecutive failure (48 earlier ones counted) the product
   * 2^48 * 60000 overflows to a negative `long`.  The stored delay then
   * decides: it is normally the previous delay, the ten-minute cap, which
   * hides the overflow; but when that failure is a 503 whose Retry-After is
   * missing, zero or unparsable, the stored hint is 0 and the delay
   * collapses to 0 instead of ten minutes: the retry fires at once.
   * `Messages.ZeroDelayAfter48Timeouts` reaches that state.
   */
  lemma DelayWrapsAt48()
    ensures DelayAsWritten(48, 0) == 0
    ensures NextDelay(48, 0) == MAX_DELAY
    ensures DelayAsWritten(48, MAX_DELAY) == MAX_DELAY
  {
    assert Pow2(48) == 0x1_0000_0000_0000 by {
      Pow2Value48();
    }
    NextDelayCapped(48, 0);
  }

  lemma Pow2Value48()
    ensures Pow2(48) == 0x1_0000_0000_0000
  {
    assert Pow2(8) == 256;
    assert Pow2(16) == 65536;
    assert Pow2(24) == 0x100_0000;
    assert Pow2(32) == 0x1_0000_0000;
    assert Pow2(40) == 0x100_0000_0000;
  }

  /**
   * A Retry-After of 4294968 seconds becomes 704 ms in `int` arithmetic,
   * so the first retry waits one minute instead of the ten-minute cap.
   */
  lemma HintWraps()
    ensures HintMillisAsWritten(4294968) == 704
    ensures NextDelay(0, HintMillisAsWritten(4294968)) == BASE_DELAY
    ensures NextDelay(0, HintMillis(4294968)) == MAX_DELAY
  {
  }
}
