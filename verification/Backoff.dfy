/** The retry delay, in the 64-bit nanosecond arithmetic the worker computes it with. */
module Backoff {
  import opened Records

  const CAP: int := 30 * SECOND
  const JITTER: int := 500_000_000

  const TWO_63: int := 0x8000_0000_0000_0000
  const TWO_64: int := 0x1_0000_0000_0000_0000

  function Pow2(n: nat): nat {
    if n == 0 then 1 else 2 * Pow2(n - 1)
  }

  /** Two's-complement truncation to a signed 64-bit integer. */
  function Wrap64(x: int): (r: int)
    ensures -0x8000_0000_0000_0000 <= r < 0x8000_0000_0000_0000 && (x - r) % 0x1_0000_0000_0000_0000 == 0
  {
    var m := x % TWO_64;
    if m >= TWO_63 then m - TWO_64 else m
  }

  /** The delay before retry number `attempt`, for one draw of the jitter, with every overflow kept. */
  function Delay(attempt: nat, jitter: nat): int {
    Min(CAP, Wrap64(SECOND * Wrap64(Pow2(attempt)))) + jitter
  }

  /** The delay as documented, before jitter: one second doubled per attempt, at most thirty. */
  function Base(attempt: nat): nat {
    if attempt < 5 then Pow2(attempt) * SECOND else CAP
  }

  /** The delay lands where the documentation puts it, whatever the jitter. */
  ghost predicate AsDocumented(attempt: nat) {
    forall jitter: nat :: jitter < JITTER ==> Base(attempt) <= Delay(attempt, jitter) < Base(attempt) + JITTER
  }

  method CalculateBackoff(attempt: nat, jitter: nat) returns (delay: int)
    requires jitter < 500_000_000
    ensures delay == Delay(attempt, jitter)
    ensures attempt <= 33 ==> delay == (if attempt < 5 then Pow2(attempt) else 30) * 1_000_000_000 + jitter
  {
    var base := SECOND;
    var backoff := Wrap64(base * Wrap64(Pow2(attempt)));
    var maxBackoff := 30 * SECOND;
    if backoff > maxBackoff {
      backoff := maxBackoff;
    }
    delay := backoff + jitter;
    if attempt <= 33 {
      DelayAsDocumented(attempt);
    }
  }

  lemma {:induction false} Pow2Monotone(a: nat, b: nat)
    requires a <= b
    ensures Pow2(a) <= Pow2(b)
    decreases b
  {
    if a < b {
      Pow2Monotone(a, b - 1);
    }
  }

  lemma Pow2Of33()
    ensures Pow2(33) == 8_589_934_592
  {
    assert Pow2(11) == 2048 && Pow2(22) == 4_194_304;
  }

  lemma WrapKeeps(x: int)
    requires -TWO_63 <= x < TWO_63
    ensures Wrap64(x) == x
  {
  }

  /** Up to attempt 33 the 64-bit product does not overflow. */
  lemma DelayAsDocumented(attempt: nat)
    requires attempt <= 33
    ensures AsDocumented(attempt)
    ensures forall jitter: nat :: Delay(attempt, jitter) == (if attempt < 5 then Pow2(attempt) else 30) * 1_000_000_000 + jitter
  {
    Pow2Monotone(attempt, 33);
    Pow2Of33();
    WrapKeeps(Pow2(attempt));
    WrapKeeps(SECOND * Pow2(attempt));
    if attempt < 5 {
      Pow2Monotone(attempt, 4);
      assert Pow2(4) == 16;
    } else {
      Pow2Monotone(5, attempt);
      assert Pow2(5) == 32;
    }
  }

  /** At attempt 34 the product wraps to a negative number and the retry is not delayed at all. */
  lemma Attempt34Overflows()
    ensures Delay(34, 0) < 0
    ensures !AsDocumented(34)
  {
    assert Pow2(11) == 2048 && Pow2(22) == 4_194_304 && Pow2(34) == 17_179_869_184;
  }

  /** Every attempt a worker can ask for is delayed as documented exactly when the limit is at most 34. */
  lemma DocumentedIffLimit(maxRetries: int)
    ensures (forall attempt: nat :: attempt < maxRetries ==> AsDocumented(attempt)) <==> maxRetries <= 34
  {
    if maxRetries <= 34 {
      forall attempt: nat | attempt < maxRetries ensures AsDocumented(attempt) {
        DelayAsDocumented(attempt);
      }
    } else {
      Attempt34Overflows();
    }
  }

  /** The least time that the first `k` backoffs take together. */
  function TotalBase(k: nat): nat {
    if k == 0 then 0 else TotalBase(k - 1) + Base(k - 1)
  }

  lemma {:induction false} TotalBaseClosedForm(k: nat)
    ensures TotalBase(k) == if k <= 5 then (Pow2(k) - 1) * SECOND else (31 + 30 * (k - 5)) * SECOND
  {
    if k > 0 {
      TotalBaseClosedForm(k - 1);
    }
  }
}
