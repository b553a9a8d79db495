/**
  The Redis token bucket. Time is in microseconds and tokens are counted in millionths, so that the refill
  `elapsed * rate` is exact: one token is MICRO, a full bucket is rate * MICRO, and a microsecond refills `rate`.
*/
module TokenBucket {
  import opened Records

  const MICRO: int := 1_000_000
  const TTL: int := 2 * MICRO

  /** The stored hash, absent before the first request and after the key expired. */
  datatype Bucket = Bucket(tokens: int, last: int)

  /** Micro-tokens that flow in over `elapsed` microseconds: `elapsed` for each unit of `rate`. */
  function Refill(rate: nat, elapsed: int): int {
    if rate == 0 then 0 else Refill(rate - 1, elapsed) + elapsed
  }

  lemma {:induction false} RefillIsProduct(rate: nat, elapsed: int)
    ensures Refill(rate, elapsed) == elapsed * rate
  {
    if rate > 0 {
      RefillIsProduct(rate - 1, elapsed);
      assert elapsed * rate == elapsed * (rate - 1) + elapsed;
    }
  }

  lemma {:induction false} RefillAdds(rate: nat, a: int, b: int)
    ensures Refill(rate, a + b) == Refill(rate, a) + Refill(rate, b)
  {
    if rate > 0 {
      RefillAdds(rate - 1, a, b);
    }
  }

  lemma {:induction false} RefillGrows(rate: nat, a: int, b: int)
    requires a <= b
    ensures Refill(rate, a) <= Refill(rate, b)
  {
    if rate > 0 {
      RefillGrows(rate - 1, a, b);
    }
  }

  lemma {:induction false} RefillOfNothing(rate: nat)
    ensures Refill(rate, 0) == 0
  {
    if rate > 0 {
      RefillOfNothing(rate - 1);
    }
  }

  /** One second refills the whole bucket. */
  lemma {:induction false} RefillOfSecond(rate: nat)
    ensures Refill(rate, MICRO) == rate * MICRO
  {
    if rate > 0 {
      RefillOfSecond(rate - 1);
    }
  }

  /** Tokens available to a request at `now`, after refill. */
  function Available(rate: nat, b: Option<Bucket>, now: int): int {
    if b.None? then rate * MICRO
    else Min(rate * MICRO, b.value.tokens + Refill(rate, now - b.value.last))
  }

  function Allowed(rate: nat, b: Option<Bucket>, now: int): bool {
    Available(rate, b, now) >= MICRO
  }

  /** The hash that the script leaves behind. */
  function After(rate: nat, b: Option<Bucket>, now: int): Bucket {
    var t := Available(rate, b, now);
    Bucket(if t >= MICRO then t - MICRO else t, now)
  }

  /** The bucket after the first `n` requests, from an absent key that never expires. */
  function State(rate: nat, times: seq<int>, n: nat): Option<Bucket>
    requires n <= |times|
  {
    if n == 0 then None else Some(After(rate, State(rate, times, n - 1), times[n - 1]))
  }

  predicate Granted(rate: nat, times: seq<int>, n: nat)
    requires n < |times|
  {
    Allowed(rate, State(rate, times, n), times[n])
  }

  /** Grants among the requests lo .. hi-1. */
  function Grants(rate: nat, times: seq<int>, lo: nat, hi: nat): nat
    requires lo <= hi <= |times|
  {
    if lo == hi then 0
    else Grants(rate, times, lo, hi - 1) + (if Granted(rate, times, hi - 1) then 1 else 0)
  }

  // ---- The constant-space bucket is a summary of the whole history

  /** What request `n` may still draw if only the requests from `i` on had happened on a full bucket. */
  function Allowance(rate: nat, times: seq<int>, i: nat, n: nat): int
    requires i <= n < |times|
  {
    rate * MICRO + Refill(rate, times[n] - times[i]) - MICRO * Grants(rate, times, i, n)
  }

  lemma {:induction false} AvailableIsLeastAllowance(rate: nat, times: seq<int>, n: nat) returns (least: nat)
    requires Ascending(times) && n < |times|
    ensures least <= n && Available(rate, State(rate, times, n), times[n]) == Allowance(rate, times, least, n)
    ensures forall i :: 0 <= i <= n ==> Available(rate, State(rate, times, n), times[n]) <= Allowance(rate, times, i, n)
  {
    if n == 0 {
      RefillOfNothing(rate);
      least := 0;
    } else {
      var m := n - 1;
      var before := AvailableIsLeastAllowance(rate, times, m);
      RefillOfNothing(rate);
      forall i | 0 <= i <= m
        ensures Allowance(rate, times, i, n) ==
                Allowance(rate, times, i, m) + Refill(rate, times[n] - times[m])
                - (if Granted(rate, times, m) then MICRO else 0)
      {
        RefillAdds(rate, times[m] - times[i], times[n] - times[m]);
      }
      least := if Available(rate, State(rate, times, n), times[n]) == rate * MICRO then n else before;
    }
  }

  /** The history rule: over every window that ends with this request, one more grant must fit burst plus refill. */
  ghost predicate HistoryAllows(rate: nat, times: seq<int>, n: nat)
    requires n < |times|
  {
    forall i :: 0 <= i <= n ==> MICRO * (Grants(rate, times, i, n) + 1) <= rate * MICRO + Refill(rate, times[n] - times[i])
  }

  lemma BucketRefinesHistory(rate: nat, times: seq<int>, n: nat)
    requires Ascending(times) && n < |times|
    ensures Granted(rate, times, n) <==> HistoryAllows(rate, times, n)
  {
    var least := AvailableIsLeastAllowance(rate, times, n);
    if HistoryAllows(rate, times, n) {
      assert MICRO * (Grants(rate, times, least, n) + 1) <= rate * MICRO + Refill(rate, times[n] - times[least]);
    } else {
      var i :| 0 <= i <= n && MICRO * (Grants(rate, times, i, n) + 1) > rate * MICRO + Refill(rate, times[n] - times[i]);
      assert Allowance(rate, times, i, n) < MICRO;
    }
  }

  /** Any stretch of requests sees at most the burst plus what refills over its length. */
  lemma {:induction false} WindowBound(rate: nat, times: seq<int>, lo: nat, hi: nat)
    requires Ascending(times) && lo < hi <= |times|
    ensures MICRO * Grants(rate, times, lo, hi) <= rate * MICRO + Refill(rate, times[hi - 1] - times[lo])
    decreases hi
  {
    if Granted(rate, times, hi - 1) {
      BucketRefinesHistory(rate, times, hi - 1);
      assert MICRO * (Grants(rate, times, lo, hi - 1) + 1) <= rate * MICRO + Refill(rate, times[hi - 1] - times[lo]);
    } else if lo + 1 < hi {
      WindowBound(rate, times, lo, hi - 1);
      assert Grants(rate, times, lo, hi) == Grants(rate, times, lo, hi - 1);
      assert times[hi - 2] - times[lo] <= times[hi - 1] - times[lo];
      RefillGrows(rate, times[hi - 2] - times[lo], times[hi - 1] - times[lo]);
    } else {
      RefillOfNothing(rate);
      assert Grants(rate, times, lo, lo) == 0 && times[hi - 1] - times[lo] == 0;
    }
  }

  function Repeat(n: nat, at: int): (s: seq<int>)
    ensures |s| == n && forall i :: 0 <= i < n ==> s[i] == at
  {
    if n == 0 then [] else Repeat(n - 1, at) + [at]
  }

  /** As many requests as the rate allows per second, at once, and as many again one second later. */
  function Burst(rate: nat): seq<int> {
    Repeat(rate, 0) + Repeat(rate, MICRO)
  }

  lemma {:induction false} BurstState(rate: nat, k: nat)
    requires 0 < k <= 2 * rate
    ensures Granted(rate, Burst(rate), k - 1)
    ensures State(rate, Burst(rate), k) ==
            Some(if k <= rate then Bucket((rate - k) * MICRO, 0) else Bucket((2 * rate - k) * MICRO, MICRO))
  {
    if k > 1 {
      BurstState(rate, k - 1);
      RefillOfNothing(rate);
      RefillOfSecond(rate);
    }
  }

  lemma {:induction false} BurstGranted(rate: nat, k: nat)
    requires k <= 2 * rate
    ensures Grants(rate, Burst(rate), 0, k) == k
  {
    if k > 0 {
      BurstState(rate, k);
      BurstGranted(rate, k - 1);
    }
  }

  /** The bound is met: whatever the rate, a window of one second can see twice the configured messages per second. */
  lemma WindowBoundIsTight(rate: nat)
    ensures var times := Burst(rate);
            && Ascending(times) && |times| == 2 * rate && (forall i :: 0 <= i < |times| ==> 0 <= times[i] <= MICRO)
            && Grants(rate, times, 0, |times|) == 2 * rate
  {
    BurstGranted(rate, 2 * rate);
  }

  // ---- Expiry

  /** Tokens never leave [0, rate]. */
  lemma {:induction false} TokensInRange(rate: nat, times: seq<int>, n: nat)
    requires Ascending(times) && n <= |times|
    ensures var b := State(rate, times, n); b.Some? ==> 0 <= b.value.tokens <= rate * MICRO && b.value.last == times[n - 1]
  {
    if n > 0 {
      TokensInRange(rate, times, n - 1);
      if n >= 2 {
        RefillOfNothing(rate);
        RefillGrows(rate, 0, times[n - 1] - times[n - 2]);
      }
    }
  }

  /** Redis may drop the key before request `n` once TTL has passed since it was last written. */
  predicate MayExpire(times: seq<int>, n: nat)
    requires n < |times|
  {
    n == 0 || times[n - 1] + TTL <= times[n]
  }

  /** The bucket before request `n` when the key is dropped before every request in `drops`. */
  function ExpiringState(rate: nat, times: seq<int>, drops: set<nat>, n: nat): Option<Bucket>
    requires n <= |times|
  {
    if n == 0 then None
    else
      var b := ExpiringState(rate, times, drops, n - 1);
      Some(After(rate, if n - 1 in drops then None else b, times[n - 1]))
  }

  predicate ExpiringGrant(rate: nat, times: seq<int>, drops: set<nat>, n: nat)
    requires n < |times|
  {
    Allowed(rate, if n in drops then None else ExpiringState(rate, times, drops, n), times[n])
  }

  /** After TTL a bucket is full again, so an absent key answers the same. */
  lemma FullAfterTtl(rate: nat, times: seq<int>, n: nat)
    requires Ascending(times) && 0 < n < |times| && MayExpire(times, n)
    ensures Available(rate, State(rate, times, n), times[n]) == rate * MICRO
    ensures times[n] >= times[n - 1] + 2_000_000
  {
    TokensInRange(rate, times, n);
    RefillOfSecond(rate);
    RefillGrows(rate, MICRO, times[n] - times[n - 1]);
  }

  lemma {:induction false} ExpiringStateSame(rate: nat, times: seq<int>, drops: set<nat>, n: nat)
    requires Ascending(times) && n <= |times|
    requires forall i :: i in drops && i < |times| ==> MayExpire(times, i)
    ensures ExpiringState(rate, times, drops, n) == State(rate, times, n)
  {
    if n > 0 {
      ExpiringStateSame(rate, times, drops, n - 1);
      if n - 1 in drops && n > 1 {
        FullAfterTtl(rate, times, n - 1);
      }
    }
  }

  /** Whatever expires, every request is answered as if nothing ever did. */
  lemma ExpiryUnobservable(rate: nat, times: seq<int>, drops: set<nat>, n: nat)
    requires Ascending(times) && n < |times|
    requires forall i :: i in drops && i < |times| ==> MayExpire(times, i)
    ensures ExpiringGrant(rate, times, drops, n) == Granted(rate, times, n)
  {
    ExpiringStateSame(rate, times, drops, n);
    if n in drops && n > 0 {
      FullAfterTtl(rate, times, n);
    }
  }

  /** Later requests do not change what earlier ones left behind. */
  lemma {:induction false} PrefixState(rate: nat, times: seq<int>, all: seq<int>, drops: set<nat>, n: nat)
    requires n <= |times| && times <= all
    ensures State(rate, all, n) == State(rate, times, n)
    ensures ExpiringState(rate, all, drops, n) == ExpiringState(rate, times, drops, n)
  {
    if n > 0 {
      PrefixState(rate, times, all, drops, n - 1);
    }
  }
}
