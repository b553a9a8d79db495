/** The limiter around the bucket: the script run by Redis, key expiry, and the waiting loop. */
module RateLimiter {
  import opened Records
  import opened TokenBucket

  const PAUSE: int := 10_000
  const PATIENCE: int := 5 * MICRO

  datatype Wake = Retry | Deadline | Cancelled

  /**
    One round of the waiting loop: requests that other workers made since the round before, the clock its own
    request reads, whether Redis fails, and when and why its pause ends.
  */
  datatype Round = Round(before: seq<int>, now: int, redisDown: bool, woke: int, wake: Wake)

  datatype WaitResult = Passed | FailedOpen | TimedOut | Aborted

  /** When round `i` can begin. */
  function From(start: int, rounds: seq<Round>, i: nat): int
    requires i <= |rounds|
  {
    if i == 0 then start else rounds[i - 1].woke
  }

  /** Requests one after the other on the clock, from one time until another. */
  predicate Climbs(from: int, times: seq<int>, until: int)
    decreases |times|
  {
    if times == [] then from <= until else from <= times[0] && Climbs(times[0], times[1..], until)
  }

  /** A retry comes after the pause, the deadline after five seconds. */
  predicate Timed(from: int, start: int, t: Round) {
    && Climbs(from, t.before, t.now) && t.now <= t.woke
    && (t.wake.Retry? ==> t.now + PAUSE <= t.woke)
    && (t.wake.Deadline? ==> start + PATIENCE <= t.woke)
  }

  /** Rounds that follow one another on the clock and end; the last pause is not followed by another round. */
  predicate Rounds(start: int, rounds: seq<Round>) {
    && rounds != [] && !rounds[|rounds| - 1].wake.Retry?
    && (forall i :: 0 <= i < |rounds| ==> Timed(From(start, rounds, i), start, rounds[i]))
  }

  /** The caller's requests are those of the rounds, one each, at their times. */
  ghost predicate AskedAt(times: seq<int>, mine: seq<nat>, rounds: seq<Round>) {
    |mine| <= |rounds| && forall k :: 0 <= k < |mine| ==> mine[k] < |times| && times[mine[k]] == rounds[k].now
  }

  /** The round that ended a wait, and what it had to do with the answer. */
  ghost predicate EndedBy(rounds: seq<Round>, r: WaitResult, asks: nat, last: nat) {
    && last < |rounds| && (forall i :: 0 <= i < last ==> !rounds[i].redisDown && rounds[i].wake == Retry)
    && asks == (if rounds[last].redisDown then last else last + 1)
    && (r == FailedOpen <==> rounds[last].redisDown)
    && (r == TimedOut ==> rounds[last].wake == Deadline) && (r == Aborted ==> rounds[last].wake.Cancelled?)
  }

  /** The waiting caller's own requests, by their place in the history: none granted but the last, if it passed. */
  ghost predicate Waited(rate: nat, earlier: seq<int>, times: seq<int>, mine: seq<nat>, passed: bool) {
    && earlier <= times && (passed ==> mine != [])
    && (forall k :: 0 <= k < |mine| ==> |earlier| <= mine[k] < |times|)
    && (forall k :: 0 <= k < |mine| ==> (Granted(rate, times, mine[k]) <==> passed && k == |mine| - 1))
    && (forall j, k :: 0 <= j < k < |mine| ==> mine[j] < mine[k] && times[mine[j]] + PAUSE <= times[mine[k]])
  }

  /** The stored hash is what the history of requests and expiries makes it. */
  ghost predicate Tracks(rate: nat, clock: int, times: seq<int>, drops: set<nat>, bucket: Option<Bucket>) {
    && Ascending(times)
    && (forall i :: 0 <= i < |times| ==> times[i] <= clock)
    && (forall i :: i in drops ==> i <= |times|)
    && (forall i :: i in drops && i < |times| ==> MayExpire(times, i))
    && (|times| in drops ==> times == [] || times[|times| - 1] + TTL <= clock)
    && bucket == if |times| in drops then None else ExpiringState(rate, times, drops, |times|)
  }

  lemma NextRequest(rate: nat, clock: int, times: seq<int>, drops: set<nat>, bucket: Option<Bucket>, now: int)
    requires Tracks(rate, clock, times, drops, bucket) && clock <= now
    ensures var all, b := times + [now], After(rate, bucket, now);
            && Tracks(rate, now, all, drops, Some(b))
            && (Allowed(rate, bucket, now) <==> Granted(rate, all, |times|))
            && (Allowed(rate, bucket, now) <==> HistoryAllows(rate, all, |times|))
            && 0 <= b.tokens <= rate * MICRO
  {
    var all, n := times + [now], |times|;
    PrefixState(rate, times, all, drops, n);
    assert Ascending(all);
    forall i | i in drops && i < |all| ensures MayExpire(all, i) {
      assert i < n ==> MayExpire(times, i);
    }
    ExpiryUnobservable(rate, all, drops, n);
    BucketRefinesHistory(rate, all, n);
    ExpiringStateSame(rate, all, drops, n + 1);
    TokensInRange(rate, all, n + 1);
  }

  class Limiter {
    const rate: nat
    var bucket: Option<Bucket>   // the Redis hash
    ghost var clock: int
    ghost var times: seq<int>    // every request the script has answered
    ghost var drops: set<nat>    // requests that found the key expired

    /** The hash tracks the history. (Quantified so that a proof unfolds the history only where it names it.) */
    ghost predicate Valid()
      reads this
    {
      forall ts :: ts == times ==> Tracks(rate, clock, ts, drops, bucket)
    }

    constructor (rate: nat, now: int)
      ensures Valid() && this.rate == rate && times == [] && clock == now && bucket == None
    {
      this.rate := rate;
      this.bucket := None;
      this.clock := now;
      this.times := [];
      this.drops := {};
    }

    /** Redis drops the key, TTL after it was last written. */
    method Expire(now: int)
      requires Valid() && clock <= now && (times != [] ==> times[|times| - 1] + TTL <= now)
      modifies this
      ensures Valid() && bucket == None && times == old(times) && clock == now
    {
      assert Tracks(rate, clock, times, drops, bucket);
      bucket := None;
      clock := now;
      drops := drops + {|times|};
    }

    /** The script: it grants exactly what the history of all requests allows, expired keys or not. */
    method Allow(now: int) returns (ok: bool)
      requires Valid() && clock <= now
      modifies this
      ensures Valid() && times == old(times) + [now] && clock == now
      ensures ok <==> HistoryAllows(rate, times, |times| - 1)
      ensures ok <==> Granted(rate, times, |times| - 1)
      ensures bucket.Some? && 0 <= bucket.value.tokens <= rate * MICRO && bucket.value.last == now
    {
      assert Tracks(rate, clock, times, drops, bucket);
      NextRequest(rate, clock, times, drops, bucket, now);
      var tokens, last := rate * MICRO, now;
      if bucket.Some? {
        tokens, last := bucket.value.tokens, bucket.value.last;
      }
      var elapsed := now - last;
      var refill := elapsed * rate;
      RefillIsProduct(rate, elapsed);
      RefillOfNothing(rate);
      tokens := Min(rate * MICRO, tokens + refill);
      ok := tokens >= MICRO;
      if ok {
        tokens := tokens - MICRO;
      }
      bucket := Some(Bucket(tokens, now));
      times := times + [now];
      clock := now;
    }

    /** Other workers' requests. */
    method Serve(requests: seq<int>, ghost until: int)
      requires Valid() && Climbs(clock, requests, until)
      modifies this
      ensures Valid() && times == old(times) + requests && clock <= until
    {
      for i := 0 to |requests|
        invariant Valid() && times == old(times) + requests[..i]
        invariant Climbs(clock, requests[i..], until)
      {
        assert requests[i..][0] == requests[i] && requests[i..][1..] == requests[i + 1..];
        var _ := Allow(requests[i]);
        assert requests[..i + 1] == requests[..i] + [requests[i]];
      }
      assert requests[..|requests|] == requests && requests[|requests|..] == [];
    }

    /** One request of the waiting loop, after whatever others asked since its last. */
    method Ask(t: Round, ghost from: int, ghost earlier: seq<int>, ghost mine: seq<nat>, ghost rounds: seq<Round>)
      returns (ok: bool, ghost all: seq<nat>)
      requires Valid() && clock <= from && Climbs(from, t.before, t.now)
      requires Waited(rate, earlier, times, mine, false)
      requires AskedAt(times, mine, rounds) && |mine| < |rounds| && rounds[|mine|] == t
      requires mine != [] ==> times[mine[|mine| - 1]] + PAUSE <= from
      modifies this
      ensures Valid() && clock <= t.now && from <= t.now
      ensures Waited(rate, earlier, times, all, ok) && (t.redisDown ==> !ok)
      ensures |all| == |mine| + One(!t.redisDown) && (!t.redisDown ==> times[all[|all| - 1]] == t.now)
      ensures AskedAt(times, all, rounds)
    {
      ClimbsUp(from, t.before, t.now);
      ghost var before := times;
      Serve(t.before, t.now);
      Unmoved(rate, earlier, before, times, mine);
      ok, all := false, mine;
      if !t.redisDown {
        before := times;
        ok := Allow(t.now);
        OneMore(rate, earlier, before, t.now, mine, ok);
        all := mine + [|before|];
      }
    }

    /**
      Waiting for a token, with other workers drawing on the same bucket: exactly one of the caller's requests is
      granted when it passes and none when it gives up; its requests are at least a pause apart, so there is one
      for each pause of the time spent at most; it times out no earlier than the deadline, and is let through
      without a token only when Redis fails.
    */
    method Wait(start: int, rounds: seq<Round>)
      returns (r: WaitResult, ended: int, asks: nat, last: nat, ghost mine: seq<nat>)
      requires Valid() && clock <= start && Rounds(start, rounds)
      modifies this
      ensures Valid() && clock <= ended && asks == |mine|
      ensures Waited(rate, old(times), times, mine, r == Passed)
      ensures forall k :: 0 <= k < |mine| ==> (Granted(rate, times, mine[k]) <==> r == Passed && k == |mine| - 1)
      ensures (|mine| - 1) * PAUSE <= ended - start
      ensures r == TimedOut ==> start + PATIENCE <= ended
      ensures r == TimedOut || r == Aborted ==> mine != []
      ensures last < |rounds| && forall i :: 0 <= i < last ==> !rounds[i].redisDown && rounds[i].wake == Retry
      ensures asks == if rounds[last].redisDown then last else last + 1
      ensures r == FailedOpen <==> rounds[last].redisDown
      ensures r == TimedOut ==> rounds[last].wake == Deadline && ended == rounds[last].woke
      ensures r == Aborted ==> rounds[last].wake.Cancelled? && ended == rounds[last].woke
      ensures AskedAt(times, mine, rounds)
    {
      mine, last := [], 0;
      while true
        invariant Valid() && Underway(rate, clock, old(times), times, mine, start, rounds, last)
        invariant forall j :: 0 <= j < last ==> !rounds[j].redisDown && rounds[j].wake == Retry
        decreases |rounds| - last
      {
        var end;
        end, ended, mine := OneRound(start, rounds, last, old(times), mine);
        if end.Some? {
          return end.value, ended, if end.value == FailedOpen then last else last + 1, last, mine;
        }
        last := last + 1;
      }
    }

    /** Ask once; unless that ends the wait, sit out the pause, which may end it too. */
    method OneRound(start: int, rounds: seq<Round>, i: nat, ghost earlier: seq<int>, ghost mine: seq<nat>)
      returns (end: Option<WaitResult>, ended: int, ghost all: seq<nat>)
      requires Valid() && Underway(rate, clock, earlier, times, mine, start, rounds, i)
      modifies this
      ensures Valid() && clock <= ended
      ensures end.None? ==>
                Underway(rate, clock, earlier, times, all, start, rounds, i + 1) && !rounds[i].redisDown && rounds[i].wake == Retry
      ensures end.Some? ==>
                && Waited(rate, earlier, times, all, end.value == Passed) && AskedAt(times, all, rounds)
                && |all| == (if rounds[i].redisDown then i else i + 1) && (|all| - 1) * PAUSE <= ended - start
                && (end.value == FailedOpen <==> rounds[i].redisDown)
                && (end.value == TimedOut ==>
                      rounds[i].wake == Deadline && ended == rounds[i].woke && start + PATIENCE <= ended)
                && (end.value == Aborted ==> rounds[i].wake.Cancelled? && ended == rounds[i].woke)
    {
      var t := rounds[i];
      assert Timed(From(start, rounds, i), start, t);
      var ok;
      ok, all := Ask(t, From(start, rounds, i), earlier, mine, rounds);
      if t.redisDown {
        return Some(FailedOpen), t.now, all;
      }
      if ok {
        return Some(Passed), t.now, all;
      }
      match t.wake
      case Retry => return None, t.woke, all;
      case Deadline => return Some(TimedOut), t.woke, all;
      case Cancelled => return Some(Aborted), t.woke, all;
    }
  }

  /** A wait that has been refused in all rounds before the `i`-th. */
  ghost predicate Underway(rate: nat, clock: int, earlier: seq<int>, times: seq<int>, mine: seq<nat>,
                           start: int, rounds: seq<Round>, i: nat)
  {
    && Rounds(start, rounds) && i < |rounds| && |mine| == i && clock <= From(start, rounds, i)
    && Waited(rate, earlier, times, mine, false) && AskedAt(times, mine, rounds)
    && (mine != [] ==> times[mine[i - 1]] + PAUSE <= From(start, rounds, i)) && i * PAUSE <= From(start, rounds, i) - start
  }

  lemma {:induction false} ClimbsUp(from: int, times: seq<int>, until: int)
    requires Climbs(from, times, until)
    ensures from <= until
    decreases |times|
  {
    if times != [] {
      ClimbsUp(times[0], times[1..], until);
    }
  }

  /** What others ask afterwards does not change what the caller got. */
  lemma Unmoved(rate: nat, earlier: seq<int>, before: seq<int>, times: seq<int>, mine: seq<nat>)
    requires Waited(rate, earlier, before, mine, false) && before <= times
    ensures Waited(rate, earlier, times, mine, false)
  {
    forall k | 0 <= k < |mine| ensures !Granted(rate, times, mine[k]) {
      PrefixState(rate, before, times, {}, mine[k]);
    }
  }

  lemma OneMore(rate: nat, earlier: seq<int>, before: seq<int>, now: int, mine: seq<nat>, ok: bool)
    requires Waited(rate, earlier, before, mine, false)
    requires mine != [] ==> before[mine[|mine| - 1]] + PAUSE <= now
    requires ok <==> Granted(rate, before + [now], |before|)
    ensures Waited(rate, earlier, before + [now], mine + [|before|], ok)
  {
    Unmoved(rate, earlier, before, before + [now], mine);
    assert forall j :: 0 <= j < |mine| - 1 ==> before[mine[j]] + PAUSE <= before[mine[|mine| - 1]];
  }
}
