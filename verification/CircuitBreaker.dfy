/** The three-state circuit breaker: counters over a tumbling window, as a fold over the calls made to it. */
module CircuitBreaker {
  import opened Records

  const MIN_SAMPLES: nat := 10
  const TIMEOUT: int := 30 * SECOND
  const WINDOW: int := 60 * SECOND

  datatype State = Closed | Open | HalfOpen

  datatype Breaker = Breaker(
    state: State,
    failures: nat,
    successes: nat,
    total: nat,
    lastFailure: Option<Time>,   // None is Go's zero time
    windowStart: Time)

  datatype Op = AllowAt(at: Time) | SuccessAt(at: Time) | FailureAt(at: Time)

  function New(now: Time): Breaker {
    Breaker(Closed, 0, 0, 0, None, now)
  }

  function Reset(b: Breaker, now: Time): Breaker {
    b.(failures := 0, successes := 0, total := 0, windowStart := now)
  }

  predicate TimeoutPassed(b: Breaker, now: Time) {
    b.lastFailure.None? || now - b.lastFailure.value > TIMEOUT
  }

  /** The answer of Allow. */
  predicate Admits(b: Breaker, now: Time) {
    b.state == Closed || (b.state == Open && TimeoutPassed(b, now))
  }

  function Step(b: Breaker, op: Op): Breaker {
    match op
    case AllowAt(now) =>
      var c := if now - b.windowStart > WINDOW then Reset(b, now) else b;
      if b.state == Open && TimeoutPassed(b, now) then c.(state := HalfOpen) else c
    case SuccessAt(now) =>
      var c := b.(successes := b.successes + 1, total := b.total + 1);
      if b.state == HalfOpen then Reset(c, now).(state := Closed) else c
    case FailureAt(now) =>
      var c := b.(failures := b.failures + 1, total := b.total + 1, lastFailure := Some(now));
      if b.state == HalfOpen then c.(state := Open)
      else if b.state == Closed && c.total >= MIN_SAMPLES && 2 * c.failures > c.total then c.(state := Open)
      else c
  }

  function Fold(b: Breaker, ops: seq<Op>): Breaker {
    if ops == [] then b else Step(Fold(b, ops[..|ops| - 1]), ops[|ops| - 1])
  }

  lemma FoldAppend(b: Breaker, ops: seq<Op>, op: Op)
    ensures Fold(b, ops + [op]) == Step(Fold(b, ops), op)
  {
    assert (ops + [op])[..|ops + [op]| - 1] == ops;
  }

  // ---- The counters are the records since the last reset

  /** Whether this call starts a new window. */
  predicate Resets(b: Breaker, op: Op) {
    (op.AllowAt? && op.at - b.windowStart > WINDOW) || (op.SuccessAt? && b.state == HalfOpen)
  }

  /** How many of the calls lie before the present window. */
  function WindowFrom(start: Breaker, ops: seq<Op>): (r: nat)
    ensures r <= |ops|
  {
    if ops == [] then 0
    else if Resets(Fold(start, ops[..|ops| - 1]), ops[|ops| - 1]) then |ops|
    else WindowFrom(start, ops[..|ops| - 1])
  }

  function Failures(ops: seq<Op>): nat {
    if ops == [] then 0 else Failures(ops[..|ops| - 1]) + (if ops[|ops| - 1].FailureAt? then 1 else 0)
  }

  function Successes(ops: seq<Op>): nat {
    if ops == [] then 0 else Successes(ops[..|ops| - 1]) + (if ops[|ops| - 1].SuccessAt? then 1 else 0)
  }

  lemma {:induction false} CountersAreTheWindow(now: Time, ops: seq<Op>)
    ensures var b, window := Fold(New(now), ops), ops[WindowFrom(New(now), ops)..];
            && b.failures == Failures(window) && b.successes == Successes(window)
            && b.total == b.failures + b.successes
  {
    if ops != [] {
      var init := ops[..|ops| - 1];
      CountersAreTheWindow(now, init);
      var r := WindowFrom(New(now), init);
      var window := ops[r..];
      assert window[..|window| - 1] == init[r..];
      assert ops[|ops|..] == [];
    }
  }

  /** A window starts with the call that reset the counters, or with the breaker. */
  lemma {:induction false} WindowStarted(now: Time, ops: seq<Op>)
    ensures var w := WindowFrom(New(now), ops);
            Fold(New(now), ops).windowStart == if w == 0 then now else ops[w - 1].at
  {
    if ops != [] {
      WindowStarted(now, ops[..|ops| - 1]);
    }
  }

  /** A call resets the counters exactly when it is an Allow past the minute or the success of a probe. */
  lemma ResetsIff(b: Breaker, op: Op)
    requires b.failures > 0
    ensures Step(b, op).failures == 0 <==>
              (op.AllowAt? && op.at > b.windowStart + 60_000_000_000) || (op.SuccessAt? && b.state == HalfOpen)
  {
  }

  predicate ResetAt(now: Time, ops: seq<Op>, i: nat)
    requires i < |ops|
  {
    Resets(Fold(New(now), ops[..i]), ops[i])
  }

  /** No window starts after the last call. */
  lemma {:induction false} WindowInThePast(now: Time, ops: seq<Op>, until: Time)
    requires InOrder(now, ops) && now <= until && forall i :: 0 <= i < |ops| ==> ops[i].at <= until
    ensures now <= Fold(New(now), ops).windowStart <= until
  {
    if ops != [] {
      WindowInThePast(now, ops[..|ops| - 1], until);
    }
  }

  /** In an ordered trace, the window after a reset starts no earlier than the reset. */
  lemma {:induction false} WindowSince(now: Time, ops: seq<Op>, i: nat)
    requires InOrder(now, ops) && i < |ops| && ResetAt(now, ops, i)
    ensures Fold(New(now), ops).windowStart >= ops[i].at
  {
    var init := ops[..|ops| - 1];
    if i < |init| {
      assert init[..i] == ops[..i] && init[i] == ops[i];
      WindowSince(now, init, i);
    }
  }

  /** Two resets by Allow are more than sixty seconds apart. */
  lemma ResetsApart(now: Time, ops: seq<Op>, i: nat, j: nat)
    requires InOrder(now, ops) && i < j < |ops| && ResetAt(now, ops, i) && ResetAt(now, ops, j) && ops[j].AllowAt?
    ensures ops[j].at > ops[i].at + 60_000_000_000
  {
    var before := ops[..j];
    assert before[..i] == ops[..i] && before[i] == ops[i];
    WindowSince(now, before, i);
  }

  // ---- Tripping

  /** A closed breaker opens exactly on a failure that makes ten samples or more with most of them failed. */
  lemma TripsIff(now: Time, ops: seq<Op>, op: Op)
    requires Fold(New(now), ops).state == Closed
    ensures var window := ops[WindowFrom(New(now), ops)..] + [op];
            Fold(New(now), ops + [op]).state == Open <==>
              op.FailureAt? && Failures(window) + Successes(window) >= 10
              && 2 * Failures(window) > Failures(window) + Successes(window)
  {
    CountersAreTheWindow(now, ops);
    assert (ops + [op])[..|ops + [op]| - 1] == ops;
    var seen := ops[WindowFrom(New(now), ops)..];
    assert (seen + [op])[..|seen + [op]| - 1] == seen;
  }

  /** While closed, fewer than ten failures or at most half of the samples failed. */
  lemma {:induction false} ClosedIsHealthy(now: Time, ops: seq<Op>)
    ensures var b := Fold(New(now), ops);
            && b.total == b.failures + b.successes
            && (b.state == Closed ==> b.failures < 10 || 2 * b.failures <= b.total)
            && (b.state != Closed ==> b.lastFailure.Some?)
  {
    if ops != [] {
      ClosedIsHealthy(now, ops[..|ops| - 1]);
    }
  }

  /** Nothing stronger holds: nine failures and then a success leave it closed with nine samples in ten failed. */
  lemma ClosedAtNinetyPercent() returns (ops: seq<Op>)
    ensures var b := Fold(New(0), ops); b.state == Closed && b.total == 10 && b.failures == 9
  {
    ops := [];
    for i := 0 to 9
      invariant Fold(New(0), ops) == Breaker(Closed, i, 0, i, if i == 0 then None else Some(0), 0)
    {
      assert (ops + [FailureAt(0)])[..|ops + [FailureAt(0)]| - 1] == ops;
      ops := ops + [FailureAt(0)];
    }
    assert (ops + [SuccessAt(0)])[..|ops + [SuccessAt(0)]| - 1] == ops;
    ops := ops + [SuccessAt(0)];
  }

  // ---- Staying open

  predicate InOrder(from: Time, ops: seq<Op>) {
    && (forall i :: 0 <= i < |ops| ==> from <= ops[i].at)
    && (forall i, j :: 0 <= i <= j < |ops| ==> ops[i].at <= ops[j].at)
  }

  /**
    After a failure that leaves it open, the breaker refuses every Allow for the whole timeout, whatever
    successes and failures of older requests are recorded meanwhile.
  */
  lemma {:induction false} OpenRefuses(b: Breaker, failed: Time, ops: seq<Op>)
    requires b.state == Open && b.lastFailure == Some(failed)
    requires InOrder(failed, ops) && forall i :: 0 <= i < |ops| ==> ops[i].at <= failed + TIMEOUT
    ensures var c := Fold(b, ops); c.state == Open && c.lastFailure.Some? && c.lastFailure.value >= failed
    ensures forall i :: 0 <= i < |ops| && ops[i].AllowAt? ==> !Admits(Fold(b, ops[..i]), ops[i].at)
  {
    if ops != [] {
      var init := ops[..|ops| - 1];
      OpenRefuses(b, failed, init);
      forall i | 0 <= i < |ops| && ops[i].AllowAt? ensures !Admits(Fold(b, ops[..i]), ops[i].at) {
        assert i < |init| ==> init[..i] == ops[..i] && init[i] == ops[i];
      }
    }
  }

  /** In particular after any RecordFailure, of however old a request, that leaves it open. */
  lemma FailureRefusesForTimeout(b: Breaker, failed: Time, ops: seq<Op>, i: nat)
    requires Step(b, FailureAt(failed)).state == Open
    requires InOrder(failed, ops) && i < |ops| && ops[i].AllowAt? && ops[i].at <= failed + 30_000_000_000
    ensures !Admits(Fold(Step(b, FailureAt(failed)), ops[..i]), ops[i].at)
  {
    assert ops[..i + 1][..i] == ops[..i];
    OpenRefuses(Step(b, FailureAt(failed)), failed, ops[..i + 1]);
  }

  /** Past the timeout the next Allow makes it half-open and is admitted. */
  lemma TimeoutProbes(b: Breaker, now: Time)
    ensures Admits(b, now) && b.state != Closed <==>
              b.state == Open && (b.lastFailure.Some? ==> now > b.lastFailure.value + 30_000_000_000)
    ensures Step(b, AllowAt(now)).state == if b.state == Open && Admits(b, now) then HalfOpen else b.state
    ensures b.state == Closed ==> Admits(b, now)
  {
  }

  /** The breaker object the workers of one channel share. */
  class SharedBreaker {
    var state: State
    var failures: nat
    var successes: nat
    var total: nat
    var lastFailure: Option<Time>
    var windowStart: Time
    ghost const created: Time
    ghost var trace: seq<Op>   // every call so far

    function Value(): Breaker
      reads this
    {
      Breaker(state, failures, successes, total, lastFailure, windowStart)
    }

    /** The fields are the fold of the trace. (Quantified so that a proof unfolds the fold only where it names it.) */
    ghost predicate Valid()
      reads this
    {
      forall ops :: ops == trace ==> Value() == Fold(New(created), ops)
    }

    constructor (now: Time)
      ensures Valid() && Value() == New(now) && trace == [] && created == now
    {
      state, failures, successes, total, lastFailure, windowStart := Closed, 0, 0, 0, None, now;
      created, trace := now, [];
    }

    method Allow(now: Time) returns (ok: bool)
      requires Valid()
      modifies this
      ensures Valid() && trace == old(trace) + [AllowAt(now)]
      ensures ok == Admits(old(Value()), now)
      ensures ok <==> old(state) == Closed || (old(state) == Open && state == HalfOpen)
      ensures old(state) == Open ==>
                (ok <==> old(lastFailure).None? || now > old(lastFailure).value + 30_000_000_000)
      ensures !ok || old(state) == Closed ==> state == old(state)
      ensures lastFailure == old(lastFailure)
      ensures if now > old(windowStart) + 60_000_000_000 then failures == successes == total == 0 && windowStart == now
              else failures == old(failures) && successes == old(successes) && total == old(total)
                   && windowStart == old(windowStart)
    {
      FoldAppend(New(created), trace, AllowAt(now));
      trace := trace + [AllowAt(now)];
      if now - windowStart > WINDOW {
        failures, successes, total, windowStart := 0, 0, 0, now;
      }
      match state
      case Closed => ok := true;
      case Open =>
        ok := lastFailure.None? || now - lastFailure.value > TIMEOUT;
        if ok {
          state := HalfOpen;
        }
      case HalfOpen => ok := false;
    }

    method RecordSuccess(now: Time)
      requires Valid()
      modifies this
      ensures Valid() && trace == old(trace) + [SuccessAt(now)]
      ensures state == if old(state) == HalfOpen then Closed else old(state)
      ensures lastFailure == old(lastFailure)
      ensures if old(state) == HalfOpen then failures == successes == total == 0 && windowStart == now
              else failures == old(failures) && successes == old(successes) + 1 && total == old(total) + 1
                   && windowStart == old(windowStart)
    {
      FoldAppend(New(created), trace, SuccessAt(now));
      trace := trace + [SuccessAt(now)];
      successes := successes + 1;
      total := total + 1;
      if state == HalfOpen {
        state := Closed;
        failures, successes, total, windowStart := 0, 0, 0, now;
      }
    }

    method RecordFailure(now: Time)
      requires Valid()
      modifies this
      ensures Valid() && trace == old(trace) + [FailureAt(now)]
      ensures failures == old(failures) + 1 && successes == old(successes) && total == old(total) + 1
      ensures lastFailure == Some(now) && windowStart == old(windowStart)
      ensures old(state) != Closed ==> state == Open
      ensures old(state) == Closed ==> state == if total >= 10 && 2 * failures > total then Open else Closed
    {
      FoldAppend(New(created), trace, FailureAt(now));
      trace := trace + [FailureAt(now)];
      failures := failures + 1;
      total := total + 1;
      lastFailure := Some(now);
      if state == HalfOpen {
        state := Open;
        return;
      }
      if state == Closed && total >= MIN_SAMPLES {
        if 2 * failures > total {
          state := Open;
        }
      }
    }

    /** Calls of other workers. */
    method Serve(ops: seq<Op>)
      requires Valid()
      modifies this
      ensures Valid() && trace == old(trace) + ops
    {
      for i := 0 to |ops|
        invariant Valid() && trace == old(trace) + ops[..i]
      {
        match ops[i]
        case AllowAt(now) => var _ := Allow(now);
        case SuccessAt(now) => RecordSuccess(now);
        case FailureAt(now) => RecordFailure(now);
        assert ops[..i + 1] == ops[..i] + [ops[i]];
      }
      assert ops[..|ops|] == ops;
    }
  }
}
