/** The circuit breaker as the workers of a channel use it, in every run of the whole system. */
module Prober {
  import opened Records
  import opened Delivery
  import opened Census
  import opened Quiescence
  import opened System
  import opened Guarantees
  import CircuitBreaker

  predicate HalfOpen(s: State, ch: Channel) {
    BreakerOf(s, ch).state == CircuitBreaker.HalfOpen
  }

  /** The delivery was admitted by the channel's breaker and has not reported to it yet. */
  predicate Flying(s: State, ch: Channel, d: Ticket) {
    d.id in s.cells && s.route(d.id) == ch && Aloft(s.cells[d.id], d.tag)
  }

  /** The delivery's worker left because the limiter did not let it pass. */
  predicate LeftAtLimiter(log: seq<Action>, d: Ticket) {
    Own(d.id, Work(d.tag, Limit(TimeOut))) in log || Own(d.id, Work(d.tag, Limit(Quit))) in log
  }

  // ---- Who moves what

  lemma OthersKeepWorkers(max: int, s: State, a: Action, id: Id)
    requires Can(s, a) && id in s.cells && !(a.Own? && a.id == id)
    ensures var t := Do(max, s, a);
            id in t.cells && t.cells[id].workers == s.cells[id].workers
            && t.cells[id].disposed == s.cells[id].disposed && t.cells[id].sendTimes == s.cells[id].sendTimes
  {
    if a.CallStep? && s.calls[a.call][0] == id {
      PublishersFrame(max, s.cells[id], a.e);
    } else if a.SchedulerStep? && s.scheduler[0] == id {
      PublishersFrame(max, s.cells[id], a.e);
    }
  }

  lemma RouteFixed(max: int, s: State, a: Action)
    requires Can(s, a)
    ensures Do(max, s, a).route == s.route
  {
  }

  lemma NewcomersIdle(max: int, s: State, a: Action, id: Id)
    requires Can(s, a) && id !in s.cells && id in Do(max, s, a).cells
    ensures Do(max, s, a).cells[id].workers == map[]
  {
  }

  // ---- What the breakers are told

  /** An answer of the provider reaches its channel's breaker, an acceptance as a success and any error as a failure. */
  lemma AnswerTold(max: int, s: State, id: Id, tag: Tag, outcome: Outcome, jitter: nat)
    requires Can(s, Own(id, Work(tag, SendDone(outcome, jitter))))
    ensures var b := BreakerOf(s, s.route(id));
            var c := BreakerOf(Do(max, s, Own(id, Work(tag, SendDone(outcome, jitter)))), s.route(id));
            match outcome
            case Accept =>
              if b.state == CircuitBreaker.HalfOpen then
                c == CircuitBreaker.Breaker(CircuitBreaker.Closed, 0, 0, 0, b.lastFailure, s.now)
              else c == b.(successes := b.successes + 1, total := b.total + 1)
            case _ =>
              && c == b.(failures := b.failures + 1, total := b.total + 1, lastFailure := Some(s.now), state := c.state)
              && c.state == if b.state == CircuitBreaker.Closed && !(b.total + 1 >= 10 && 2 * (b.failures + 1) > b.total + 1)
                            then CircuitBreaker.Closed else CircuitBreaker.Open
  {
  }

  /** Asking a channel's breaker gets its answer; past the minute it starts a new window, past the timeout a probe. */
  lemma AllowTold(max: int, s: State, id: Id, tag: Tag, allowed: bool)
    requires Can(s, Own(id, Work(tag, Admit(allowed))))
    ensures var b := BreakerOf(s, s.route(id));
            var c := BreakerOf(Do(max, s, Own(id, Work(tag, Admit(allowed)))), s.route(id));
            && (allowed <==> b.state == CircuitBreaker.Closed
                             || (b.state == CircuitBreaker.Open
                                 && (b.lastFailure.Some? ==> s.now > b.lastFailure.value + 30_000_000_000)))
            && c.state == (if b.state == CircuitBreaker.Open && allowed then CircuitBreaker.HalfOpen else b.state)
            && c.lastFailure == b.lastFailure
            && if s.now > b.windowStart + 60_000_000_000 then
                 c.failures == c.successes == c.total == 0 && c.windowStart == s.now
               else c.failures == b.failures && c.successes == b.successes && c.total == b.total && c.windowStart == b.windowStart
  {
  }

  /** Nobody else tells the breaker anything. */
  lemma NothingElseTold(max: int, s: State, a: Action, ch: Channel)
    requires Can(s, a) && !CallsBreaker(s, a, ch)
    ensures SameBreaker(s, Do(max, s, a), ch)
  {
  }

  predicate Accepted(route: Id -> Channel, a: Action, ch: Channel) {
    RecordsOn(route, a, ch) && a.e.what.outcome == Accept
  }

  predicate Failed(route: Id -> Channel, a: Action, ch: Channel) {
    RecordsOn(route, a, ch) && a.e.what.outcome in {Retryable, NonRetryable, Untyped}
  }

  /** The step that starts a new window of the channel. */
  predicate Restarts(s: State, a: Action, ch: Channel) {
    && CallsBreaker(s, a, ch)
    && if a.e.what.Admit? then s.now > BreakerOf(s, ch).windowStart + 60_000_000_000
       else HalfOpen(s, ch) && a.e.what.outcome == Accept
  }

  /** The channel's acceptances, its errors, and the start of its window, since the last step that started one. */
  datatype Window = Window(accepted: nat, failed: nat, start: Time)

  function NextWindow(s: State, a: Action, ch: Channel, w: Window): Window {
    if Restarts(s, a, ch) then Window(0, 0, s.now)
    else Window(w.accepted + One(Accepted(s.route, a, ch)), w.failed + One(Failed(s.route, a, ch)), w.start)
  }

  ghost function WindowAfter(max: int, s: State, log: seq<Action>, ch: Channel, w: Window): Window
    requires ValidRun(max, s, log)
    decreases |log|
  {
    if log == [] then w else WindowAfter(max, Do(max, s, log[0]), log[1..], ch, NextWindow(s, log[0], ch, w))
  }

  function Counted(b: CircuitBreaker.Breaker): Window {
    Window(b.successes, b.failures, b.windowStart)
  }

  /** In every run a channel's breaker has counted exactly the answers to the channel's deliveries in its window. */
  lemma {:induction false} CountersCountAnswers(max: int, s: State, log: seq<Action>, ch: Channel)
    requires ValidRun(max, s, log)
    ensures var b, c := BreakerOf(s, ch), BreakerOf(RunAll(max, s, log), ch);
            && WindowAfter(max, s, log, ch, Window(b.successes, b.failures, b.windowStart))
               == Window(c.successes, c.failures, c.windowStart)
            && (b.total == b.successes + b.failures ==> c.total == c.successes + c.failures)
    decreases |log|
  {
    if log != [] {
      WindowStep(max, s, log[0], ch);
      CountersCountAnswers(max, Do(max, s, log[0]), log[1..], ch);
    }
  }

  lemma WindowStep(max: int, s: State, a: Action, ch: Channel)
    requires Can(s, a)
    ensures var b, c := BreakerOf(s, ch), BreakerOf(Do(max, s, a), ch);
            && NextWindow(s, a, ch, Counted(b)) == Counted(c)
            && (if Restarts(s, a, ch) then c.successes == c.failures == c.total == 0 && c.windowStart == s.now
                else
                  && c.successes == b.successes + One(Accepted(s.route, a, ch))
                  && c.failures == b.failures + One(Failed(s.route, a, ch))
                  && c.total == b.total + One(RecordsOn(s.route, a, ch)) && c.windowStart == b.windowStart)
  {
    if !CallsBreaker(s, a, ch) {
      NothingElseTold(max, s, a, ch);
    } else if a.e.what.Admit? {
      AllowTold(max, s, a.id, a.e.tag, a.e.what.allowed);
    } else {
      AnswerTold(max, s, a.id, a.e.tag, a.e.what.outcome, a.e.what.jitter);
    }
  }

  /** A probe's answer closes the breaker if it is an acceptance and reopens it otherwise. */
  lemma ProbeAnswered(max: int, s: State, id: Id, tag: Tag, outcome: Outcome, jitter: nat)
    requires Can(s, Own(id, Work(tag, SendDone(outcome, jitter)))) && HalfOpen(s, s.route(id))
    ensures var b := BreakerOf(Do(max, s, Own(id, Work(tag, SendDone(outcome, jitter)))), s.route(id));
            && (b.state == CircuitBreaker.Closed <==> outcome == Accept)
            && (b.state == CircuitBreaker.Open <==> outcome in {Retryable, NonRetryable, Untyped})
  {
    AnswerTold(max, s, id, tag, outcome, jitter);
  }

  /** For thirty seconds after an error that leaves a channel's breaker open, no run admits a delivery of the channel. */
  lemma {:induction false} OpenAdmitsNobody(max: int, s: State, log: seq<Action>, ch: Channel, failed: Time)
    requires BreakerOf(s, ch).state == CircuitBreaker.Open && BreakerOf(s, ch).lastFailure.Some?
    requires failed <= BreakerOf(s, ch).lastFailure.value && failed <= s.now
    requires ValidRun(max, s, log) && RunAll(max, s, log).now <= failed + 30_000_000_000
    ensures BreakerOf(RunAll(max, s, log), ch).state == CircuitBreaker.Open
    ensures forall i :: 0 <= i < |log| ==> !AdmitsOn(s.route, log[i], ch)
    decreases |log|
  {
    if log != [] {
      var a, t := log[0], Do(max, s, log[0]);
      TimePasses(max, t, log[1..]);
      RouteFixed(max, s, a);
      if !CallsBreaker(s, a, ch) {
        NothingElseTold(max, s, a, ch);
      } else if a.e.what.Admit? {
        AllowTold(max, s, a.id, a.e.tag, a.e.what.allowed);
      } else {
        AnswerTold(max, s, a.id, a.e.tag, a.e.what.outcome, a.e.what.jitter);
      }
      OpenAdmitsNobody(max, t, log[1..], ch, failed);
    }
  }

  lemma {:induction false} TimePasses(max: int, s: State, log: seq<Action>)
    requires ValidRun(max, s, log)
    ensures RunAll(max, s, log).now >= s.now
    decreases |log|
  {
    if log != [] {
      TimePasses(max, Do(max, s, log[0]), log[1..]);
    }
  }

  // ---- The prober

  /** Gone for good: about to be requeued, or handed back. */
  predicate Out(s: State, d: Ticket) {
    d.id in s.cells
    && if d.tag in s.cells[d.id].workers then s.cells[d.id].workers[d.tag].Requeueing? else d.tag in s.cells[d.id].disposed
  }

  /** A half-open breaker's prober is in flight unless it left at the limiter; who left there is out. */
  ghost predicate Probed(s: State, log: seq<Action>, ch: Channel) {
    && (HalfOpen(s, ch) ==>
          var p := s.lanes(ch).prober;
          p.Some? && s.route(p.value.id) == ch && (Flying(s, ch, p.value) <==> !LeftAtLimiter(log, p.value)))
    && (forall d :: LeftAtLimiter(log, d) ==> Out(s, d))
  }

  lemma OutStep(max: int, s: State, a: Action, d: Ticket)
    requires Can(s, a) && Out(s, d)
    ensures Out(Do(max, s, a), d)
  {
    if !(a.Own? && a.id == d.id) {
      OthersKeepWorkers(max, s, a, d.id);
    }
  }

  lemma OutStays(max: int, s: State, log: seq<Action>, a: Action)
    requires Can(s, a) && forall d :: LeftAtLimiter(log, d) ==> Out(s, d)
    ensures forall d :: LeftAtLimiter(log + [a], d) ==> Out(Do(max, s, a), d)
  {
    forall d | LeftAtLimiter(log + [a], d) ensures Out(Do(max, s, a), d) {
      if LeftAtLimiter(log, d) {
        OutStep(max, s, a, d);
      } else {
        assert a == Own(d.id, Work(d.tag, Limit(TimeOut))) || a == Own(d.id, Work(d.tag, Limit(Quit)));
      }
    }
  }

  /** Anything but a breaker call of the channel leaves the prober in flight, or sees it leave at the limiter. */
  lemma ProberStays(max: int, s: State, log: seq<Action>, a: Action, ch: Channel)
    requires Probed(s, log, ch) && Can(s, a) && HalfOpen(s, ch) && !CallsBreaker(s, a, ch)
    ensures var t, p := Do(max, s, a), s.lanes(ch).prober;
            SameBreaker(s, t, ch) && (Flying(t, ch, p.value) <==> !LeftAtLimiter(log + [a], p.value))
  {
    var p := s.lanes(ch).prober.value;
    RouteFixed(max, s, a);
    if !(a.Own? && a.id == p.id) {
      if p.id in s.cells {
        OthersKeepWorkers(max, s, a, p.id);
      }
    }
  }

  predicate SameBreaker(s: State, t: State, ch: Channel) {
    t.lanes(ch).breaker == s.lanes(ch).breaker && t.lanes(ch).prober == s.lanes(ch).prober
  }

  /** Allow or a Record call on the channel's breaker. */
  predicate CallsBreaker(s: State, a: Action, ch: Channel) {
    a.Own? && s.route(a.id) == ch && a.e.Work? && (a.e.what.Admit? || a.e.what.SendDone?)
  }

  lemma ProbedAsk(max: int, s: State, log: seq<Action>, id: Id, tag: Tag, allowed: bool)
    requires var a := Own(id, Work(tag, Admit(allowed))); Probed(s, log, s.route(id)) && Can(s, a)
    ensures var a := Own(id, Work(tag, Admit(allowed))); Probed(Do(max, s, a), log + [a], s.route(id))
  {
    var a, ch := Own(id, Work(tag, Admit(allowed))), s.route(id);
    OutStays(max, s, log, a);
    assert !LeftAtLimiter(log, Ticket(id, tag));
    assert forall d :: LeftAtLimiter(log + [a], d) <==> LeftAtLimiter(log, d);
    if HalfOpen(s, ch) {
      var p := s.lanes(ch).prober.value;
      if p.id != id {
        assert Flying(Do(max, s, a), ch, p) <==> Flying(s, ch, p);
      }
    }
  }

  lemma ProbedStep(max: int, s: State, log: seq<Action>, a: Action, ch: Channel)
    requires Probed(s, log, ch) && Can(s, a)
    ensures Probed(Do(max, s, a), log + [a], ch)
  {
    RouteFixed(max, s, a);
    OutStays(max, s, log, a);
    if !CallsBreaker(s, a, ch) {
      assert SameBreaker(s, Do(max, s, a), ch);
      if HalfOpen(s, ch) {
        ProberStays(max, s, log, a, ch);
      }
    } else if a.e.what.Admit? {
      ProbedAsk(max, s, log, a.id, a.e.tag, a.e.what.allowed);
    }
  }

  lemma {:induction false} ProbedRun(max: int, s: State, before: seq<Action>, log: seq<Action>, ch: Channel)
    requires Probed(s, before, ch) && ValidRun(max, s, log)
    ensures Probed(RunAll(max, s, log), before + log, ch)
    decreases |log|
  {
    if log == [] {
      assert before + log == before;
    } else {
      ProbedStep(max, s, before, log[0], ch);
      ProbedRun(max, Do(max, s, log[0]), before + [log[0]], log[1..], ch);
      assert before + [log[0]] + log[1..] == before + log;
    }
  }

  /** In every run, a half-open breaker's prober is still to report exactly when it did not leave at the limiter. */
  lemma HalfOpenHasLiveProber(max: int, now: Time, route: Id -> Channel, rate: nat, log: seq<Action>, ch: Channel)
    requires ValidRun(max, Start(now, route, rate), log)
    ensures var s := RunAll(max, Start(now, route, rate), log);
            HalfOpen(s, ch) ==>
              s.lanes(ch).prober.Some?
              && (Flying(s, ch, s.lanes(ch).prober.value) <==> !LeftAtLimiter(log, s.lanes(ch).prober.value))
  {
    ProbedRun(max, Start(now, route, rate), [], log, ch);
    assert [] + log == log;
  }

  /** A delivery in flight makes exactly one Record call, unless it leaves at the limiter or has not got there yet. */
  lemma ReportsOnce(max: int, s: State, ch: Channel, d: Ticket, log: seq<Action>)
    requires Reachable(max, s) && Flying(s, ch, d) && ValidRun(max, s, log)
    ensures var es := Trace(max, s, log, d.id);
            RecordCalls(es, d.tag) + Exits(es, d.tag) + One(Flying(RunAll(max, s, log), ch, d)) == 1
  {
    ReachableSound(max, s);
    Projection(max, s, log, d.id);
    RouteKept(max, s, log);
    AdmissionsSettled(max, s.cells[d.id], Trace(max, s, log, d.id), d.tag);
    AskedOnce(max, s.cells[d.id], Trace(max, s, log, d.id), d.tag);
  }

  lemma {:induction false} RouteKept(max: int, s: State, log: seq<Action>)
    requires ValidRun(max, s, log)
    ensures RunAll(max, s, log).route == s.route
    decreases |log|
  {
    if log != [] {
      RouteFixed(max, s, log[0]);
      RouteKept(max, Do(max, s, log[0]), log[1..]);
    }
  }

  /** Channels do not share a breaker: what happens to other channels' notifications, or in other instances, leaves it alone. */
  lemma {:induction false} ChannelsIndependent(max: int, s: State, log: seq<Action>, ch: Channel)
    requires ValidRun(max, s, log) && forall i :: 0 <= i < |log| ==> !(log[i].Own? && s.route(log[i].id) == ch)
    ensures SameBreaker(s, RunAll(max, s, log), ch)
    decreases |log|
  {
    if log != [] {
      assert !(log[0].Own? && s.route(log[0].id) == ch);
      RouteFixed(max, s, log[0]);
      ChannelsIndependent(max, Do(max, s, log[0]), log[1..], ch);
    }
  }

  // ---- While half-open

  predicate RecordsOn(route: Id -> Channel, a: Action, ch: Channel) {
    a.Own? && route(a.id) == ch && a.e.Work? && a.e.what.SendDone?
  }

  predicate AdmitsOn(route: Id -> Channel, a: Action, ch: Channel) {
    a.Own? && route(a.id) == ch && a.e.Work? && a.e.what == Admit(true)
  }

  lemma HalfOpenStep(max: int, s: State, a: Action, ch: Channel)
    requires Can(s, a) && HalfOpen(s, ch) && !RecordsOn(s.route, a, ch)
    ensures var t := Do(max, s, a);
            && HalfOpen(t, ch) && t.lanes(ch).prober == s.lanes(ch).prober && !AdmitsOn(s.route, a, ch)
            && (forall d :: Flying(t, ch, d) ==> Flying(s, ch, d))
  {
    var t := Do(max, s, a);
    RouteFixed(max, s, a);
    forall d | Flying(t, ch, d) ensures Flying(s, ch, d) {
      FlyingBefore(max, s, a, ch, d);
    }
  }

  /** Only Allow lets a delivery take off. */
  lemma FlyingBefore(max: int, s: State, a: Action, ch: Channel, d: Ticket)
    requires Can(s, a) && Flying(Do(max, s, a), ch, d) && !AdmitsOn(s.route, a, ch)
    ensures Flying(s, ch, d)
  {
    RouteFixed(max, s, a);
    if d.id !in s.cells {
      NewcomersIdle(max, s, a, d.id);
    } else if a.Own? && a.id == d.id {
      AloftNext(max, s.cells[d.id], a.e, d.tag);
    } else {
      OthersKeepWorkers(max, s, a, d.id);
    }
  }

  /** Until somebody records, a half-open breaker stays half-open and every Allow is refused. */
  lemma {:induction false} HalfOpenAdmitsNobody(max: int, s: State, log: seq<Action>, ch: Channel)
    requires HalfOpen(s, ch) && ValidRun(max, s, log)
    requires forall i :: 0 <= i < |log| ==> !RecordsOn(s.route, log[i], ch)
    ensures var t := RunAll(max, s, log);
            && HalfOpen(t, ch) && t.lanes(ch).prober == s.lanes(ch).prober
            && (forall d :: Flying(t, ch, d) ==> Flying(s, ch, d))
    ensures forall i :: 0 <= i < |log| ==> !AdmitsOn(s.route, log[i], ch)
    decreases |log|
  {
    if log != [] {
      HalfOpenStep(max, s, log[0], ch);
      RouteFixed(max, s, log[0]);
      HalfOpenAdmitsNobody(max, Do(max, s, log[0]), log[1..], ch);
    }
  }

  // ---- Recovery

  /** Half-open with nobody in flight. */
  ghost predicate Deserted(s: State, ch: Channel) {
    HalfOpen(s, ch) && forall d :: !Flying(s, ch, d)
  }

  lemma DesertedStep(max: int, s: State, a: Action, ch: Channel)
    requires Can(s, a) && Deserted(s, ch)
    ensures Deserted(Do(max, s, a), ch)
    ensures forall id :: id in s.cells && s.route(id) == ch ==>
              id in Do(max, s, a).cells && Do(max, s, a).cells[id].sendTimes == s.cells[id].sendTimes
  {
    if a.Own? && a.e.Work? && s.route(a.id) == ch {
      assert !Flying(s, ch, Ticket(a.id, a.e.tag));
    }
    HalfOpenStep(max, s, a, ch);
    forall id | id in s.cells && s.route(id) == ch
      ensures id in Do(max, s, a).cells && Do(max, s, a).cells[id].sendTimes == s.cells[id].sendTimes
    {
      if !(a.Own? && a.id == id) {
        OthersKeepWorkers(max, s, a, id);
      }
    }
  }

  /** A deserted channel stays so: the breaker refuses everybody and nothing of the channel is sent any more. */
  lemma {:induction false} DesertedForever(max: int, s: State, ch: Channel, log: seq<Action>)
    requires Deserted(s, ch) && ValidRun(max, s, log)
    ensures Deserted(RunAll(max, s, log), ch)
    ensures forall id :: id in s.cells && s.route(id) == ch ==>
              id in RunAll(max, s, log).cells && RunAll(max, s, log).cells[id].sendTimes == s.cells[id].sendTimes
    decreases |log|
  {
    if log != [] {
      DesertedStep(max, s, log[0], ch);
      RouteFixed(max, s, log[0]);
      DesertedForever(max, Do(max, s, log[0]), ch, log[1..]);
    }
  }

  // ---- Waiting at the limiter

  /** The worker cannot ask yet, or would be refused. */
  predicate HeldUp(s: State, ch: Channel, w: Worker) {
    w.Admitted? && ((w.refused.Some? && s.now < w.refused.value + WAIT_PAUSE) || (s.rate > 0 && !HasToken(s, ch)))
  }

  /** Leaving the bucket alone for its time to live is all it takes. */
  lemma IdlingHelps(max: int, s: State, ch: Channel, w: Worker) returns (to: Time)
    requires Consistent(s) && w.Admitted?
    ensures Can(s, Clock(to)) && Consistent(Do(max, s, Clock(to))) && !HeldUp(Do(max, s, Clock(to)), ch, w)
    ensures w.refused.None? ==> to == s.now + 2 * SECOND
  {
    to := (if w.refused.Some? then Max(s.now, w.refused.value) else s.now) + 2 * SECOND;
    ConsistentStep(max, s, Clock(to));
    var t := Do(max, s, Clock(to));
    assert Logged(s, ch) && Logged(t, ch);
    if s.rate > 0 {
      TokenAfterIdle(t, ch);
    }
  }

  // ---- Reporting

  /** The next step of a delivery in flight. */
  function Onward(rate: nat, w: Worker): WorkerEvent {
    if w.Admitted? then Limit(if rate > 0 then Token else Unchecked) else if w.Cleared? then SendStart else SendDone(Accept, 0)
  }

  function Distance(w: Worker): nat {
    if w.Admitted? then 2 else if w.Cleared? then 1 else 0
  }

  /** Time passes and one delivery moves; the rest of the system stands still. */
  ghost predicate Elsewhere(s: State, t: State, id: Id) {
    && t.now >= s.now && t.calls == s.calls && t.scheduler == s.scheduler && t.route == s.route && t.rate == s.rate
    && t.cells.Keys == s.cells.Keys && (forall x :: x in s.cells && x != id ==> t.cells[x] == s.cells[x].(now := t.now))
  }

  lemma ElsewhereOn(s: State, t: State, u: State, id: Id)
    requires Elsewhere(s, t, id) && Elsewhere(t, u, id)
    ensures Elsewhere(s, u, id)
  {
  }

  /** All steps of the run are regular. */
  ghost predicate AllRegular(log: seq<Action>) {
    forall i :: 0 <= i < |log| && log[i].Own? ==> Regular(log[i].e)
  }

  lemma {:induction false} CanReport(max: int, s: State, ch: Channel, d: Ticket) returns (log: seq<Action>, t: State)
    requires Consistent(s) && Flying(s, ch, d)
    ensures Goes(max, s, log, t) && !HalfOpen(t, ch) && Consistent(t) && Elsewhere(s, t, d.id)
    ensures s.rate > 0 ==> AllRegular(log)
    decreases Distance(s.cells[d.id].workers[d.tag]), HeldUp(s, ch, s.cells[d.id].workers[d.tag])
  {
    log, t := ReportStep(max, s, ch, d);
    if !s.cells[d.id].workers[d.tag].Sending? {
      var u, more := t, [];
      more, t := CanReport(max, u, ch, d);
      ElsewhereOn(s, u, t, d.id);
      GoesOn(max, s, log, u, more, t);
      log := log + more;
    }
  }

  /** One step nearer to the report: some idling, or a step of the delivery. */
  lemma ReportStep(max: int, s: State, ch: Channel, d: Ticket) returns (log: seq<Action>, t: State)
    requires Consistent(s) && Flying(s, ch, d)
    ensures Goes(max, s, log, t) && Consistent(t) && Elsewhere(s, t, d.id) && (s.rate > 0 ==> AllRegular(log))
    ensures var w := s.cells[d.id].workers[d.tag];
            if w.Sending? then !HalfOpen(t, ch)
            else
              && Flying(t, ch, d)
              && var v := t.cells[d.id].workers[d.tag];
              Distance(v) < Distance(w) || (v == w && HeldUp(s, ch, w) && !HeldUp(t, ch, w))
  {
    var w := s.cells[d.id].workers[d.tag];
    var a := Own(d.id, Work(d.tag, Onward(s.rate, w)));
    if HeldUp(s, ch, w) {
      var to := IdlingHelps(max, s, ch, w);
      a := Clock(to);
    } else {
      OnwardStep(max, s, ch, d);
    }
    t := Do(max, s, a);
    GoesCons(max, s, a, [], t);
    log := [a] + [];
  }

  lemma OnwardStep(max: int, s: State, ch: Channel, d: Ticket)
    requires Consistent(s) && Flying(s, ch, d) && !HeldUp(s, ch, s.cells[d.id].workers[d.tag])
    ensures var w := s.cells[d.id].workers[d.tag];
            var a := Own(d.id, Work(d.tag, Onward(s.rate, w)));
            && Can(s, a) && Consistent(Do(max, s, a)) && Elsewhere(s, Do(max, s, a), d.id)
            && if w.Sending? then !HalfOpen(Do(max, s, a), ch)
               else Flying(Do(max, s, a), ch, d) && Distance(Do(max, s, a).cells[d.id].workers[d.tag]) < Distance(w)
  {
    var c := s.cells[d.id];
    var e := Work(d.tag, Onward(s.rate, c.workers[d.tag]));
    OnwardTurn(max, c, s.rate, d.tag);
    assert Can(s, Own(d.id, e));
    OwnElsewhere(max, s, d.id, e);
    ConsistentStep(max, s, Own(d.id, e));
  }

  lemma OnwardTurn(max: int, c: Cell, rate: nat, tag: Tag)
    requires Aloft(c, tag)
    requires var w := c.workers[tag]; w.Admitted? ==> w.refused.None? || w.refused.value + WAIT_PAUSE <= c.now
    ensures var w := c.workers[tag];
            var e := Work(tag, Onward(rate, w));
            && Enabled(c, e)
            && (!w.Sending? ==> Aloft(Next(max, c, e), tag) && Distance(Next(max, c, e).workers[tag]) < Distance(w))
  {
  }

  lemma OwnElsewhere(max: int, s: State, id: Id, e: Event)
    requires Tracked(s) && Can(s, Own(id, e))
    ensures Elsewhere(s, Do(max, s, Own(id, e)), id) && Do(max, s, Own(id, e)).cells[id] == Next(max, s.cells[id], e)
  {
  }

  ghost predicate Recovers(max: int, s: State, ch: Channel, log: seq<Action>) {
    ValidRun(max, s, log) && !HalfOpen(RunAll(max, s, log), ch)
  }

  /** A half-open breaker can ever leave that state exactly when an admitted delivery is still in flight. */
  lemma RecoversIffInFlight(max: int, s: State, ch: Channel)
    requires Reachable(max, s) && HalfOpen(s, ch)
    ensures (exists log :: Recovers(max, s, ch, log)) <==> exists d :: Flying(s, ch, d)
  {
    if d :| Flying(s, ch, d) {
      ReachableSound(max, s);
      var log, t := CanReport(max, s, ch, d);
      assert ValidRun(max, s, log);
      assert Recovers(max, s, ch, log);
    } else {
      forall log | ValidRun(max, s, log) ensures !Recovers(max, s, ch, log) {
        DesertedForever(max, s, ch, log);
      }
    }
  }
}
