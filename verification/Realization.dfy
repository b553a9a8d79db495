/**
  When can a notification still reach the provider? In the whole system, with everybody else's lists and rows
  in the way: exactly when it is not quiet and its channel is not deserted. Each case below builds the run, one
  without untyped errors and failures of Redis where that is asked for.
*/
module Realization {
  import opened Records
  import opened Delivery
  import opened System
  import opened Quiescence
  import opened Guarantees
  import opened Census
  import opened Prober
  import opened Publication
  import CircuitBreaker

  ghost predicate Sends(max: int, s: State, id: Id, log: seq<Action>) {
    && ValidRun(max, s, log) && id in s.cells && id in RunAll(max, s, log).cells
    && |RunAll(max, s, log).cells[id].sendTimes| > |s.cells[id].sendTimes|
  }

  /** A run that sends, a regular one if `regular`. */
  ghost predicate SendsBy(max: int, s: State, id: Id, regular: bool, log: seq<Action>) {
    Sends(max, s, id, log) && (regular ==> AllRegular(log))
  }

  /** One more action in front of a run that sends. */
  lemma Before(max: int, s: State, id: Id, regular: bool, a: Action, log: seq<Action>) returns (all: seq<Action>)
    requires Consistent(s) && Can(s, a) && id in s.cells && SendsBy(max, Do(max, s, a), id, regular, log)
    requires regular && a.Own? ==> Regular(a.e)
    ensures SendsBy(max, s, id, regular, all)
  {
    all := [a] + log;
    RunAllCons(max, s, a, log);
    LocalStep(max, s, a, id);
    SendsGrow(max, s.cells[id], Local(s, a, id));
  }

  /** A run that leaves the notification's calls alone, in front of a run that sends it. */
  lemma BeforeAll(max: int, s: State, id: Id, regular: bool, log: seq<Action>, t: State, more: seq<Action>)
    returns (all: seq<Action>)
    requires Goes(max, s, log, t) && id in s.cells && id in t.cells && t.cells[id].sendTimes == s.cells[id].sendTimes
    requires (regular ==> AllRegular(log)) && SendsBy(max, t, id, regular, more)
    ensures SendsBy(max, s, id, regular, all)
  {
    assert ValidRun(max, s, log);
    RunAllAppend(max, s, log, more);
    all := log + more;
  }

  lemma {:induction false} SendsGrow(max: int, c: Cell, es: seq<Event>)
    requires Valid(max, c, es)
    ensures |Run(max, c, es).sendTimes| >= |c.sendTimes|
    decreases |es|
  {
    if es != [] {
      SendsGrow(max, Next(max, c, es[0]), es[1..]);
    }
  }

  // ---- A worker on its way to the provider

  /** The breaker of the notification's channel is closed, or open and only waiting for its timeout. */
  predicate Passing(s: State, id: Id) {
    !HalfOpen(s, s.route(id))
  }

  /** The worker must first let time pass: for its backoff, for the breaker's timeout, or for a token. */
  predicate MustWait(s: State, id: Id, w: Worker) {
    || (w.Waiting? && !Reached(w.snap.nextRetryAt, s.now))
    || (w.Begun? && !CircuitBreaker.Admits(BreakerOf(s, s.route(id)), s.now))
    || HeldUp(s, s.route(id), w)
  }

  /** Waiting is all it takes. */
  lemma WaitingHelps(max: int, s: State, id: Id, w: Worker) returns (a: Action)
    requires Consistent(s) && MustWait(s, id, w) && (w.Begun? ==> Passing(s, id))
    ensures a.Clock? && Can(s, a) && Consistent(Do(max, s, a)) && !MustWait(Do(max, s, a), id, w)
  {
    if w.Admitted? {
      var to := IdlingHelps(max, s, s.route(id), w);
      a := Clock(to);
    } else {
      var b := BreakerOf(s, s.route(id));
      a := Clock(if w.Waiting? then w.snap.nextRetryAt.value
                 else if b.lastFailure.None? then s.now else Max(s.now, b.lastFailure.value + CircuitBreaker.TIMEOUT + 1));
      ConsistentStep(max, s, a);
    }
  }

  /** A copy that can still be sent, regularly if need be. */
  ghost predicate Hopeful(max: int, s: State, id: Id, regular: bool, w: Worker) {
    && !Terminal(w) && (regular ==> s.rate > 0 && !Spent(max, w))
    && (Passing(s, id) || InFlight(w))
  }

  /** Its next step brings it nearer, past an open breaker too. */
  lemma StepsToward(max: int, s: State, id: Id, tag: Tag, regular: bool)
    requires Consistent(s) && id in s.cells && tag in s.cells[id].workers
    requires var w := s.cells[id].workers[tag];
             Hopeful(max, s, id, regular, w) && !w.Cleared? && !w.Requeueing? && !MustWait(s, id, w)
    ensures var w, e := s.cells[id].workers[tag], Work(tag, Toward(max, s.rate, s.cells[id].workers[tag]));
            && Can(s, Own(id, e)) && (regular ==> Regular(e))
            && var t := Do(max, s, Own(id, e));
            && Consistent(t) && id in t.cells && tag in t.cells[id].workers
            && Hopeful(max, t, id, regular, t.cells[id].workers[tag]) && Rank(t.cells[id].workers[tag]) < Rank(w)
  {
    var c := s.cells[id];
    var w := c.workers[tag];
    var e := Work(tag, Toward(max, s.rate, w));
    TowardRanks(max, c, s.rate, w);
    assert Can(s, Own(id, e));
    assert Next(max, c, e).workers[tag] == Turn(max, c, w, Toward(max, s.rate, w));
    ConsistentStep(max, s, Own(id, e));
  }

  /** One step nearer to the call: some waiting, or a step of the worker. */
  lemma WorkerStep(max: int, s: State, id: Id, tag: Tag, regular: bool) returns (log: seq<Action>, t: State)
    requires Consistent(s) && id in s.cells && tag in s.cells[id].workers
    requires var w := s.cells[id].workers[tag]; Hopeful(max, s, id, regular, w) && !w.Cleared? && !w.Requeueing?
    ensures Goes(max, s, log, t) && Consistent(t) && (regular ==> AllRegular(log))
    ensures id in t.cells && tag in t.cells[id].workers && t.cells[id].sendTimes == s.cells[id].sendTimes
    ensures var w, v := s.cells[id].workers[tag], t.cells[id].workers[tag];
            && Hopeful(max, t, id, regular, v)
            && (Rank(v) < Rank(w) || (v == w && MustWait(s, id, w) && !MustWait(t, id, w)))
  {
    var w := s.cells[id].workers[tag];
    var a := Own(id, Work(tag, Toward(max, s.rate, w)));
    if MustWait(s, id, w) {
      a := WaitingHelps(max, s, id, w);
    } else {
      StepsToward(max, s, id, tag, regular);
    }
    t := Do(max, s, a);
    GoesCons(max, s, a, [], t);
    log := [a] + [];
  }

  lemma {:induction false} FromWorker(max: int, s: State, id: Id, tag: Tag, regular: bool) returns (log: seq<Action>)
    requires Consistent(s) && id in s.cells && tag in s.cells[id].workers
    requires Hopeful(max, s, id, regular, s.cells[id].workers[tag])
    ensures SendsBy(max, s, id, regular, log)
    decreases Rank(s.cells[id].workers[tag]), MustWait(s, id, s.cells[id].workers[tag])
  {
    var w := s.cells[id].workers[tag];
    if w.Cleared? {
      log := CallNow(max, s, id, tag, regular);
    } else if w.Requeueing? {
      var a := Own(id, Work(tag, Requeue));
      ConsistentStep(max, s, a);
      log := FromQueued(max, Do(max, s, a), id, regular);
      log := Before(max, s, id, regular, a, log);
    } else {
      var lead, t := WorkerStep(max, s, id, tag, regular);
      log := FromWorker(max, t, id, tag, regular);
      log := BeforeAll(max, s, id, regular, lead, t, log);
    }
  }

  lemma CallNow(max: int, s: State, id: Id, tag: Tag, regular: bool) returns (log: seq<Action>)
    requires id in s.cells && tag in s.cells[id].workers && s.cells[id].workers[tag].Cleared?
    ensures SendsBy(max, s, id, regular, log)
  {
    var a := Own(id, Work(tag, SendStart));
    RunAllCons(max, s, a, []);
    log := [a] + [];
  }

  lemma FromQueued(max: int, s: State, id: Id, regular: bool) returns (log: seq<Action>)
    requires Consistent(s) && id in s.cells && s.cells[id].queued > 0 && Passing(s, id) && (regular ==> s.rate > 0)
    ensures SendsBy(max, s, id, regular, log)
    decreases 10, true
  {
    var tag := FreshTag(s.cells[id].workers.Keys + s.cells[id].disposed);
    var a := Own(id, Deliver(tag));
    ConsistentStep(max, s, a);
    log := FromWorker(max, Do(max, s, a), id, tag, regular);
    log := Before(max, s, id, regular, a, log);
  }

  // ---- A row on its way to the broker

  lemma FromListed(max: int, s: State, id: Id, regular: bool) returns (log: seq<Action>)
    requires Consistent(s) && id in s.cells && s.cells[id].poller.Listed? && Passing(s, id) && (regular ==> s.rate > 0)
    ensures SendsBy(max, s, id, regular, log)
  {
    var lead, t := ListedToHead(max, s, id);
    var publish, u := PublishHead(max, t, id);
    log := FromQueued(max, u, id, regular);
    log := BeforeAll(max, t, id, regular, publish, u, log);
    log := BeforeAll(max, s, id, regular, lead, t, log);
  }

  lemma FromPending(max: int, s: State, id: Id, regular: bool) returns (log: seq<Action>)
    requires Consistent(s) && id in s.cells && !s.cells[id].poller.Listed? && Passing(s, id) && (regular ==> s.rate > 0)
    requires s.cells[id].row.status == Pending && s.cells[id].row.scheduledAt.Some?
    ensures SendsBy(max, s, id, regular, log)
    decreases !s.cells[id].poller.Idle?
  {
    var lead, t;
    if s.cells[id].poller.Idle? {
      lead, t := SchedulerPublishes(max, s, id);
      log := FromQueued(max, t, id, regular);
    } else {
      assert id in s.scheduler;
      lead, t := SkipHead(max, s);
      log := FromPending(max, t, id, regular);
    }
    log := BeforeAll(max, s, id, regular, lead, t, log);
  }

  lemma FromCreator(max: int, s: State, id: Id, call: CallId, regular: bool) returns (log: seq<Action>)
    requires Consistent(s) && OnCall(s, id, call) && Passing(s, id) && (regular ==> s.rate > 0)
    ensures SendsBy(max, s, id, regular, log)
  {
    var lead, t := CallPublishesWhenDue(max, s, id, call);
    log := FromQueued(max, t, id, regular);
    log := BeforeAll(max, s, id, regular, lead, t, log);
  }

  // ---- The theorems

  /** Not quiet, or not even silent if the run is to be regular. */
  ghost predicate Alive(max: int, s: State, id: Id, regular: bool) {
    id in s.cells && if regular then s.rate > 0 && !Silent(max, s.cells[id]) else !Quiet(s.cells[id])
  }

  lemma FromLive(max: int, s: State, id: Id, regular: bool) returns (log: seq<Action>)
    requires Consistent(s) && Alive(max, s, id, regular) && Passing(s, id)
    ensures SendsBy(max, s, id, regular, log)
  {
    var c := s.cells[id];
    if c.queued > 0 {
      log := FromQueued(max, s, id, regular);
    } else if c.creator.Listed? || c.creator.Publishing? {
      assert Owned(s, id);
      var call :| call in s.calls && id in s.calls[call];
      log := FromCreator(max, s, id, call, regular);
    } else if c.poller.Listed? {
      log := FromListed(max, s, id, regular);
    } else if c.row.status == Pending && c.row.scheduledAt.Some? {
      log := FromPending(max, s, id, regular);
    } else {
      var t :| t in c.workers && if regular then !Spent(max, c.workers[t]) else !Terminal(c.workers[t]);
      log := FromWorker(max, s, id, t, regular);
    }
  }

  /** A half-open breaker is no obstacle while somebody is in flight who will report to it. */
  lemma FromHalfOpen(max: int, s: State, id: Id, d: Ticket, regular: bool) returns (log: seq<Action>)
    requires Consistent(s) && Alive(max, s, id, regular) && Flying(s, s.route(id), d)
    ensures SendsBy(max, s, id, regular, log)
  {
    if d.id != id {
      var report, t := CanReport(max, s, s.route(id), d);
      log := FromLive(max, t, id, regular);
      log := BeforeAll(max, s, id, regular, report, t, log);
    } else if regular && Spent(max, s.cells[id].workers[d.tag]) {
      var a := Own(id, Work(d.tag, SendDone(Accept, 0)));
      AnswerKeepsAlive(max, s.cells[id], d.tag);
      ConsistentStep(max, s, a);
      log := FromLive(max, Do(max, s, a), id, regular);
      log := Before(max, s, id, regular, a, log);
    } else {
      log := FromWorker(max, s, id, d.tag, regular);
    }
  }

  lemma FromAlive(max: int, s: State, id: Id, regular: bool) returns (log: seq<Action>)
    requires Consistent(s) && Alive(max, s, id, regular) && !Deserted(s, s.route(id))
    ensures SendsBy(max, s, id, regular, log)
  {
    if HalfOpen(s, s.route(id)) {
      var d :| Flying(s, s.route(id), d);
      log := FromHalfOpen(max, s, id, d, regular);
    } else {
      log := FromLive(max, s, id, regular);
    }
  }

  /**
    In every reachable state a notification can be sent (again) exactly when it is not quiet and its channel's
    breaker is not half-open with nobody in flight. In particular cancelling does not stop a copy that is live
    or about to be published.
  */
  lemma SendableIff(max: int, s: State, id: Id)
    requires Reachable(max, s) && id in s.cells
    ensures (exists log :: Sends(max, s, id, log)) <==> !Quiet(s.cells[id]) && !Deserted(s, s.route(id))
  {
    ReachableSound(max, s);
    var c, ch := s.cells[id], s.route(id);
    if Deserted(s, ch) {
      forall log | ValidRun(max, s, log) ensures !Sends(max, s, id, log) {
        DesertedForever(max, s, ch, log);
      }
    } else if Quiet(c) {
      forall log | ValidRun(max, s, log) ensures !Sends(max, s, id, log) {
        Projection(max, s, log, id);
        QuietRun(max, c, Trace(max, s, log, id));
      }
    } else {
      var log := FromAlive(max, s, id, false);
      assert Sends(max, s, id, log);
    }
  }

  lemma {:induction false} RegularTrace(max: int, s: State, log: seq<Action>, id: Id)
    requires ValidRun(max, s, log) && AllRegular(log)
    ensures forall i :: 0 <= i < |Trace(max, s, log, id)| ==> Regular(Trace(max, s, log, id)[i])
    decreases |log|
  {
    if log != [] {
      assert log[0].Own? ==> Regular(log[0].e);
      RegularTrace(max, Do(max, s, log[0]), log[1..], id);
    }
  }

  /**
    The same for runs in which the provider always gives a proper answer and Redis never fails, at every positive
    rate: then a call that is under way with no retries left does not keep a notification alive.
  */
  lemma RegularlySendableIff(max: int, s: State, id: Id)
    requires Reachable(max, s) && id in s.cells && s.rate > 0
    ensures (exists log :: SendsBy(max, s, id, true, log)) <==> !Silent(max, s.cells[id]) && !Deserted(s, s.route(id))
  {
    ReachableSound(max, s);
    var c, ch := s.cells[id], s.route(id);
    if Deserted(s, ch) {
      forall log | ValidRun(max, s, log) ensures !SendsBy(max, s, id, true, log) {
        DesertedForever(max, s, ch, log);
      }
    } else if Silent(max, c) {
      forall log | ValidRun(max, s, log) && AllRegular(log) ensures !SendsBy(max, s, id, true, log) {
        Projection(max, s, log, id);
        RegularTrace(max, s, log, id);
        SilentRun(max, c, Trace(max, s, log, id));
      }
    } else {
      var log := FromAlive(max, s, id, true);
    }
  }

  /**
    A row that is pending because its publish failed: no creating call, no poll and no worker holds it. The
    design note that the scheduler reconciles such rows is true exactly of those that carry a schedule, as far
    as their channel still sends at all.
  */
  lemma ReconciledIffScheduled(max: int, s: State, id: Id)
    requires Reachable(max, s) && id in s.cells
    requires var c := s.cells[id];
             c.row.status == Pending && c.creator.Idle? && c.poller.Idle? && c.queued == 0 && c.workers == map[]
    ensures (exists log :: Sends(max, s, id, log)) <==>
              s.cells[id].row.scheduledAt.Some? && !Deserted(s, s.route(id))
  {
    SendableIff(max, s, id);
  }
}
