/** Reachable states in which the system does not do what its documentation leads one to expect. */
module Witnesses {
  import opened Records
  import opened Delivery
  import opened System
  import opened Guarantees
  import opened Quiescence
  import opened Prober
  import opened Publication
  import opened Realization
  import opened Starvation
  import CircuitBreaker

  // ---- Building reachable states

  lemma StartReachable(max: int, now: Time, route: Id -> Channel, rate: nat)
    ensures Reachable(max, Start(now, route, rate))
  {
    assert Goes(max, Start(now, route, rate), [], Start(now, route, rate));
  }

  lemma ReachesAfter(max: int, s: State, log: seq<Action>)
    requires Reachable(max, s) && ValidRun(max, s, log)
    ensures Reachable(max, RunAll(max, s, log))
  {
    var now, route, rate, before :| Goes(max, Start(now, route, rate), before, s);
    assert ValidRun(max, Start(now, route, rate), before);
    RunAllAppend(max, Start(now, route, rate), before, log);
    assert Goes(max, Start(now, route, rate), before + log, RunAll(max, s, log));
  }

  lemma ReachesNext(max: int, s: State, a: Action)
    requires Reachable(max, s) && Can(s, a)
    ensures Reachable(max, Do(max, s, a))
  {
    RunAllCons(max, s, a, []);
    ReachesAfter(max, s, [a] + []);
  }

  /** A notification that is stored by a call of its own. */
  lemma Store(max: int, s: State, call: CallId, id: Id, scheduledAt: Option<Time>) returns (t: State)
    requires Reachable(max, s) && call !in s.calls && id !in s.cells
    ensures Reachable(max, t) && t == s.(cells := s.cells[id := Fresh(s.now, scheduledAt)], calls := s.calls[call := [id]])
  {
    var a := Insert(call, [id], [scheduledAt]);
    ReachesNext(max, s, a);
    t := Do(max, s, a);
    assert id in [id] && IndexOf([id], id) == 0;
    assert t.cells == s.cells[id := Fresh(s.now, scheduledAt)];
  }

  lemma CallMovesOn(max: int, s: State, call: CallId, id: Id, e: Event) returns (t: State)
    requires Reachable(max, s) && call in s.calls && s.calls[call] == [id] && id in s.cells
    requires CreatorEvent(e) && Enabled(s.cells[id], e)
    ensures Reachable(max, t)
    ensures var d := Next(max, s.cells[id], e);
            t == s.(cells := s.cells[id := d], calls := s.calls[call := if d.creator.Idle? then [] else [id]])
  {
    ReachesNext(max, s, CallStep(call, e));
    t := Do(max, s, CallStep(call, e));
    assert s.calls == s.calls[call := [id]];
  }

  /** It is due, and its call tries to publish it. */
  lemma Tried(max: int, s: State, call: CallId, id: Id, scheduledAt: Option<Time>, ok: bool) returns (t: State)
    requires Reachable(max, s) && call !in s.calls && id !in s.cells && Reached(scheduledAt, s.now)
    ensures Reachable(max, t)
    ensures var c := Publish(Fresh(s.now, scheduledAt), ok, ok).(creator := if ok then Marking else Idle);
            t == s.(cells := s.cells[id := c], calls := s.calls[call := if ok then [id] else []])
  {
    t := Store(max, s, call, id, scheduledAt);
    t := CallMovesOn(max, t, call, id, Decide);
    t := CallMovesOn(max, t, call, id, PublishNew(ok, ok));
  }

  // ---- The scheduler reconciles nothing without a schedule

  /** An unscheduled notification whose publish failed is pending in a working channel, and no run ever sends it. */
  lemma FailedPublishStrands(max: int, now: Time, route: Id -> Channel, rate: nat, id: Id) returns (s: State)
    ensures Reachable(max, s) && id in s.cells && s.cells[id].row.status == Pending
    ensures var c := s.cells[id];
            c.row.scheduledAt.None? && c.published == 0 && c.creator.Idle? && !Deserted(s, route(id))
    ensures forall log :: !Sends(max, s, id, log)
  {
    StartReachable(max, now, route, rate);
    s := Tried(max, Start(now, route, rate), 0, id, None, false);
    ReconciledIffScheduled(max, s, id);
  }

  /** A cancelled notification that a run still sends. */
  lemma CancelledIsStillSent(max: int, now: Time, route: Id -> Channel, rate: nat, id: Id)
    returns (s: State, log: seq<Action>)
    ensures Reachable(max, s) && id in s.cells && s.cells[id].row.status == Cancelled && s.cells[id].sendTimes == []
    ensures Sends(max, s, id, log)
  {
    StartReachable(max, now, route, rate);
    s := Tried(max, Start(now, route, rate), 0, id, None, true);
    var a := Own(id, Cancel(true));
    ReachesNext(max, s, a);
    s := Do(max, s, a);
    SendableIff(max, s, id);
    log :| Sends(max, s, id, log);
  }

  /** Two copies of a row, whatever its schedule, with nothing having failed: its call and the scheduler race. */
  lemma PublishedTwice(max: int, now: Time, route: Id -> Channel, rate: nat, id: Id, at: Time) returns (s: State)
    ensures Reachable(max, s) && id in s.cells && s.cells[id].row.scheduledAt == Some(at)
    ensures var c := s.cells[id];
            c.published >= 2 && c.creator.Marking? && c.failedMarks == 0 && c.strayPublishes == 0
  {
    StartReachable(max, now, route, rate);
    s := Store(max, Start(now, route, rate), 0, id, Some(at));
    ReachableSound(max, s);
    var log := CreatorAndSchedulerRace(max, s, id);
    ReachesAfter(max, s, log);
    Projection(max, s, log, id);
    RowMovesOn(max, s.cells[id], Trace(max, s, log, id));
    s := RunAll(max, s, log);
  }

  // ---- A probe that leaves at the limiter

  /** The notification has these workers, and no retry to wait for. */
  ghost predicate Held(s: State, id: Id, workers: map<Tag, Worker>) {
    id in s.cells && s.cells[id].workers == workers && s.cells[id].row.nextRetryAt.None?
  }

  lemma ReachableConsistent(max: int, s: State)
    requires Reachable(max, s)
    ensures Consistent(s)
  {
    ReachableSound(max, s);
  }

  lemma ClocksAgree(max: int, s: State, id: Id)
    requires Reachable(max, s) && id in s.cells
    ensures s.cells[id].now == s.now
  {
    ReachableConsistent(max, s);
  }

  lemma OwnReaches(max: int, s: State, id: Id, e: Event) returns (t: State)
    requires Reachable(max, s) && Can(s, Own(id, e))
    ensures Reachable(max, t) && Elsewhere(s, t, id) && t.now == s.now && t.cells[id] == Next(max, s.cells[id], e)
    ensures t.lanes(s.route(id)) == LaneNext(s.lanes(s.route(id)), s.now, id, e)
  {
    ReachesNext(max, s, Own(id, e));
    ReachableConsistent(max, s);
    OwnElsewhere(max, s, id, e);
    t := Do(max, s, Own(id, e));
  }

  /** One step of its worker. */
  lemma Drive(max: int, s: State, id: Id, tag: Tag, w: Worker, we: WorkerEvent) returns (t: State)
    requires Reachable(max, s) && Held(s, id, map[tag := w]) && CanWork(s.now, w, we)
    requires !Disposes(we) && !we.Increment? && Gated(s, id, Work(tag, we))
    ensures Reachable(max, t) && Held(t, id, map[tag := Turn(max, s.cells[id].(now := s.now), w, we)])
    ensures Elsewhere(s, t, id) && t.now == s.now
    ensures t.lanes(s.route(id)) == LaneNext(s.lanes(s.route(id)), s.now, id, Work(tag, we))
  {
    ClocksAgree(max, s, id);
    assert s.cells[id].(now := s.now) == s.cells[id];
    t := OwnReaches(max, s, id, Work(tag, we));
    assert t.cells[id].workers == map[tag := Turn(max, s.cells[id], w, we)];
  }

  /** Its last step: the copy goes back to the queue, or to the dead letters. */
  lemma LetGo(max: int, s: State, id: Id, tag: Tag, w: Worker, we: WorkerEvent) returns (t: State)
    requires Reachable(max, s) && Held(s, id, map[tag := w]) && CanWork(s.now, w, we) && Disposes(we)
    ensures Reachable(max, t) && Held(t, id, map[]) && Elsewhere(s, t, id) && t.now == s.now
    ensures t.cells[id].queued == s.cells[id].queued + One(we.Requeue?)
    ensures t.lanes(s.route(id)) == s.lanes(s.route(id))
  {
    ClocksAgree(max, s, id);
    t := OwnReaches(max, s, id, Work(tag, we));
    assert t.cells[id].workers == map[];
  }

  lemma PickUp(max: int, s: State, id: Id) returns (t: State, tag: Tag)
    requires Reachable(max, s) && Held(s, id, map[]) && s.cells[id].queued > 0
    ensures Reachable(max, t) && Held(t, id, map[tag := Fetched]) && Elsewhere(s, t, id) && t.now == s.now
    ensures t.lanes(s.route(id)) == s.lanes(s.route(id))
  {
    tag := FreshTag(s.cells[id].disposed);
    t := OwnReaches(max, s, id, Deliver(tag));
  }

  lemma GetReady(max: int, s: State, id: Id) returns (t: State, tag: Tag, snap: Row)
    requires Reachable(max, s) && Held(s, id, map[]) && s.cells[id].queued > 0
    ensures Reachable(max, t) && Held(t, id, map[tag := Ready(snap)]) && Elsewhere(s, t, id) && t.now == s.now
    ensures t.lanes(s.route(id)) == s.lanes(s.route(id))
  {
    t, tag := PickUp(max, s, id);
    snap := t.cells[id].row;
    t := Drive(max, t, id, tag, Fetched, Load(true));
    t := Drive(max, t, id, tag, Loaded(snap), Check);
  }

  /** Fetch the copy and pass the breaker. */
  lemma TakeOff(max: int, s: State, id: Id) returns (t: State, tag: Tag, snap: Row)
    requires Reachable(max, s) && Held(s, id, map[]) && s.cells[id].queued > 0
    requires CircuitBreaker.Admits(BreakerOf(s, s.route(id)), s.now)
    ensures Reachable(max, t) && Held(t, id, map[tag := Admitted(snap, s.now, None)])
    ensures Elsewhere(s, t, id) && t.now == s.now
    ensures BreakerOf(t, s.route(id)) == CircuitBreaker.Step(BreakerOf(s, s.route(id)), CircuitBreaker.AllowAt(s.now))
  {
    var u;
    u, tag, snap := GetReady(max, s, id);
    t := GetIn(max, u, id, tag, snap);
    ElsewhereOn(s, u, t, id);
  }

  lemma GetIn(max: int, s: State, id: Id, tag: Tag, snap: Row) returns (t: State)
    requires Reachable(max, s) && Held(s, id, map[tag := Ready(snap)])
    requires CircuitBreaker.Admits(BreakerOf(s, s.route(id)), s.now)
    ensures Reachable(max, t) && Held(t, id, map[tag := Admitted(snap, s.now, None)])
    ensures Elsewhere(s, t, id) && t.now == s.now
    ensures BreakerOf(t, s.route(id)) == CircuitBreaker.Step(BreakerOf(s, s.route(id)), CircuitBreaker.AllowAt(s.now))
  {
    var u := Drive(max, s, id, tag, Ready(snap), Begin(true, true));
    t := Drive(max, u, id, tag, Begun(snap), Admit(true));
    ElsewhereOn(s, u, t, id);
  }

  /** Two seconds later the bucket has a token, at any positive rate; at rate zero Redis must fail. */
  lemma Dial(max: int, s: State, id: Id, tag: Tag, snap: Row) returns (t: State)
    requires Reachable(max, s) && Held(s, id, map[tag := Admitted(snap, s.now, None)])
    ensures Reachable(max, t) && Held(t, id, map[tag := Sending(snap)])
    ensures Elsewhere(s, t, id) && t.now == s.now + 2 * SECOND
    ensures BreakerOf(t, s.route(id)) == BreakerOf(s, s.route(id))
  {
    var w := Admitted(snap, s.now, None);
    var u := IdleForToken(max, s, id, tag, w);
    var v := GetThrough(max, u, id, tag, w);
    ElsewhereOn(s, u, v, id);
    t := Drive(max, v, id, tag, Cleared(snap), SendStart);
    ElsewhereOn(s, v, t, id);
  }

  lemma GetThrough(max: int, s: State, id: Id, tag: Tag, w: Worker) returns (t: State)
    requires Reachable(max, s) && Held(s, id, map[tag := w]) && w.Admitted? && w.refused.None? && !HeldUp(s, s.route(id), w)
    ensures Reachable(max, t) && Held(t, id, map[tag := Cleared(w.snap)]) && Elsewhere(s, t, id) && t.now == s.now
    ensures BreakerOf(t, s.route(id)) == BreakerOf(s, s.route(id))
  {
    t := Drive(max, s, id, tag, w, Limit(if s.rate > 0 then Token else Unchecked));
  }

  lemma IdleForToken(max: int, s: State, id: Id, tag: Tag, w: Worker) returns (t: State)
    requires Reachable(max, s) && Held(s, id, map[tag := w]) && w.Admitted? && w.refused.None?
    ensures Reachable(max, t) && Held(t, id, map[tag := w]) && !HeldUp(t, s.route(id), w)
    ensures Elsewhere(s, t, id) && t.now == s.now + 2 * SECOND && t.lanes == s.lanes
  {
    ReachableConsistent(max, s);
    var to := IdlingHelps(max, s, s.route(id), w);
    ReachesNext(max, s, Clock(to));
    t := Do(max, s, Clock(to));
  }

  /** Call the provider, hear that it will never take the message, and report the failure. */
  lemma Crash(max: int, s: State, id: Id, tag: Tag, snap: Row) returns (t: State)
    requires Reachable(max, s) && Held(s, id, map[tag := Sending(snap)])
    ensures Reachable(max, t) && Held(t, id, map[]) && Elsewhere(s, t, id) && t.now == s.now
    ensures BreakerOf(t, s.route(id)) == CircuitBreaker.Step(BreakerOf(s, s.route(id)), CircuitBreaker.FailureAt(s.now))
  {
    t := Drive(max, s, id, tag, Sending(snap), SendDone(NonRetryable, 0));
    t := Drive(max, t, id, tag, Exhausted, MarkFailed(true));
    t := LetGo(max, t, id, tag, Rejecting, Reject);
  }

  /** No worker holds anything, and call numbers from `n` on are free. */
  ghost predicate Resting(s: State, n: nat) {
    (forall x :: x in s.cells ==> s.cells[x].workers == map[]) && (forall c :: c in s.calls ==> c < n)
  }

  /** One more notification is stored, published and refused by the provider. */
  lemma FailNew(max: int, s: State, n: nat, id: Id) returns (t: State)
    requires Reachable(max, s) && Resting(s, n) && id !in s.cells
    requires CircuitBreaker.Admits(BreakerOf(s, s.route(id)), s.now)
    ensures Reachable(max, t) && Resting(t, n + 1) && t.cells.Keys == s.cells.Keys + {id}
    ensures t.now == s.now + 2 * SECOND && t.route == s.route
    ensures BreakerOf(t, s.route(id)) ==
            CircuitBreaker.Step(CircuitBreaker.Step(BreakerOf(s, s.route(id)), CircuitBreaker.AllowAt(s.now)),
                                CircuitBreaker.FailureAt(t.now))
  {
    var u := Tried(max, s, n, id, None, true);
    var tag, snap;
    t, tag, snap := TakeOff(max, u, id);
    var v := Dial(max, t, id, tag, snap);
    ElsewhereOn(u, t, v, id);
    t := Crash(max, v, id, tag, snap);
    ElsewhereOn(u, v, t, id);
    RestsAgain(s, u, t, n, id);
  }

  lemma RestsAgain(s: State, u: State, t: State, n: nat, id: Id)
    requires Resting(s, n) && u.calls == s.calls[n := [id]] && u.cells.Keys == s.cells.Keys + {id}
    requires forall x :: x in s.cells && x != id ==> u.cells[x] == s.cells[x]
    requires Elsewhere(u, t, id) && Held(t, id, map[])
    ensures Resting(t, n + 1)
  {
  }

  /** Ten permanent failures of as many notifications open the breaker of their channel. */
  lemma TenFailures(max: int, now: Time, route: Id -> Channel, rate: nat, ids: seq<Id>) returns (s: State)
    requires |ids| >= 10 && Distinct(ids) && forall i :: 0 <= i < |ids| ==> route(ids[i]) == route(ids[0])
    ensures Reachable(max, s) && Resting(s, 10) && s.route == route
    ensures forall x :: x in s.cells ==> x in ids[..10]
    ensures var b := BreakerOf(s, route(ids[0])); b.state == CircuitBreaker.Open && b.lastFailure == Some(s.now)
  {
    StartReachable(max, now, route, rate);
    s := Start(now, route, rate);
    for i := 0 to 10
      invariant Reachable(max, s) && Resting(s, i) && s.now == now + i * 2 * SECOND && s.route == route
      invariant forall x :: x in s.cells ==> x in ids[..i]
      invariant BreakerOf(s, route(ids[0])) ==
                CircuitBreaker.Breaker(if i < 10 then CircuitBreaker.Closed else CircuitBreaker.Open,
                                       i, 0, i, if i == 0 then None else Some(s.now), now)
    {
      assert route(ids[i]) == route(ids[0]);
      s := FailNew(max, s, i, ids[i]);
      assert ids[..i + 1] == ids[..i] + [ids[i]];
    }
  }

  /**
    Eleven notifications of one channel, at any rate: ten fail for good and open the breaker, the eleventh is let
    through as the probe, and at the limiter the other instances leave it no token until it times out. Its copy is
    live, and no run ever sends it.
  */
  lemma LimiterExitDeserts(max: int, now: Time, route: Id -> Channel, rate: nat, ids: seq<Id>) returns (s: State)
    requires |ids| == 11 && Distinct(ids) && forall i :: 0 <= i < |ids| ==> route(ids[i]) == route(ids[0])
    ensures Reachable(max, s) && ids[10] in s.cells && s.cells[ids[10]].queued > 0 && Deserted(s, route(ids[10]))
    ensures forall log :: !Sends(max, s, ids[10], log)
  {
    var id := ids[10];
    assert route(id) == route(ids[0]);
    s := TenFailures(max, now, route, rate, ids);
    var a := Clock(s.now + CircuitBreaker.TIMEOUT + 1);
    ReachesNext(max, s, a);
    s := Do(max, s, a);
    s := LoseProbe(max, s, id);
    SendableIff(max, s, id);
  }

  /** A notification that becomes the probe of an open breaker, and is starved at the limiter. */
  lemma LoseProbe(max: int, s: State, id: Id) returns (t: State)
    requires Reachable(max, s) && Resting(s, 10) && id !in s.cells
    requires var b := BreakerOf(s, s.route(id)); b.state == CircuitBreaker.Open && CircuitBreaker.TimeoutPassed(b, s.now)
    ensures Reachable(max, t) && t.route == s.route && id in t.cells && t.cells[id].queued > 0 && Deserted(t, s.route(id))
  {
    var tag, snap;
    var u := Tried(max, s, 10, id, None, true);
    var v;
    v, tag, snap := TakeOff(max, u, id);
    t := StarveOut(max, v, id, tag, Admitted(snap, s.now, None));
    ElsewhereOn(u, v, t, id);
    v := t;
    t := LetGo(max, v, id, tag, Requeueing, Requeue);
    ElsewhereOn(u, v, t, id);
  }

  lemma StarveOut(max: int, s: State, id: Id, tag: Tag, w: Worker) returns (t: State)
    requires Reachable(max, s) && Held(s, id, map[tag := w]) && w.Admitted? && w.refused.None?
    ensures Reachable(max, t) && Held(t, id, map[tag := Requeueing]) && Elsewhere(s, t, id)
    ensures BreakerOf(t, s.route(id)) == BreakerOf(s, s.route(id)) && t.cells[id].queued == s.cells[id].queued
  {
    ReachableConsistent(max, s);
    var log;
    log, t := Starve(max, s, Ticket(id, tag));
    assert ValidRun(max, s, log);
    ReachesAfter(max, s, log);
    assert t.cells[id].workers == map[tag := Requeueing];
  }
}
