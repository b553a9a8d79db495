/**
  The whole system: the table with its broker copies and workers (one cell per id), the creating calls in
  progress, the scheduler's polled list, each channel's circuit breaker and limiter history, and the clock.
  Any number of calls and workers interleave with the one scheduler; other instances share the limiters' buckets.
*/
module System {
  import opened Records
  import opened Delivery
  import Scheduler
  import CircuitBreaker
  import TokenBucket

  type CallId = nat

  /** One delivery of one notification. */
  datatype Ticket = Ticket(id: Id, tag: Tag)

  /** A channel's breaker and the delivery whose Allow last made it half-open; when its limiter's script has run. */
  datatype Lane = Lane(breaker: CircuitBreaker.Breaker, prober: Option<Ticket>, requests: seq<int>)

  datatype State = State(
    now: Time,
    cells: map<Id, Cell>,
    calls: map<CallId, seq<Id>>,   // ids each creating call has not finished with, in order
    scheduler: seq<Id>,            // ids the current poll has not finished with, in order
    route: Id -> Channel,          // the channel column, fixed at creation
    rate: nat,                     // tokens per second of each channel's limiter
    lanes: Channel -> Lane)

  datatype Action =
    | Clock(to: Time)
    | Insert(call: CallId, ids: seq<Id>, schedules: seq<Option<Time>>)   // Create, or a committed CreateBatch
    | CallStep(call: CallId, e: Event)
    | PollRows(ids: seq<Id>)
    | SchedulerStep(e: Event)
    | Own(id: Id, e: Event)
    | OtherInstance(ch: Channel, granted: bool)   // another instance of the service asks the channel's bucket

  function Start(now: Time, route: Id -> Channel, rate: nat): State {
    State(now, map[], map[], [], route, rate, _ => Lane(CircuitBreaker.New(now), None, []))
  }

  // ---- The breakers and the limiters

  function BreakerOf(s: State, ch: Channel): CircuitBreaker.Breaker {
    s.lanes(ch).breaker
  }

  /** The channel's bucket has a token for a request made now. */
  predicate HasToken(s: State, ch: Channel) {
    var requests := s.lanes(ch).requests;
    TokenBucket.Granted(s.rate, requests + [Micros(s.now)], |requests|)
  }

  /** Process asks the breaker and the limiter of its channel, and gets their answers. */
  predicate Gated(s: State, id: Id, e: Event) {
    e.Work? ==>
      match e.what
      case Admit(allowed) => allowed == CircuitBreaker.Admits(BreakerOf(s, s.route(id)), s.now)
      case Limit(Token) => HasToken(s, s.route(id))
      case Limit(Refusal) => !HasToken(s, s.route(id))
      case _ => true
  }

  /**
    The calls in a worker's step: on the breaker, Allow when it asks and one Record when the provider has answered;
    on the limiter, a run of the script for a token or a refusal.
  */
  function LaneNext(l: Lane, now: Time, id: Id, e: Event): Lane {
    match e
    case Work(tag, Admit(allowed)) =>
      var b := CircuitBreaker.Step(l.breaker, CircuitBreaker.AllowAt(now));
      l.(breaker := b,
         prober := if allowed && b.state == CircuitBreaker.HalfOpen then Some(Ticket(id, tag)) else l.prober)
    case Work(_, SendDone(outcome, _)) =>
      l.(breaker := CircuitBreaker.Step(l.breaker, if outcome.Accept? then CircuitBreaker.SuccessAt(now)
                                                   else CircuitBreaker.FailureAt(now)))
    case Work(_, Limit(how)) => if how.Token? || how.Refusal? then LaneAsked(l, now) else l
    case _ => l
  }

  function LanesNext(s: State, id: Id, e: Event): Channel -> Lane {
    (ch: Channel) => if ch == s.route(id) then LaneNext(s.lanes(ch), s.now, id, e) else s.lanes(ch)
  }

  /** The script runs once more on the channel's bucket. */
  function LaneAsked(l: Lane, now: Time): Lane {
    l.(requests := l.requests + [Micros(now)])
  }

  function LanesAsked(s: State, ch: Channel): Channel -> Lane {
    (x: Channel) => if x == ch then LaneAsked(s.lanes(x), s.now) else s.lanes(x)
  }

  // ---- The machine

  /** The scheduled rows as the scheduler's query sees them. */
  function Jobs(cells: map<Id, Cell>): Scheduler.Table {
    map id | id in cells && cells[id].row.scheduledAt.Some? ::
      Scheduler.Job(cells[id].row.status == Pending, cells[id].row.scheduledAt.value)
  }

  /** A list the query may return: the earliest due pending rows, in order, at most `limit`. */
  ghost predicate ReadyList(cells: map<Id, Cell>, now: Time, limit: nat, ids: seq<Id>) {
    Scheduler.Answer(Jobs(cells), now, limit, ids)
  }

  lemma ReadyListRows(cells: map<Id, Cell>, now: Time, limit: nat, ids: seq<Id>)
    requires ReadyList(cells, now, limit, ids)
    ensures Distinct(ids)
    ensures forall id :: id in ids ==> id in cells && ScheduledReady(cells[id].row, now)
  {
    forall id | id in ids ensures id in cells && ScheduledReady(cells[id].row, now) {
      var i :| 0 <= i < |ids| && ids[i] == id;
      assert ids[i] in Scheduler.Due(Jobs(cells), now);
    }
  }

  predicate CreatorEvent(e: Event) { e.Decide? || e.PublishNew? || e.MarkNew? }
  predicate SchedulerEvent(e: Event) { e.PublishDue? || e.MarkDue? }
  predicate OwnEvent(e: Event) { e.Cancel? || e.Deliver? || e.Work? }

  ghost predicate Can(s: State, a: Action) {
    match a
    case Clock(to) => s.now <= to
    case Insert(call, ids, schedules) =>
      call !in s.calls && |ids| == |schedules| && Distinct(ids) && forall i :: 0 <= i < |ids| ==> ids[i] !in s.cells
    case CallStep(call, e) =>
      call in s.calls && s.calls[call] != [] && CreatorEvent(e)
      && s.calls[call][0] in s.cells && Enabled(s.cells[s.calls[call][0]], e)
    case PollRows(ids) => s.scheduler == [] && ReadyList(s.cells, s.now, Scheduler.POLL_LIMIT, ids)
    case SchedulerStep(e) =>
      s.scheduler != [] && SchedulerEvent(e) && s.scheduler[0] in s.cells && Enabled(s.cells[s.scheduler[0]], e)
    case Own(id, e) => OwnEvent(e) && id in s.cells && Enabled(s.cells[id], e) && Gated(s, id, e)
    case OtherInstance(ch, granted) => granted == HasToken(s, ch)
  }

  function IndexOf(ids: seq<Id>, id: Id): (i: nat)
    requires id in ids
    ensures i < |ids| && ids[i] == id
  {
    if ids[0] == id then 0 else 1 + IndexOf(ids[1..], id)
  }

  /** The rows a committed insert adds, each with its own schedule. */
  function Inserted(now: Time, ids: seq<Id>, schedules: seq<Option<Time>>): (rows: map<Id, Cell>)
    requires |ids| == |schedules|
    ensures forall id :: id in rows <==> id in ids
    ensures forall id :: id in rows ==> rows[id] == Fresh(now, schedules[IndexOf(ids, id)])
  {
    map id | id in ids :: Fresh(now, schedules[IndexOf(ids, id)])
  }

  ghost function Do(max: int, s: State, a: Action): State
    requires Can(s, a)
  {
    match a
    case Clock(to) => s.(now := to, cells := map id | id in s.cells :: s.cells[id].(now := to))
    case Insert(call, ids, schedules) =>
      s.(cells := s.cells + Inserted(s.now, ids, schedules), calls := s.calls[call := ids])
    case CallStep(call, e) =>
      var id := s.calls[call][0];
      var d := Next(max, s.cells[id], e);
      s.(cells := s.cells[id := d],
         calls := if d.creator.Idle? then s.calls[call := s.calls[call][1..]] else s.calls)
    case PollRows(ids) =>
      s.(cells := map id | id in s.cells :: if id in ids then s.cells[id].(poller := Listed) else s.cells[id],
         scheduler := ids)
    case SchedulerStep(e) =>
      var id := s.scheduler[0];
      var d := Next(max, s.cells[id], e);
      s.(cells := s.cells[id := d], scheduler := if d.poller.Idle? then s.scheduler[1..] else s.scheduler)
    case Own(id, e) => s.(cells := s.cells[id := Next(max, s.cells[id], e)], lanes := LanesNext(s, id, e))
    case OtherInstance(ch, _) => s.(lanes := LanesAsked(s, ch))
  }

  ghost predicate ValidRun(max: int, s: State, log: seq<Action>)
    decreases |log|
  {
    log == [] || (Can(s, log[0]) && ValidRun(max, Do(max, s, log[0]), log[1..]))
  }

  ghost function RunAll(max: int, s: State, log: seq<Action>): State
    requires ValidRun(max, s, log)
    decreases |log|
  {
    if log == [] then s else RunAll(max, Do(max, s, log[0]), log[1..])
  }

  /** The run `log` goes from `s` to `t`. (Quantified so that a proof unfolds the run only where it names it.) */
  ghost predicate Goes(max: int, s: State, log: seq<Action>, t: State) {
    forall es :: es == log ==> ValidRun(max, s, es) && RunAll(max, s, es) == t
  }

  lemma {:induction false} RunAllAppend(max: int, s: State, log: seq<Action>, more: seq<Action>)
    requires ValidRun(max, s, log)
    requires ValidRun(max, RunAll(max, s, log), more)
    ensures ValidRun(max, s, log + more)
    ensures RunAll(max, s, log + more) == RunAll(max, RunAll(max, s, log), more)
    decreases |log|
  {
    if log == [] {
      assert log + more == more;
    } else {
      RunAllAppend(max, Do(max, s, log[0]), log[1..], more);
      assert (log + more)[1..] == log[1..] + more;
    }
  }

  lemma RunAllCons(max: int, s: State, a: Action, log: seq<Action>)
    requires Can(s, a) && ValidRun(max, Do(max, s, a), log)
    ensures ValidRun(max, s, [a] + log) && RunAll(max, s, [a] + log) == RunAll(max, Do(max, s, a), log)
  {
    assert ([a] + log)[1..] == log;
  }

  lemma GoesCons(max: int, s: State, a: Action, log: seq<Action>, t: State)
    requires Can(s, a) && Goes(max, Do(max, s, a), log, t)
    ensures Goes(max, s, [a] + log, t)
  {
    assert ValidRun(max, Do(max, s, a), log);
    RunAllCons(max, s, a, log);
  }

  lemma GoesOn(max: int, s: State, log: seq<Action>, t: State, more: seq<Action>, u: State)
    requires Goes(max, s, log, t) && Goes(max, t, more, u)
    ensures Goes(max, s, log + more, u)
  {
    assert ValidRun(max, s, log) && ValidRun(max, t, more);
    RunAllAppend(max, s, log, more);
  }

  // ---- Consistency of the publishers' lists with the cells

  ghost predicate Consistent(s: State) {
    Tracked(s) && AllLogged(s)
  }

  ghost predicate Tracked(s: State) {
    && (forall id :: id in s.cells ==> s.cells[id].now == s.now)
    && SchedulerTracked(s)
    && CallsTracked(s)
  }

  ghost predicate AllLogged(s: State) {
    forall ch :: Logged(s, ch)
  }

  /** The script runs on the channel's bucket are in order, none later than now. */
  ghost predicate Logged(s: State, ch: Channel) {
    Ascending(s.lanes(ch).requests) && forall i :: 0 <= i < |s.lanes(ch).requests| ==> s.lanes(ch).requests[i] <= Micros(s.now)
  }

  lemma LoggedStep(max: int, s: State, a: Action, ch: Channel)
    requires Can(s, a) && Logged(s, ch)
    ensures Logged(Do(max, s, a), ch)
  {
  }

  /** At a positive rate a bucket that nobody has asked for its time to live has a token. */
  lemma TokenAfterIdle(s: State, ch: Channel)
    requires Logged(s, ch) && s.rate > 0
    requires var asked := s.lanes(ch).requests; asked != [] ==> asked[|asked| - 1] + TokenBucket.TTL <= Micros(s.now)
    ensures HasToken(s, ch)
  {
    var asked := s.lanes(ch).requests;
    if asked != [] {
      TokenBucket.FullAfterTtl(s.rate, asked + [Micros(s.now)], |asked|);
    }
  }

  /** Exactly the rows on the scheduler's list are in its hands, each once. */
  ghost predicate SchedulerTracked(s: State) {
    && Distinct(s.scheduler)
    && (forall id :: id in s.scheduler ==> id in s.cells && (id != s.scheduler[0] ==> s.cells[id].poller.Listed?))
    && (forall id :: id in s.cells ==> (s.cells[id].poller.Idle? <==> id !in s.scheduler) && !s.cells[id].poller.Publishing?)
  }

  /** Each call owns the ids on its list; only the first is past the future-schedule test. */
  ghost predicate CallsTracked(s: State) {
    && (forall c :: c in s.calls ==> Distinct(s.calls[c]))
    && (forall c, i :: c in s.calls && 0 <= i < |s.calls[c]| ==>
          s.calls[c][i] in s.cells
          && if i == 0 then !s.cells[s.calls[c][i]].creator.Idle? else s.cells[s.calls[c][i]].creator.Listed?)
    && (forall c, d, id :: c in s.calls && d in s.calls && id in s.calls[c] && id in s.calls[d] ==> c == d)
    && (forall id :: id in s.cells && !s.cells[id].creator.Idle? ==> Owned(s, id))
  }

  /** Some creating call still has this id on its list. */
  ghost predicate Owned(s: State, id: Id) {
    exists c :: c in s.calls && id in s.calls[c]
  }

  /** A step that is not the scheduler's leaves the poller alone, one that is not the creator's the creator. */
  lemma TasksFrame(max: int, c: Cell, e: Event)
    requires Enabled(c, e)
    ensures !SchedulerEvent(e) && !e.Poll? ==> Next(max, c, e).poller == c.poller
    ensures !CreatorEvent(e) ==> Next(max, c, e).creator == c.creator && Next(max, c, e).skipped == c.skipped
    ensures Next(max, c, e).now == if e.Tick? then e.to else c.now
    ensures CreatorEvent(e) ==> !Next(max, c, e).creator.Listed?
    ensures SchedulerEvent(e) ==> !Next(max, c, e).poller.Listed? && !Next(max, c, e).poller.Publishing?
    ensures Next(max, c, e).row.scheduledAt == c.row.scheduledAt
  {
  }

  lemma CallsFrame(s: State, t: State)
    requires CallsTracked(s) && t.calls == s.calls && t.cells.Keys == s.cells.Keys
    requires forall id :: id in s.cells ==> t.cells[id].creator == s.cells[id].creator
    ensures CallsTracked(t)
  {
    assert forall id :: Owned(s, id) ==> Owned(t, id);
  }

  lemma SchedulerFrame(s: State, t: State)
    requires SchedulerTracked(s) && t.scheduler == s.scheduler && t.cells.Keys == s.cells.Keys
    requires forall id :: id in s.cells ==> t.cells[id].poller == s.cells[id].poller
    ensures SchedulerTracked(t)
  {
  }

  lemma CallMoves(s: State, t: State, call: CallId, d: Cell)
    requires CallsTracked(s) && call in s.calls && s.calls[call] != [] && !d.creator.Listed?
    requires t.cells == s.cells[s.calls[call][0] := d]
    requires t.calls == if d.creator.Idle? then s.calls[call := s.calls[call][1..]] else s.calls
    ensures CallsTracked(t)
  {
    var id := s.calls[call][0];
    assert id in s.calls[call];
    forall c, i | c in t.calls && 0 <= i < |t.calls[c]|
      ensures t.calls[c][i] in t.cells
      ensures if i == 0 then !t.cells[t.calls[c][i]].creator.Idle? else t.cells[t.calls[c][i]].creator.Listed?
    {
      if c == call && d.creator.Idle? {
        assert t.calls[c][i] == s.calls[c][i + 1];
      } else {
        assert s.calls[c][i] in s.calls[c];
      }
    }
    assert forall c, x :: c in t.calls && x in t.calls[c] ==> x in s.calls[c];
    forall x | x in t.cells && !t.cells[x].creator.Idle? ensures Owned(t, x) {
      assert Owned(s, x) by {
        assert x == id ==> id in s.calls[call];
      }
      var c :| c in s.calls && x in s.calls[c];
      assert x != id ==> x in s.calls[c][1..] || x == s.calls[c][0];
      assert x in t.calls[c];
    }
  }

  lemma CallStepTracked(max: int, s: State, call: CallId, e: Event)
    requires Tracked(s) && Can(s, CallStep(call, e))
    ensures Tracked(Do(max, s, CallStep(call, e)))
  {
    var id := s.calls[call][0];
    var t, d := Do(max, s, CallStep(call, e)), Next(max, s.cells[id], e);
    TasksFrame(max, s.cells[id], e);
    assert t.cells == s.cells[id := d] && t.cells.Keys == s.cells.Keys;
    assert d.now == s.now && d.poller == s.cells[id].poller;
    SchedulerFrame(s, t);
    CallMoves(s, t, call, d);
  }

  lemma SchedulerMoves(s: State, t: State, d: Cell)
    requires SchedulerTracked(s) && s.scheduler != [] && !d.poller.Listed? && !d.poller.Publishing?
    requires t.cells == s.cells[s.scheduler[0] := d]
    requires t.scheduler == if d.poller.Idle? then s.scheduler[1..] else s.scheduler
    ensures SchedulerTracked(t)
  {
    var id, rest := s.scheduler[0], s.scheduler[1..];
    assert id in s.scheduler && id !in rest;
    assert forall x :: x in rest <==> x in s.scheduler && x != id;
  }

  lemma SchedulerStepTracked(max: int, s: State, e: Event)
    requires Tracked(s) && Can(s, SchedulerStep(e))
    ensures Tracked(Do(max, s, SchedulerStep(e)))
  {
    var id := s.scheduler[0];
    TasksFrame(max, s.cells[id], e);
    var t := Do(max, s, SchedulerStep(e));
    assert t.cells.Keys == s.cells.Keys;
    CallsFrame(s, t);
    SchedulerMoves(s, t, Next(max, s.cells[id], e));
  }

  lemma OwnTracked(max: int, s: State, id: Id, e: Event)
    requires Tracked(s) && Can(s, Own(id, e))
    ensures Tracked(Do(max, s, Own(id, e)))
  {
    TasksFrame(max, s.cells[id], e);
    var t := Do(max, s, Own(id, e));
    assert t.cells.Keys == s.cells.Keys;
    CallsFrame(s, t);
    SchedulerFrame(s, t);
  }

  lemma InsertKeeps(max: int, s: State, call: CallId, ids: seq<Id>, schedules: seq<Option<Time>>)
    requires Can(s, Insert(call, ids, schedules))
    ensures var t := Do(max, s, Insert(call, ids, schedules));
            && (forall id :: id in s.cells ==> id in t.cells && t.cells[id] == s.cells[id])
            && (forall id :: id in ids ==> id in t.cells)
            && (forall id :: id in t.cells && id !in s.cells ==>
                  id in ids && t.cells[id].creator.Listed? && t.cells[id].poller.Idle? && t.cells[id].now == s.now)
  {
    var rows := Inserted(s.now, ids, schedules);
    assert forall id :: id in s.cells ==> id !in rows;
  }

  /** A stored batch: any rows with fresh ids, each with its own schedule, all still to be published by the call. */
  lemma BatchStored(max: int, s: State, call: CallId, ids: seq<Id>, schedules: seq<Option<Time>>)
    requires call !in s.calls && |ids| == |schedules|
    requires forall i, j :: 0 <= i < j < |ids| ==> ids[i] != ids[j]
    requires forall i :: 0 <= i < |ids| ==> ids[i] !in s.cells
    ensures Can(s, Insert(call, ids, schedules))
    ensures var t := Do(max, s, Insert(call, ids, schedules));
            && t.calls == s.calls[call := ids]
            && t.now == s.now && t.scheduler == s.scheduler && t.route == s.route && t.rate == s.rate && t.lanes == s.lanes
            && (forall i :: 0 <= i < |ids| ==> ids[i] in t.cells && t.cells[ids[i]] == Fresh(s.now, schedules[i]))
            && (forall id :: id in s.cells ==> id in t.cells && t.cells[id] == s.cells[id])
            && (forall id :: id in t.cells ==> id in s.cells || id in ids)
  {
    var t := Do(max, s, Insert(call, ids, schedules));
    InsertKeeps(max, s, call, ids, schedules);
    forall i | 0 <= i < |ids| ensures ids[i] in t.cells && t.cells[ids[i]] == Fresh(s.now, schedules[i]) {
      assert ids[i] in ids && IndexOf(ids, ids[i]) == i;
    }
  }

  lemma InsertTracked(max: int, s: State, call: CallId, ids: seq<Id>, schedules: seq<Option<Time>>)
    requires Tracked(s) && Can(s, Insert(call, ids, schedules))
    ensures Tracked(Do(max, s, Insert(call, ids, schedules)))
  {
    var t := Do(max, s, Insert(call, ids, schedules));
    InsertKeeps(max, s, call, ids, schedules);
    InsertCalls(s, t, call, ids);
    InsertScheduler(s, t);
  }

  lemma InsertScheduler(s: State, t: State)
    requires SchedulerTracked(s) && t.scheduler == s.scheduler
    requires forall id :: id in s.cells ==> id in t.cells && t.cells[id] == s.cells[id]
    requires forall id :: id in t.cells && id !in s.cells ==> t.cells[id].poller.Idle?
    ensures SchedulerTracked(t)
  {
  }

  lemma InsertCalls(s: State, t: State, call: CallId, ids: seq<Id>)
    requires CallsTracked(s) && t.calls == s.calls[call := ids] && call !in s.calls && Distinct(ids)
    requires forall id :: id in s.cells ==> id in t.cells && t.cells[id] == s.cells[id]
    requires forall id :: id in ids ==> id !in s.cells && id in t.cells && t.cells[id].creator.Listed?
    requires forall id :: id in t.cells && id !in s.cells ==> id in ids
    ensures CallsTracked(t)
  {
    forall id | id in t.cells && !t.cells[id].creator.Idle? ensures Owned(t, id) {
      if id in s.cells {
        var c :| c in s.calls && id in s.calls[c];
        assert c in t.calls && id in t.calls[c];
      } else {
        assert call in t.calls && id in t.calls[call];
      }
    }
    forall c, i | c in t.calls && 0 <= i < |t.calls[c]|
      ensures t.calls[c][i] in t.cells
      ensures if i == 0 then !t.cells[t.calls[c][i]].creator.Idle? else t.cells[t.calls[c][i]].creator.Listed?
    {
      assert t.calls[c][i] in t.calls[c];
      assert c != call ==> s.calls[c][i] in s.cells;
    }
    assert forall c, id :: c in s.calls && id in s.calls[c] ==> id in s.cells;
  }

  lemma PollTracked(max: int, s: State, ids: seq<Id>)
    requires Tracked(s) && Can(s, PollRows(ids))
    ensures Tracked(Do(max, s, PollRows(ids)))
  {
    ReadyListRows(s.cells, s.now, Scheduler.POLL_LIMIT, ids);
    CallsFrame(s, Do(max, s, PollRows(ids)));
  }

  lemma TrackedStep(max: int, s: State, a: Action)
    requires Tracked(s) && Can(s, a)
    ensures Tracked(Do(max, s, a))
  {
    match a
    case Clock(to) =>
    case Insert(call, ids, schedules) => InsertTracked(max, s, call, ids, schedules);
    case CallStep(call, e) => CallStepTracked(max, s, call, e);
    case PollRows(ids) => PollTracked(max, s, ids);
    case SchedulerStep(e) => SchedulerStepTracked(max, s, e);
    case Own(id, e) => OwnTracked(max, s, id, e);
    case OtherInstance(ch, granted) => CallsFrame(s, Do(max, s, a));
  }

  lemma ConsistentStep(max: int, s: State, a: Action)
    requires Consistent(s) && Can(s, a)
    ensures Consistent(Do(max, s, a))
  {
    TrackedStep(max, s, a);
    forall ch ensures Logged(Do(max, s, a), ch) {
      LoggedStep(max, s, a, ch);
    }
  }

  /** No publisher is ever stuck: whatever is first on its list has a step to take. */
  lemma PublishersCanMove(s: State)
    requires Consistent(s)
    ensures forall c :: c in s.calls && s.calls[c] != [] ==> exists e :: Can(s, CallStep(c, e))
    ensures s.scheduler != [] ==> exists e :: Can(s, SchedulerStep(e))
  {
    forall c | c in s.calls && s.calls[c] != [] ensures exists e :: Can(s, CallStep(c, e)) {
      var task := s.cells[s.calls[c][0]].creator;
      var e := if task.Listed? then Decide else if task.Publishing? then PublishNew(true, true) else MarkNew(true);
      assert Can(s, CallStep(c, e));
    }
    if s.scheduler != [] {
      assert s.scheduler[0] in s.scheduler;
      var task := s.cells[s.scheduler[0]].poller;
      assert Can(s, SchedulerStep(if task.Listed? then PublishDue(true, true) else MarkDue(true)));
    }
  }
}
