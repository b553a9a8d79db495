/**
  How the publishers get to a row, with everybody else's rows in the way: runs that end with the creating call or
  the scheduler at work on it. And how often a row can be published when nothing fails.
*/
module Publication {
  import opened Records
  import opened Delivery
  import opened System
  import opened Ledger
  import opened Guarantees
  import Scheduler

  /** A run of the publishers and the clock: it adds no row and touches no breaker. */
  ghost predicate Leads(max: int, s: State, log: seq<Action>, t: State) {
    && Goes(max, s, log, t) && (forall i :: 0 <= i < |log| ==> !log[i].Own?)
    && Consistent(t) && t.cells.Keys == s.cells.Keys && t.route == s.route && t.rate == s.rate && t.lanes == s.lanes
  }

  lemma LeadsNowhere(max: int, s: State)
    requires Consistent(s)
    ensures Leads(max, s, [], s)
  {
  }

  lemma LeadsStep(max: int, s: State, a: Action)
    requires Consistent(s) && Can(s, a) && !a.Own? && !a.Insert? && !a.OtherInstance?
    ensures Leads(max, s, [a], Do(max, s, a))
  {
    ConsistentStep(max, s, a);
    RunAllCons(max, s, a, []);
    assert [a] + [] == [a];
    if a.CallStep? {
      assert Do(max, s, a).cells.Keys == s.cells.Keys + {s.calls[a.call][0]};
    } else if a.SchedulerStep? {
      assert Do(max, s, a).cells.Keys == s.cells.Keys + {s.scheduler[0]};
    }
  }

  lemma LeadsOn(max: int, s: State, log: seq<Action>, t: State, more: seq<Action>, u: State)
    requires Leads(max, s, log, t) && Leads(max, t, more, u)
    ensures Leads(max, s, log + more, u)
  {
    GoesOn(max, s, log, t, more, u);
  }

  lemma WaitUntil(max: int, s: State, id: Id, at: Time) returns (log: seq<Action>, t: State)
    requires Consistent(s) && id in s.cells
    ensures Leads(max, s, log, t) && t.now == Max(s.now, at) && t.cells[id] == s.cells[id].(now := t.now)
    ensures t.calls == s.calls && t.scheduler == s.scheduler
    ensures forall x :: x in s.cells ==> t.cells[x].row == s.cells[x].row
  {
    var a := Clock(Max(s.now, at));
    LeadsStep(max, s, a);
    log, t := [a], Do(max, s, a);
  }

  // ---- The scheduler's list

  /** The poll is about to publish this row. */
  predicate Heads(s: State, id: Id) {
    s.scheduler != [] && s.scheduler[0] == id && id in s.cells && s.cells[id].poller.Listed?
  }

  /** The failing step that makes the poll drop whatever is first on its list. */
  ghost function Skip(s: State): Event
    requires SchedulerTracked(s) && s.scheduler != []
  {
    if s.cells[s.scheduler[0]].poller.Listed? then PublishDue(false, false) else MarkDue(false)
  }

  lemma SkipHead(max: int, s: State) returns (log: seq<Action>, t: State)
    requires Consistent(s) && s.scheduler != []
    ensures Leads(max, s, log, t) && t.scheduler == s.scheduler[1..] && t.now == s.now
    ensures forall id :: id in s.cells && id != s.scheduler[0] ==> t.cells[id] == s.cells[id]
    ensures forall id :: id in s.cells ==> t.cells[id].row == s.cells[id].row && t.cells[id].sendTimes == s.cells[id].sendTimes
    ensures t.cells[s.scheduler[0]].poller.Idle?
  {
    assert s.scheduler[0] in s.scheduler;
    var a := SchedulerStep(Skip(s));
    LeadsStep(max, s, a);
    log, t := [a], Do(max, s, a);
  }

  lemma {:induction false} ListedToHead(max: int, s: State, id: Id) returns (log: seq<Action>, t: State)
    requires Consistent(s) && id in s.cells && s.cells[id].poller.Listed?
    ensures Leads(max, s, log, t) && Heads(t, id) && t.cells[id] == s.cells[id] && t.now == s.now
    decreases |s.scheduler|
  {
    assert id in s.scheduler;
    if s.scheduler[0] == id {
      LeadsNowhere(max, s);
      log, t := [], s;
    } else {
      var skip, u := SkipHead(max, s);
      log, t := ListedToHead(max, u, id);
      LeadsOn(max, s, skip, u, log, t);
      log := skip + log;
    }
  }

  /** The other rows that a poll could take instead. */
  ghost function Rivals(s: State, id: Id): set<Id> {
    set x | x in s.cells && x != id && s.cells[x].row.status == Pending
  }

  lemma RivalLess(s: State, t: State, id: Id, x: Id)
    requires x in s.cells && x != id && s.cells[x].row.status == Pending && t.cells.Keys == s.cells.Keys
    requires t.cells[x].row.status != Pending
    requires forall y :: y in s.cells && y != x ==> t.cells[y].row == s.cells[y].row
    ensures |Rivals(t, id)| < |Rivals(s, id)|
  {
    assert Rivals(t, id) == Rivals(s, id) - {x};
  }

  lemma PollLists(max: int, s: State, ids: seq<Id>) returns (log: seq<Action>, t: State)
    requires Consistent(s) && Can(s, PollRows(ids)) && ids != []
    ensures Leads(max, s, log, t) && t.scheduler == ids && t.now == s.now
    ensures forall id :: id in s.cells ==> t.cells[id] == if id in ids then s.cells[id].(poller := Listed) else s.cells[id]
    ensures Heads(t, ids[0]) && s.cells[ids[0]].row.status == Pending
  {
    ReadyListRows(s.cells, s.now, Scheduler.POLL_LIMIT, ids);
    LeadsStep(max, s, PollRows(ids));
    assert ids[0] in ids;
    log, t := [PollRows(ids)], Do(max, s, PollRows(ids));
  }

  /** The poll publishes the first row on its list. */
  lemma PublishHead(max: int, s: State, id: Id) returns (log: seq<Action>, t: State)
    requires Consistent(s) && Heads(s, id)
    ensures Leads(max, s, log, t) && t.now == s.now && t.scheduler == s.scheduler
    ensures t.cells == s.cells[id := Publish(s.cells[id], true, true).(poller := Marking)]
  {
    var a := SchedulerStep(PublishDue(true, true));
    LeadsStep(max, s, a);
    log, t := [a], Do(max, s, a);
  }

  /** It publishes and marks it. */
  lemma SettleHead(max: int, s: State, id: Id) returns (log: seq<Action>, t: State)
    requires Consistent(s) && Heads(s, id)
    ensures Leads(max, s, log, t) && t.now == s.now && t.cells[id].row.status == Queued
    ensures forall x :: x in s.cells && x != id ==> t.cells[x] == s.cells[x]
  {
    var u;
    log, u := PublishHead(max, s, id);
    var a := SchedulerStep(MarkDue(true));
    LeadsStep(max, u, a);
    t := Do(max, u, a);
    LeadsOn(max, s, log, u, [a], t);
    log := log + [a];
  }

  /** A poll that lists other rows publishes and marks one of them, so that one rival less is pending. */
  lemma PollDrains(max: int, s: State, id: Id, ids: seq<Id>) returns (log: seq<Action>, t: State)
    requires Consistent(s) && id in s.cells && id !in ids && ids != [] && Can(s, PollRows(ids))
    ensures Leads(max, s, log, t) && t.cells[id] == s.cells[id] && t.now == s.now && |Rivals(t, id)| < |Rivals(s, id)|
  {
    var u, settle;
    log, u := PollLists(max, s, ids);
    settle, t := SettleHead(max, u, ids[0]);
    LeadsOn(max, s, log, u, settle, t);
    log := log + settle;
    RivalLess(s, t, id, ids[0]);
  }

  /** The scheduler polls a pending row that has a schedule, however many rows compete: it publishes and marks them. */
  lemma {:induction false} PendingToHead(max: int, s: State, id: Id) returns (log: seq<Action>, t: State)
    requires Consistent(s) && id in s.cells && s.cells[id].poller.Idle?
    requires s.cells[id].row.status == Pending && s.cells[id].row.scheduledAt.Some?
    ensures Leads(max, s, log, t) && Heads(t, id) && t.cells[id] == s.cells[id].(now := t.now, poller := Listed)
    decreases |Rivals(s, id)|, !Reached(s.cells[id].row.scheduledAt, s.now), |s.scheduler|
  {
    var u, more;
    if s.scheduler != [] {
      log, u := SkipHead(max, s);
      assert Rivals(u, id) == Rivals(s, id);
      more, t := PendingToHead(max, u, id);
    } else if !Reached(s.cells[id].row.scheduledAt, s.now) {
      log, u := WaitUntil(max, s, id, s.cells[id].row.scheduledAt.value);
      assert Rivals(u, id) == Rivals(s, id);
      more, t := PendingToHead(max, u, id);
    } else {
      var ids := Scheduler.AnswerExists(Jobs(s.cells), s.now, Scheduler.POLL_LIMIT);
      assert id in Scheduler.Due(Jobs(s.cells), s.now);
      if id in ids {
        log, u := PollLists(max, s, ids);
        more, t := ListedToHead(max, u, id);
      } else {
        log, u := PollDrains(max, s, id, ids);
        more, t := PendingToHead(max, u, id);
      }
    }
    LeadsOn(max, s, log, u, more, t);
    log := log + more;
  }

  // ---- The creating call's list

  function TaskRank(t: Task): nat {
    match t
    case Listed => 3
    case Publishing => 2
    case Marking => 1
    case Idle => 0
  }

  /** The next step of the call: publish `id` when its turn comes, fail everything before it. */
  ghost function CallStepToward(s: State, call: CallId, id: Id): Event
    requires CallsTracked(s) && call in s.calls && s.calls[call] != []
  {
    var first := s.calls[call][0];
    match s.cells[first].creator
    case Listed => Decide
    case Publishing => PublishNew(first == id, first == id)
    case _ => MarkNew(false)
  }

  /** A row of which the call has not said the last word. */
  ghost predicate OnCall(s: State, id: Id, call: CallId) {
    && id in s.cells && call in s.calls && id in s.calls[call]
    && (s.cells[id].creator.Listed? || s.cells[id].creator.Publishing?)
  }

  lemma CallAdvances(max: int, s: State, id: Id, call: CallId) returns (log: seq<Action>, t: State)
    requires Consistent(s) && OnCall(s, id, call) && Reached(s.cells[id].row.scheduledAt, s.now)
    ensures Leads(max, s, log, t) && t.now == s.now
    ensures var first := s.calls[call][0];
            t.cells[id] == if first != id then s.cells[id]
                           else if s.cells[id].creator.Listed? then s.cells[id].(creator := Publishing)
                           else Publish(s.cells[id], true, true).(creator := Marking)
    ensures var first := s.calls[call][0];
            first != id || s.cells[id].creator.Listed? ==>
              && OnCall(t, id, call)
              && (|t.calls[call]| < |s.calls[call]|
                  || (t.calls[call] == s.calls[call] && TaskRank(t.cells[first].creator) < TaskRank(s.cells[first].creator)))
  {
    var first, a := s.calls[call][0], CallStep(call, CallStepToward(s, call, id));
    assert first in s.calls[call];
    assert first != id ==> id in s.calls[call][1..];
    LeadsStep(max, s, a);
    log, t := [a], Do(max, s, a);
  }

  /** The call reaches the row and publishes it, whatever comes before it on its list. */
  lemma {:induction false} CallPublishes(max: int, s: State, id: Id, call: CallId) returns (log: seq<Action>, t: State)
    requires Consistent(s) && OnCall(s, id, call) && Reached(s.cells[id].row.scheduledAt, s.now)
    ensures Leads(max, s, log, t) && t.now == s.now
    ensures t.cells[id] == Publish(s.cells[id], true, true).(creator := Marking)
    decreases |s.calls[call]|, TaskRank(s.cells[s.calls[call][0]].creator)
  {
    var u;
    log, u := CallAdvances(max, s, id, call);
    t := u;
    if s.calls[call][0] != id || s.cells[id].creator.Listed? {
      var more;
      more, t := CallPublishes(max, u, id, call);
      LeadsOn(max, s, log, u, more, t);
      log := log + more;
    }
  }

  lemma CallPublishesWhenDue(max: int, s: State, id: Id, call: CallId) returns (log: seq<Action>, t: State)
    requires Consistent(s) && OnCall(s, id, call)
    ensures Leads(max, s, log, t)
    ensures t.cells[id] == Publish(s.cells[id], true, true).(creator := Marking, now := t.now)
  {
    var u, more;
    log, u := WaitOnCall(max, s, id, call);
    more, t := CallPublishes(max, u, id, call);
    LeadsOn(max, s, log, u, more, t);
    log := log + more;
  }

  lemma WaitOnCall(max: int, s: State, id: Id, call: CallId) returns (log: seq<Action>, t: State)
    requires Consistent(s) && OnCall(s, id, call)
    ensures Leads(max, s, log, t) && OnCall(t, id, call) && t.cells[id] == s.cells[id].(now := t.now)
    ensures Reached(t.cells[id].row.scheduledAt, t.now)
  {
    var at := if s.cells[id].row.scheduledAt.Some? then s.cells[id].row.scheduledAt.value else s.now;
    log, t := WaitUntil(max, s, id, at);
  }

  lemma SchedulerPublishes(max: int, s: State, id: Id) returns (log: seq<Action>, t: State)
    requires Consistent(s) && id in s.cells && s.cells[id].poller.Idle?
    requires s.cells[id].row.status == Pending && s.cells[id].row.scheduledAt.Some?
    ensures Leads(max, s, log, t)
    ensures t.cells[id] == Publish(s.cells[id], true, true).(poller := Marking, now := t.now)
  {
    var u, more;
    log, u := PendingToHead(max, s, id);
    more, t := PublishHead(max, u, id);
    LeadsOn(max, s, log, u, more, t);
    log := log + more;
  }

  // ---- Publishing twice

  /**
    A run after which the row has two copies, although no publish was reported wrongly, no queued update of the
    scheduler failed and the creating call has yet to try its own.
  */
  ghost predicate Duplicates(max: int, s: State, id: Id, log: seq<Action>) {
    && ValidRun(max, s, log) && id in RunAll(max, s, log).cells
    && var c := RunAll(max, s, log).cells[id];
       c.published >= 2 && c.creator.Marking? && c.failedMarks == 0 && c.strayPublishes == 0
  }

  /** The creating call publishes the row when it is due, and before it writes queued the scheduler polls and publishes it too. */
  lemma CreatorAndSchedulerRace(max: int, s: State, id: Id) returns (log: seq<Action>)
    requires Consistent(s) && id in s.cells && s.cells[id].row.scheduledAt.Some?
    requires s.cells[id] == Fresh(s.now, s.cells[id].row.scheduledAt)
    ensures Duplicates(max, s, id, log)
  {
    assert Owned(s, id);
    var call :| call in s.calls && id in s.calls[call];
    var t, u;
    log, t := CallPublishesWhenDue(max, s, id, call);
    var more;
    more, u := SchedulerPublishes(max, t, id);
    LeadsOn(max, s, log, t, more, u);
    log := log + more;
    assert ValidRun(max, s, log);
  }

  /**
    When a row is stored, it can come to be published twice with nothing failing exactly when it carries a
    schedule, past or future.
  */
  lemma DuplicatesIffScheduled(max: int, s: State, id: Id)
    requires Reachable(max, s) && id in s.cells && s.cells[id] == Fresh(s.now, s.cells[id].row.scheduledAt)
    ensures (exists log :: Duplicates(max, s, id, log)) <==> s.cells[id].row.scheduledAt.Some?
  {
    ReachableSound(max, s);
    if s.cells[id].row.scheduledAt.Some? {
      var log := CreatorAndSchedulerRace(max, s, id);
    } else {
      forall log | ValidRun(max, s, log) ensures !Duplicates(max, s, id, log) {
        SoundRun(max, s, log);
        Projection(max, s, log, id);
        RowMovesOn(max, s.cells[id], Trace(max, s, log, id));
      }
    }
  }
}
