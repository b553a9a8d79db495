/** The delivery guarantees, for every reachable state and every run of the whole system. */
module Guarantees {
  import opened Records
  import opened Delivery
  import opened System
  import opened Census
  import opened Ledger
  import opened Quiescence
  import Backoff
  import Scheduler

  // ---- Every run of the system is, for each id, a run of its cell

  /** What one action of the system is to the notification `id`. */
  ghost function Local(s: State, a: Action, id: Id): seq<Event>
    requires Can(s, a)
  {
    match a
    case Clock(to) => [Tick(to)]
    case Insert(_, _, _) => []
    case CallStep(call, e) => if s.calls[call][0] == id then [e] else []
    case PollRows(ids) => if id in ids then [Poll] else []
    case SchedulerStep(e) => if s.scheduler[0] == id then [e] else []
    case Own(other, e) => if other == id then [e] else []
    case OtherInstance(_, _) => []
  }

  ghost function Trace(max: int, s: State, log: seq<Action>, id: Id): seq<Event>
    requires ValidRun(max, s, log)
    decreases |log|
  {
    if log == [] then [] else Local(s, log[0], id) + Trace(max, Do(max, s, log[0]), log[1..], id)
  }

  lemma LocalStep(max: int, s: State, a: Action, id: Id)
    requires Consistent(s) && Can(s, a) && id in s.cells
    ensures id in Do(max, s, a).cells
    ensures Valid(max, s.cells[id], Local(s, a, id))
    ensures Run(max, s.cells[id], Local(s, a, id)) == Do(max, s, a).cells[id]
  {
    var es := Local(s, a, id);
    if a.PollRows? {
      ReadyListRows(s.cells, s.now, Scheduler.POLL_LIMIT, a.ids);
    }
    if es != [] {
      assert Enabled(s.cells[id], es[0]);
      assert es[1..] == [];
      assert Run(max, s.cells[id], es) == Next(max, s.cells[id], es[0]);
    }
  }

  /** Interleaving with every other notification, call and worker adds no behaviour to this one. */
  lemma {:induction false} Projection(max: int, s: State, log: seq<Action>, id: Id)
    requires Consistent(s) && ValidRun(max, s, log) && id in s.cells
    ensures id in RunAll(max, s, log).cells
    ensures Valid(max, s.cells[id], Trace(max, s, log, id))
    ensures Run(max, s.cells[id], Trace(max, s, log, id)) == RunAll(max, s, log).cells[id]
    decreases |log|
  {
    if log != [] {
      LocalStep(max, s, log[0], id);
      ConsistentStep(max, s, log[0]);
      Projection(max, Do(max, s, log[0]), log[1..], id);
      RunAppend(max, s.cells[id], Local(s, log[0], id), Trace(max, Do(max, s, log[0]), log[1..], id));
    }
  }

  ghost predicate Sound(max: int, s: State) {
    Consistent(s) && forall id :: id in s.cells ==> Inv(max, s.cells[id])
  }

  ghost predicate Reachable(max: int, s: State) {
    exists now, route, rate, log :: Goes(max, Start(now, route, rate), log, s)
  }

  lemma SoundStep(max: int, s: State, a: Action)
    requires Can(s, a)
    ensures Sound(max, s) ==> Sound(max, Do(max, s, a))
  {
    if !Sound(max, s) {
      return;
    }
    ConsistentStep(max, s, a);
    var t := Do(max, s, a);
    forall id | id in t.cells ensures Inv(max, t.cells[id]) {
      if id in s.cells {
        LocalStep(max, s, a, id);
        InvRun(max, s.cells[id], Local(s, a, id));
      } else {
        InvFresh(max, s.now, t.cells[id].row.scheduledAt);
      }
    }
  }

  lemma {:induction false} SoundRun(max: int, s: State, log: seq<Action>)
    requires Sound(max, s) && ValidRun(max, s, log)
    ensures Sound(max, RunAll(max, s, log))
    decreases |log|
  {
    if log != [] {
      SoundStep(max, s, log[0]);
      SoundRun(max, Do(max, s, log[0]), log[1..]);
    }
  }

  lemma ReachableSound(max: int, s: State)
    requires Reachable(max, s)
    ensures Sound(max, s)
  {
    var now, route, rate, log :| Goes(max, Start(now, route, rate), log, s);
    assert ValidRun(max, Start(now, route, rate), log);
    SoundRun(max, Start(now, route, rate), log);
  }

  // ---- The guarantees

  /**
    A notification past pending has been published, unless the broker lost a copy that Publish reported as sent.
    It stays live, or it carries its outcome; a published notification with no live copy left lacks the outcome
    exactly when the database refused every update of it.
  */
  lemma NothingIsLost(max: int, s: State, id: Id)
    requires Reachable(max, s) && id in s.cells
    ensures var c := s.cells[id];
            && (c.row.status in {Processing, Sent, Failed} ==> c.published >= 1)
            && (c.row.status == Queued ==> c.published >= 1 || c.lostPublishes >= 1)
            && (c.published >= 1 && c.lostStamps == 0 ==>
                  c.queued > 0 || c.workers != map[] || HasOutcome(c))
            && (c.queued == 0 && c.workers == map[] ==>
                  (HasOutcome(c) <==> c.lostStamps < c.published))
  {
    ReachableSound(max, s);
    var c := s.cells[id];
    if c.workers == map[] {
      assert Where(c.workers, Any) == {} && Where(c.workers, Stamped) == {};
    }
  }

  /** Every published copy is queued, held, acknowledged or dead-lettered; never in two places. */
  lemma CopiesConserved(max: int, s: State, id: Id)
    requires Reachable(max, s) && id in s.cells
    ensures var c := s.cells[id]; c.published == c.queued + |c.workers| + c.acked + c.dead
  {
    ReachableSound(max, s);
    var c := s.cells[id];
    assert Where(c.workers, Any) == c.workers.Keys;
  }

  /** Stale snapshots: retry_count and the number of provider calls stay bounded by the copies published. */
  lemma RetriesBounded(max: int, s: State, id: Id)
    requires Reachable(max, s) && id in s.cells
    ensures var c := s.cells[id];
            && (max >= 1 ==> c.row.retryCount + Count(c.workers, MayIncrement(max)) <= max - 1 + c.published)
            && (max <= 0 ==> c.row.retryCount == 0)
            && (max >= 1 ==> |c.sendTimes| <= max - 1 + 2 * c.published + c.lostIncrements + c.untyped)
            && (max <= 0 ==> |c.sendTimes| <= c.published + c.lostIncrements + c.untyped)
    ensures var c := s.cells[id];
            max >= 1 && c.published <= 1 ==>
              && c.row.retryCount <= max
              && (c.lostIncrements == 0 && c.untyped == 0 ==> |c.sendTimes| <= max + 1)
  {
    ReachableSound(max, s);
    var c := s.cells[id];
    CountWithin(c.workers, Unsettled);
  }

  /** A single copy that is given up after retryable errors alone was retried exactly as often as the limit says. */
  lemma RetriesExhausted(max: int, s: State, id: Id)
    requires Reachable(max, s) && id in s.cells && max >= 0
    requires Orderly(s.cells[id]) && s.cells[id].permanent == 0 && s.cells[id].row.failedAt.Some?
    ensures s.cells[id].row.retryCount == max && |s.cells[id].sendTimes| == max + 1
  {
    ReachableSound(max, s);
    var c := s.cells[id];
    RetriesBounded(max, s, id);
    if c.dead == 0 {
      var t :| t in c.workers && IsRejecting(c.workers[t]) by {
        OneThere(c.workers, IsRejecting);
      }
      Alone(c, t);
    } else {
      CountWithin(c.workers, Unsettled);
    }
  }

  lemma OneThere(m: map<Tag, Worker>, p: Worker -> bool)
    requires Count(m, p) >= 1
    ensures exists t :: t in m && p(m[t])
  {
    if Where(m, p) != {} {
      var t :| t in Where(m, p);
    }
  }

  /** The stored next_retry_at is the time of a retryable answer plus the documented delay, jitter included. */
  lemma RetryTimeStored(max: int, s: State, id: Id)
    requires Reachable(max, s) && id in s.cells && s.cells[id].row.nextRetryAt.Some?
    ensures var c := s.cells[id];
            && c.retry.Some? && c.retry.value.answered <= s.now && c.retry.value.attempt < max
            && (c.retry.value.attempt <= 33 ==>
                  c.retry.value.answered + Backoff.Base(c.retry.value.attempt) <= c.row.nextRetryAt.value
                    < c.retry.value.answered + Backoff.Base(c.retry.value.attempt) + 500_000_000)
  {
    ReachableSound(max, s);
  }

  /** A row without a schedule: one copy, at most one acceptance, at most one kind of outcome. */
  lemma UnscheduledOutcome(max: int, s: State, id: Id)
    requires Reachable(max, s) && id in s.cells && s.cells[id].row.scheduledAt.None?
    ensures var c := s.cells[id];
            && c.published <= 1 && c.accepts <= 1
            && !(c.row.sentAt.Some? && c.row.failedAt.Some?)
            && (c.row.sentAt.Some? ==> c.accepts == 1)
            && (c.row.sentAt.Some? ==> c.sendTimes != [] && c.sendTimes[0] <= c.row.sentAt.value <= s.now)
  {
    ReachableSound(max, s);
    var c := s.cells[id];
    CountWithin(c.workers, WasAccepted);
    CountWithin(c.workers, IsAcking);
    CountWithin(c.workers, IsRejecting);
    SubsetSize(Where(c.workers, IsAcking), Where(c.workers, WasAccepted));
    if c.row.sentAt.Some? && c.row.failedAt.Some? {
      Exclusive(c.workers);
    }
  }

  /** Acknowledging and rejecting workers are different workers. */
  lemma Exclusive(m: map<Tag, Worker>)
    ensures Count(m, IsAcking) + Count(m, IsRejecting) <= Count(m, Any)
  {
    var a, r := Where(m, IsAcking), Where(m, IsRejecting);
    assert a !! r;
    assert |a + r| == |a| + |r|;
    SubsetSize(a + r, Where(m, Any));
  }

  /** Once an unscheduled row carries its outcome, no later step sends, retries, publishes or accepts. */
  lemma OutcomeFreezes(max: int, s: State, log: seq<Action>, id: Id)
    requires Reachable(max, s) && ValidRun(max, s, log) && id in s.cells
    requires s.cells[id].row.scheduledAt.None?
    requires HasOutcome(s.cells[id])
    ensures id in RunAll(max, s, log).cells
    ensures var c, d := s.cells[id], RunAll(max, s, log).cells[id];
            && d.row.retryCount == c.row.retryCount && d.sendTimes == c.sendTimes
            && d.published == c.published && d.accepts == c.accepts
  {
    ReachableSound(max, s);
    var c := s.cells[id];
    assert Quiet(c) by {
      CountWithin(c.workers, IsAcking);
      CountWithin(c.workers, IsRejecting);
      forall t | t in c.workers ensures Terminal(c.workers[t]) {
        CountPositive(c.workers, t, Any);
        CountAlone(c.workers, t, IsAcking);
        CountAlone(c.workers, t, IsRejecting);
      }
    }
    Projection(max, s, log, id);
    QuietRun(max, c, Trace(max, s, log, id));
  }

  /** The k-th retry of a single copy reaches the provider no earlier than the backoffs before it allow. */
  lemma RetriesSpaced(max: int, s: State, id: Id, k: nat)
    requires Reachable(max, s) && id in s.cells && max <= 34
    requires Orderly(s.cells[id]) && k < |s.cells[id].sendTimes|
    ensures s.cells[id].sendTimes[k] >= s.cells[id].sendTimes[0] + Backoff.TotalBase(k)
    ensures s.cells[id].sendTimes[k] >= s.cells[id].sendTimes[0]
              + (if k <= 5 then (Backoff.Pow2(k) - 1) * SECOND else (31 + 30 * (k - 5)) * SECOND)
  {
    ReachableSound(max, s);
    SpacedSum(s.cells[id], k);
    Backoff.TotalBaseClosedForm(k);
  }

  lemma {:induction false} SpacedSum(c: Cell, k: nat)
    requires Spaced(c) && Orderly(c) && k < |c.sendTimes|
    ensures c.sendTimes[k] >= c.sendTimes[0] + Backoff.TotalBase(k)
  {
    if k > 0 {
      SpacedSum(c, k - 1);
      assert c.sendTimes[k - 1] + Backoff.Base(k - 1) <= c.sendTimes[k - 1 + 1];
    }
  }

  /**
    No copy exists before its schedule. A row is published once by the scheduler, once more by its creating call
    unless that skipped it, and again only after a failed queued update or a publish wrongly reported as failed.
  */
  lemma ScheduledPublishing(max: int, s: State, id: Id)
    requires Reachable(max, s) && id in s.cells
    ensures var c := s.cells[id];
            && (c.published >= 1 ==> Reached(c.row.scheduledAt, s.now))
            && c.published <= 2 + c.failedMarks + c.strayPublishes
            && (c.skipped ==> c.published <= 1 + c.failedMarks + c.strayPublishes)
  {
    ReachableSound(max, s);
  }

  lemma {:induction false} RowMovesOn(max: int, c: Cell, es: seq<Event>)
    requires Valid(max, c, es)
    ensures var d := Run(max, c, es);
            && (c.row.status != Pending ==> d.row.status != Pending)
            && (c.row.sentAt.Some? ==> d.row.sentAt.Some?)
            && (c.row.failedAt.Some? ==> d.row.failedAt.Some?)
            && c.row.retryCount <= d.row.retryCount
            && c.row.scheduledAt == d.row.scheduledAt
    decreases |es|
  {
    if es != [] {
      RowMovesOn(max, Next(max, c, es[0]), es[1..]);
    }
  }

  /** Pending is never re-entered and evidence is never withdrawn, whatever the interleaving. */
  lemma PendingNeverReentered(max: int, s: State, log: seq<Action>, id: Id)
    requires Reachable(max, s) && ValidRun(max, s, log) && id in s.cells
    ensures id in RunAll(max, s, log).cells
    ensures var c, d := s.cells[id], RunAll(max, s, log).cells[id];
            && (c.row.status != Pending ==> d.row.status != Pending)
            && (c.row.sentAt.Some? ==> d.row.sentAt.Some?)
            && (c.row.failedAt.Some? ==> d.row.failedAt.Some?)
            && c.row.retryCount <= d.row.retryCount
  {
    ReachableSound(max, s);
    Projection(max, s, log, id);
    RowMovesOn(max, s.cells[id], Trace(max, s, log, id));
  }

  // ---- Each delivery gets exactly one disposition

  lemma {:induction false} DisposedOnce(max: int, c: Cell, es: seq<Event>, tag: Tag)
    requires Valid(max, c, es) && Conserved(c)
    ensures One(tag in c.disposed) + Dispositions(es, tag) == One(tag in Run(max, c, es).disposed)
    decreases |es|
  {
    if es != [] {
      ConservedNext(max, c, es[0]);
      DisposedOnce(max, Next(max, c, es[0]), es[1..], tag);
    }
  }
}
