/** What every step of every interleaving keeps, one notification at a time. */
module Ledger {
  import opened Records
  import opened Delivery
  import opened Census
  import Backoff

  /** Each published copy is in exactly one place, and each delivery is disposed of once. */
  ghost predicate Conserved(c: Cell) {
    && c.published == c.queued + Count(c.workers, Any) + c.acked + c.dead
    && c.workers.Keys !! c.disposed
  }

  /** Provider calls and acceptances are accounted for by the row, the workers and the broker. */
  ghost predicate Accounted(c: Cell) {
    && c.accepts == c.acked + Count(c.workers, WasAccepted)
    && |c.sendTimes| == c.row.retryCount + Count(c.workers, Unsettled) + c.acked + c.dead + c.lostIncrements + c.untyped
  }

  /** The most that `p` copies can drive retry_count to. */
  function Budget(max: int, p: nat): nat {
    if max <= 0 then 0 else max - 1 + p
  }

  /** Stale snapshots cannot push retry_count past the budget, not even when all of them act on what they read. */
  ghost predicate WithinBudget(max: int, c: Cell) {
    c.row.retryCount + Count(c.workers, MayIncrement(max)) <= Budget(max, c.published)
  }

  /** sent_at is set exactly by consumed copies, as long as the database took the update. */
  ghost predicate SentEvidenced(c: Cell) {
    var consumed := c.acked + Count(c.workers, IsAcking) >= 1;
    (c.row.sentAt.Some? ==> consumed) && (c.lostStamps == 0 && consumed ==> c.row.sentAt.Some?)
  }

  /** failed_at likewise, by dead-lettered copies. */
  ghost predicate FailedEvidenced(c: Cell) {
    var consumed := c.dead + Count(c.workers, IsRejecting) >= 1;
    (c.row.failedAt.Some? ==> consumed) && (c.lostStamps == 0 && consumed ==> c.row.failedAt.Some?)
  }

  predicate HasOutcome(c: Cell) {
    c.row.sentAt.Some? || c.row.failedAt.Some?
  }

  /** Every consumed copy tried one outcome update; the row has evidence exactly when one of them was stored. */
  ghost predicate OutcomeStored(c: Cell) {
    var stored := c.acked + c.dead + Count(c.workers, Stamped) - c.lostStamps;
    stored >= 0 && (HasOutcome(c) <==> stored > 0)
  }

  /** Outcome times lie between the first provider call and now. */
  ghost predicate Timely(c: Cell) {
    && (forall j :: 0 <= j < |c.sendTimes| ==> c.sendTimes[0] <= c.sendTimes[j] <= c.now)
    && (c.row.sentAt.Some? ==> c.sendTimes != [] && c.sendTimes[0] <= c.row.sentAt.value <= c.now)
    && (c.row.failedAt.Some? ==> c.sendTimes != [] && c.sendTimes[0] <= c.row.failedAt.value <= c.now)
  }

  /** A status past pending, other than cancelled, means a copy was published or lost on the way; copies appear on time. */
  ghost predicate Announced(c: Cell) {
    && (c.row.status in {Processing, Sent, Failed} ==> c.published >= 1)
    && c.row.status != Delivered
    && (c.row.status == Queued || c.creator.Marking? || c.poller.Marking? ==> c.published + c.lostPublishes >= 1)
    && (c.published >= 1 || c.creator.Publishing? ==> Reached(c.row.scheduledAt, c.now))
    && (!c.poller.Idle? ==> c.row.scheduledAt.Some? && Reached(c.row.scheduledAt, c.now))
  }

  /** The creating call published, or tried to. */
  predicate CreatorSpent(c: Cell) {
    !c.skipped && (c.creator.Marking? || c.creator.Idle?)
  }

  /** The scheduler may still select or publish the row without a copy of its own outstanding. */
  predicate PollerFresh(c: Cell) {
    c.poller.Listed? || (c.poller.Idle? && c.row.status == Pending)
  }

  /**
    How often a row is published: an unscheduled one once; any other once by its creating call unless that
    skipped it, once by the scheduler, and once more for each queued update that failed and each publish that
    was wrongly reported as failed.
  */
  ghost predicate PublishedOnce(c: Cell) {
    && (c.skipped ==> c.creator.Idle?)
    && c.published <= c.failedMarks + c.strayPublishes + One(CreatorSpent(c)) + One(!PollerFresh(c))
    && (c.row.scheduledAt.None? ==>
          c.poller.Idle? && !c.skipped && c.published + c.lostPublishes <= One(CreatorSpent(c)))
  }

  // ---- Preservation

  lemma ConservedNext(max: int, c: Cell, e: Event)
    requires Enabled(c, e) && Conserved(c)
    ensures Conserved(Next(max, c, e))
  {
    CountNext(max, c, e, Any);
    if e.Work? {
      CountPositive(c.workers, e.tag, Any);
    }
  }

  lemma AcceptsNext(max: int, c: Cell, e: Event)
    requires Enabled(c, e) && c.accepts == c.acked + Count(c.workers, WasAccepted)
    ensures var d := Next(max, c, e); d.accepts == d.acked + Count(d.workers, WasAccepted)
  {
    CountNext(max, c, e, WasAccepted);
  }

  /** Provider calls not yet accounted for outside the workers. */
  function Open(c: Cell): int {
    |c.sendTimes| - c.row.retryCount - c.acked - c.dead - c.lostIncrements - c.untyped
  }

  lemma OpenMoves(max: int, c: Cell, w: Worker, we: WorkerEvent)
    requires CanWork(c.now, w, we)
    ensures Open(Effect(c, w, we)) == Open(c) - One(Unsettled(w))
                                      + (if Disposes(we) then 0 else One(Unsettled(Turn(max, c, w, we))))
  {
  }

  lemma SendsNext(max: int, c: Cell, e: Event)
    requires Enabled(c, e) && Open(c) == Count(c.workers, Unsettled)
    ensures var d := Next(max, c, e); Open(d) == Count(d.workers, Unsettled)
  {
    CountNext(max, c, e, Unsettled);
    if e.Work? {
      OpenMoves(max, c, c.workers[e.tag], e.what);
    }
  }

  lemma AccountedNext(max: int, c: Cell, e: Event)
    requires Enabled(c, e) && Accounted(c)
    ensures Accounted(Next(max, c, e))
  {
    AcceptsNext(max, c, e);
    SendsNext(max, c, e);
  }

  /** Reading the row is the only step that adds a claim on the budget; incrementing spends one. */
  lemma BudgetTurn(max: int, c: Cell, w: Worker, we: WorkerEvent)
    requires CanWork(c.now, w, we) && !we.Load?
    ensures Effect(c, w, we).row.retryCount + (if Disposes(we) then 0 else One(MayIncrement(max)(Turn(max, c, w, we))))
            <= c.row.retryCount + One(MayIncrement(max)(w))
  {
  }

  lemma WithinBudgetNext(max: int, c: Cell, e: Event)
    requires Enabled(c, e) && Conserved(c) && WithinBudget(max, c)
    ensures WithinBudget(max, Next(max, c, e))
  {
    CountNext(max, c, e, MayIncrement(max));
    if e.Work? && !e.what.Load? {
      BudgetTurn(max, c, c.workers[e.tag], e.what);
    } else {
      ConservedNext(max, c, e);
      CountWithin(Next(max, c, e).workers, MayIncrement(max));
    }
  }

  lemma SentEvidencedNext(max: int, c: Cell, e: Event)
    requires Enabled(c, e) && SentEvidenced(c)
    ensures SentEvidenced(Next(max, c, e))
  {
    CountNext(max, c, e, IsAcking);
  }

  lemma FailedEvidencedNext(max: int, c: Cell, e: Event)
    requires Enabled(c, e) && FailedEvidenced(c)
    ensures FailedEvidenced(Next(max, c, e))
  {
    CountNext(max, c, e, IsRejecting);
  }

  lemma OutcomeTurn(max: int, c: Cell, w: Worker, we: WorkerEvent)
    requires CanWork(c.now, w, we)
    ensures var d, stores := Effect(c, w, we), we == Stamp(true) || we == MarkFailed(true);
            && (HasOutcome(d) <==> HasOutcome(c) || stores)
            && d.acked + d.dead - d.lostStamps + (if Disposes(we) then 0 else One(Stamped(Turn(max, c, w, we))))
               == c.acked + c.dead - c.lostStamps + One(Stamped(w)) + One(stores)
  {
  }

  lemma OutcomeStoredNext(max: int, c: Cell, e: Event)
    requires Enabled(c, e) && OutcomeStored(c)
    ensures OutcomeStored(Next(max, c, e))
  {
    CountNext(max, c, e, Stamped);
    if e.Work? {
      OutcomeTurn(max, c, c.workers[e.tag], e.what);
    }
  }

  lemma TimelyNext(max: int, c: Cell, e: Event)
    requires Enabled(c, e) && Accounted(c) && Timely(c)
    ensures Timely(Next(max, c, e))
  {
    if e.Work? {
      if Unsettled(c.workers[e.tag]) {
        CountPositive(c.workers, e.tag, Unsettled);
      }
      TimelyEffect(c, c.workers[e.tag], e.what);
    }
  }

  lemma TimelyEffect(c: Cell, w: Worker, we: WorkerEvent)
    requires CanWork(c.now, w, we) && Timely(c) && (Unsettled(w) ==> c.sendTimes != [])
    ensures Timely(Effect(c, w, we))
  {
  }

  /** A worker's step leaves the publishers and their counts alone; the status it may write is not pending. */
  lemma EffectFrame(c: Cell, w: Worker, we: WorkerEvent)
    requires CanWork(c.now, w, we)
    ensures var d := Effect(c, w, we);
            && d.now == c.now && d.creator == c.creator && d.poller == c.poller && d.skipped == c.skipped
            && d.published == c.published && d.failedMarks == c.failedMarks
            && d.lostPublishes == c.lostPublishes && d.strayPublishes == c.strayPublishes
            && d.row.scheduledAt == c.row.scheduledAt
            && (d.row.status == c.row.status || d.row.status in {Processing, Sent, Failed})
  {
  }

  lemma AnnouncedNext(max: int, c: Cell, e: Event)
    requires Enabled(c, e) && Conserved(c) && Announced(c)
    ensures Announced(Next(max, c, e))
  {
    if e.Work? {
      CountPositive(c.workers, e.tag, Any);
      EffectFrame(c, c.workers[e.tag], e.what);
    }
  }

  lemma PublishedOnceNext(max: int, c: Cell, e: Event)
    requires Enabled(c, e) && PublishedOnce(c)
    ensures PublishedOnce(Next(max, c, e))
  {
    if e.Work? {
      EffectFrame(c, c.workers[e.tag], e.what);
    }
  }

  ghost predicate Inv(max: int, c: Cell) {
    Conserved(c) && Accounted(c) && WithinBudget(max, c)
    && SentEvidenced(c) && FailedEvidenced(c) && OutcomeStored(c) && Timely(c) && Announced(c) && PublishedOnce(c)
    && (max <= 34 ==> Spaced(c)) && RetriesTimed(max, c) && Exact(max, c)
  }

  // ---- Real-time spacing of the provider calls for a single copy

  /** One copy, every retry increment stored, every provider error typed. */
  predicate Orderly(c: Cell) {
    c.published <= 1 && c.lostIncrements == 0 && c.untyped == 0
  }

  /** Snapshots are current, and what they allow lies after the backoff. */
  predicate Current(c: Cell, w: Worker) {
    && (HasSnap(w) ==> w.snap.retryCount == c.row.retryCount && w.snap.nextRetryAt == c.row.nextRetryAt)
    && (w.Ready? || w.Begun? || w.Admitted? || w.Cleared? ==> Reached(w.snap.nextRetryAt, c.now))
    && (w.Retrying? ==>
          |c.sendTimes| == c.row.retryCount + 1
          && c.sendTimes[c.row.retryCount] + Backoff.Base(c.row.retryCount) <= w.next)
  }

  ghost predicate Spaced(c: Cell) {
    Orderly(c) ==>
      && (forall j :: 0 <= j < |c.sendTimes| ==> c.sendTimes[j] <= c.now)
      && (forall j :: 0 <= j < |c.sendTimes| - 1 ==> c.sendTimes[j] + Backoff.Base(j) <= c.sendTimes[j + 1])
      && (forall t :: t in c.workers ==> Current(c, c.workers[t]))
      && NextRetryAfterBackoff(c)
  }

  predicate NextRetryAfterBackoff(c: Cell) {
    var k := c.row.retryCount;
    && k <= |c.sendTimes|
    && (k > 0 ==> c.row.nextRetryAt.Some? && c.sendTimes[k - 1] + Backoff.Base(k - 1) <= c.row.nextRetryAt.value)
  }

  /** With a single copy in a worker's hands, nothing else is under way and the call count is exact. */
  lemma Alone(c: Cell, tag: Tag)
    requires Conserved(c) && Accounted(c) && Orderly(c) && tag in c.workers
    ensures c.workers.Keys == {tag} && c.queued == 0
    ensures |c.sendTimes| == c.row.retryCount + One(Unsettled(c.workers[tag]))
  {
    CountPositive(c.workers, tag, Any);
    CountAlone(c.workers, tag, Unsettled);
  }

  lemma SpacedNext(max: int, c: Cell, e: Event)
    requires Enabled(c, e) && Conserved(c) && Accounted(c) && Spaced(c) && max <= 34
    ensures Spaced(Next(max, c, e))
  {
    var d := Next(max, c, e);
    if Orderly(d) {
      if e.Work? {
        Alone(c, e.tag);
        SpacedWork(max, c, e.tag, e.what);
      } else {
        PublishersFrame(max, c, e);
        SpacedFrame(c, d);
      }
    }
  }

  lemma SpacedFrame(c: Cell, d: Cell)
    requires Spaced(c) && Orderly(c) && c.now <= d.now && d.sendTimes == c.sendTimes
    requires d.row.retryCount == c.row.retryCount && d.row.nextRetryAt == c.row.nextRetryAt
    requires forall t :: t in d.workers ==> Current(d, d.workers[t]) || (t in c.workers && d.workers[t] == c.workers[t])
    ensures Spaced(d)
  {
  }

  lemma SpacedWork(max: int, c: Cell, tag: Tag, we: WorkerEvent)
    requires Enabled(c, Work(tag, we)) && Orderly(c) && Spaced(c) && max <= 34
    requires c.workers.Keys == {tag}
    requires |c.sendTimes| == c.row.retryCount + One(Unsettled(c.workers[tag]))
    ensures Spaced(Next(max, c, Work(tag, we)))
  {
    var w := c.workers[tag];
    assert Current(c, w);
    if we.SendStart? {
      SpacedSend(max, c, tag);
    } else if we.Increment? {
      SpacedIncrement(max, c, tag, we);
    } else {
      EffectKeeps(c, w, we);
      if !Disposes(we) {
        CurrentTurn(max, c, w, we);
      }
      SpacedFrame(c, Next(max, c, Work(tag, we)));
    }
  }

  lemma EffectKeeps(c: Cell, w: Worker, we: WorkerEvent)
    requires CanWork(c.now, w, we) && !we.SendStart? && !we.Increment?
    ensures var d := Effect(c, w, we);
            && d.now == c.now && d.sendTimes == c.sendTimes && d.workers == c.workers
            && d.row.retryCount == c.row.retryCount && d.row.nextRetryAt == c.row.nextRetryAt
  {
  }

  /** A worker's own step keeps its snapshot current; a new retry time lies past the backoff. */
  lemma CurrentTurn(max: int, c: Cell, w: Worker, we: WorkerEvent)
    requires CanWork(c.now, w, we) && !Disposes(we) && !we.SendStart? && !we.Increment? && max <= 34
    requires Current(c, w) && |c.sendTimes| == c.row.retryCount + One(Unsettled(w))
    requires forall j :: 0 <= j < |c.sendTimes| ==> c.sendTimes[j] <= c.now
    ensures Current(Effect(c, w, we), Turn(max, c, w, we))
  {
    if we.SendDone? && w.snap.retryCount < max {
      Backoff.DelayAsDocumented(w.snap.retryCount);
      assert Backoff.Base(w.snap.retryCount) <= Backoff.Delay(w.snap.retryCount, we.jitter);
    }
  }

  lemma SpacedSend(max: int, c: Cell, tag: Tag)
    requires Enabled(c, Work(tag, SendStart)) && Orderly(c) && Spaced(c)
    requires c.workers.Keys == {tag} && |c.sendTimes| == c.row.retryCount
    ensures Spaced(Next(max, c, Work(tag, SendStart)))
  {
    assert Current(c, c.workers[tag]);
  }

  lemma SpacedIncrement(max: int, c: Cell, tag: Tag, we: WorkerEvent)
    requires we.Increment? && Enabled(c, Work(tag, we)) && Orderly(c) && Spaced(c)
    requires c.workers.Keys == {tag}
    ensures Spaced(Next(max, c, Work(tag, we)))
  {
    assert Current(c, c.workers[tag]);
  }

  // ---- When a retry is due, and when retries are exhausted

  /** A retry time is the answer's time plus the backoff for the snapshot's retry_count, jitter included. */
  predicate DueAfter(max: int, next: Time, why: Retry, now: Time) {
    && why.answered <= now && why.attempt < max
    && (why.attempt <= 33 ==>
          why.answered + Backoff.Base(why.attempt) <= next < why.answered + Backoff.Base(why.attempt) + Backoff.JITTER)
  }

  ghost predicate RetriesTimed(max: int, c: Cell) {
    && (forall t :: t in c.workers && c.workers[t].Retrying? ==> DueAfter(max, c.workers[t].next, c.workers[t].why, c.now))
    && (c.row.nextRetryAt.Some? <==> c.retry.Some?)
    && (c.retry.Some? ==> DueAfter(max, c.row.nextRetryAt.value, c.retry.value, c.now))
  }

  /** A retryable answer below the limit sets the retry time to the documented delay from now. */
  lemma RetryTime(max: int, c: Cell, w: Worker, jitter: nat)
    requires CanWork(c.now, w, SendDone(Retryable, jitter)) && w.snap.retryCount < max
    ensures var v := Turn(max, c, w, SendDone(Retryable, jitter));
            && v.Retrying? && v.next == c.now + Backoff.Delay(w.snap.retryCount, jitter)
            && DueAfter(max, v.next, v.why, c.now) && v.why == Retry(c.now, w.snap.retryCount)
            && (w.snap.retryCount <= 33 ==>
                  v.next == c.now + (if w.snap.retryCount < 5 then Backoff.Pow2(w.snap.retryCount) else 30) * 1_000_000_000 + jitter)
  {
    if w.snap.retryCount <= 33 {
      Backoff.DelayAsDocumented(w.snap.retryCount);
      assert Backoff.AsDocumented(w.snap.retryCount);
    }
  }

  lemma RetriesTimedNext(max: int, c: Cell, e: Event)
    requires Enabled(c, e) && RetriesTimed(max, c)
    ensures RetriesTimed(max, Next(max, c, e))
  {
    if e.Work? {
      var w := c.workers[e.tag];
      if e.what.SendDone? && e.what.outcome.Retryable? && w.snap.retryCount < max {
        RetryTime(max, c, w, e.what.jitter);
      } else {
        RetryKept(max, c, w, e.what);
      }
    } else {
      PublishersFrame(max, c, e);
    }
  }

  lemma RetryKept(max: int, c: Cell, w: Worker, we: WorkerEvent)
    requires CanWork(c.now, w, we) && !(we.SendDone? && we.outcome.Retryable? && w.snap.retryCount < max)
    ensures Disposes(we) || !Turn(max, c, w, we).Retrying?
    ensures var d := Effect(c, w, we);
            && d.now == c.now && d.workers == c.workers
            && if we.Increment? && we.ok then d.row.nextRetryAt == Some(w.next) && d.retry == Some(w.why)
               else d.row.nextRetryAt == c.row.nextRetryAt && d.retry == c.retry
  {
  }

  /** With a single copy and only retryable errors, a worker gives up only when retry_count has reached the limit. */
  ghost predicate Exact(max: int, c: Cell) {
    Orderly(c) && c.permanent == 0 ==>
      && (forall t :: t in c.workers && HasSnap(c.workers[t]) ==> c.workers[t].snap.retryCount == c.row.retryCount)
      && (forall t :: t in c.workers && (c.workers[t].Exhausted? || c.workers[t].Rejecting?) ==> c.row.retryCount >= max)
      && (c.dead >= 1 ==> c.row.retryCount >= max)
  }

  lemma ExactNext(max: int, c: Cell, e: Event)
    requires Enabled(c, e) && Conserved(c) && Accounted(c) && Exact(max, c)
    ensures Exact(max, Next(max, c, e))
  {
    var d := Next(max, c, e);
    if Orderly(d) && d.permanent == 0 {
      if e.Work? {
        Alone(c, e.tag);
        ExactWork(max, c, e.tag, e.what);
      } else {
        PublishersFrame(max, c, e);
      }
    }
  }

  lemma ExactWork(max: int, c: Cell, tag: Tag, we: WorkerEvent)
    requires Enabled(c, Work(tag, we)) && Exact(max, c) && Orderly(c) && c.workers.Keys == {tag}
    requires Next(max, c, Work(tag, we)).permanent == 0
    ensures Exact(max, Next(max, c, Work(tag, we)))
  {
    ExactTurn(max, c, c.workers[tag], we);
  }

  lemma ExactTurn(max: int, c: Cell, w: Worker, we: WorkerEvent)
    requires CanWork(c.now, w, we) && Effect(c, w, we).permanent == 0
    requires HasSnap(w) ==> w.snap.retryCount == c.row.retryCount
    requires w.Exhausted? || w.Rejecting? ==> c.row.retryCount >= max
    ensures c.permanent == 0 && Effect(c, w, we).row.retryCount >= c.row.retryCount
    ensures we.Reject? ==> c.row.retryCount >= max
    ensures Effect(c, w, we).dead == c.dead + One(we.Reject?)
    ensures !Disposes(we) ==>
              var v, d := Turn(max, c, w, we), Effect(c, w, we);
              && (HasSnap(v) ==> v.snap.retryCount == d.row.retryCount)
              && (v.Exhausted? || v.Rejecting? ==> d.row.retryCount >= max)
  {
  }

  // ---- The invariant over whole runs

  lemma InvFresh(max: int, now: Time, scheduledAt: Option<Time>)
    ensures Inv(max, Fresh(now, scheduledAt))
  {
    var none: map<Tag, Worker> := map[];
    assert forall p :: Where(none, p) == {};
  }

  lemma InvNext(max: int, c: Cell, e: Event)
    requires Enabled(c, e) && Inv(max, c)
    ensures Inv(max, Next(max, c, e))
  {
    ConservedNext(max, c, e);
    AccountedNext(max, c, e);
    WithinBudgetNext(max, c, e);
    SentEvidencedNext(max, c, e);
    FailedEvidencedNext(max, c, e);
    OutcomeStoredNext(max, c, e);
    TimelyNext(max, c, e);
    AnnouncedNext(max, c, e);
    PublishedOnceNext(max, c, e);
    if max <= 34 {
      SpacedNext(max, c, e);
    }
    RetriesTimedNext(max, c, e);
    ExactNext(max, c, e);
  }

  lemma {:induction false} InvRun(max: int, c: Cell, es: seq<Event>)
    requires Inv(max, c) && Valid(max, c, es)
    ensures Inv(max, Run(max, c, es))
    decreases |es|
  {
    if es != [] {
      InvNext(max, c, es[0]);
      InvRun(max, Next(max, c, es[0]), es[1..]);
    }
  }
}
