/** What the row and the counters of a notification mean: they are what its history of events says. */
module Chronicle {
  import opened Records
  import opened Delivery
  import Ledger

  function Tally(es: seq<Event>, p: Event -> bool): nat {
    if es == [] then 0 else One(p(es[0])) + Tally(es[1..], p)
  }

  predicate Publishes(e: Event) { (e.PublishNew? || e.PublishDue?) && e.taken }
  predicate Fetches(e: Event) { e.Deliver? }
  predicate Acks(e: Event) { e.Work? && e.what.Ack? }
  predicate Requeues(e: Event) { e.Work? && e.what.Requeue? }
  predicate Rejects(e: Event) { e.Work? && e.what.Reject? }
  predicate Sends(e: Event) { e.Work? && e.what.SendStart? }
  predicate Accepts(e: Event) { e.Work? && e.what.SendDone? && e.what.outcome.Accept? }
  predicate StampsLost(e: Event) { e.Work? && (e.what == Stamp(false) || e.what == MarkFailed(false)) }
  predicate IncrementsLost(e: Event) { e.Work? && e.what.Increment? && !e.what.ok }
  predicate Untypes(e: Event) { e.Work? && e.what.SendDone? && e.what.outcome.Untyped? }
  predicate Rules(e: Event) { e.Work? && e.what.SendDone? && e.what.outcome.NonRetryable? }
  predicate MarksFailed(e: Event) { e == MarkDue(false) }
  predicate PublishesLost(e: Event) { (e.PublishNew? || e.PublishDue?) && e.reported && !e.taken }
  predicate PublishesStray(e: Event) { (e.PublishNew? || e.PublishDue?) && e.taken && !e.reported }

  function TimeAfter(now: Time, e: Event): Time {
    if e.Tick? then e.to else now
  }

  /** The row after the statement of an event, if the database takes it. */
  function Written(row: Row, now: Time, e: Event): Row {
    match e
    case MarkNew(true) => row.(status := Queued)
    case MarkDue(true) => row.(status := Queued)
    case Cancel(true) => if row.status == Pending || row.status == Queued then row.(status := Cancelled) else row
    case Work(_, Begin(true, _)) => row.(status := Processing)
    case Work(_, Increment(true, next)) => row.(retryCount := row.retryCount + 1, nextRetryAt := Some(next))
    case Work(_, Stamp(true)) => row.(status := Sent, sentAt := Some(now))
    case Work(_, MarkFailed(true)) => row.(status := Failed, failedAt := Some(now))
    case _ => row
  }

  function RowAfter(row: Row, now: Time, es: seq<Event>): Row
    decreases |es|
  {
    if es == [] then row else RowAfter(Written(row, now, es[0]), TimeAfter(now, es[0]), es[1..])
  }

  /** When the provider was called. */
  function CallTimes(now: Time, es: seq<Event>): seq<Time>
    decreases |es|
  {
    if es == [] then [] else (if Sends(es[0]) then [now] else []) + CallTimes(TimeAfter(now, es[0]), es[1..])
  }

  lemma BrokerStep(max: int, c: Cell, e: Event)
    requires Enabled(c, e)
    ensures var d := Next(max, c, e);
            && d.published == c.published + One(Publishes(e))
            && d.queued == c.queued + One(Publishes(e)) + One(Requeues(e)) - One(Fetches(e))
            && d.acked == c.acked + One(Acks(e)) && d.dead == c.dead + One(Rejects(e))
  {
    if e.Work? {
      EffectSettles(c, e.tag, c.workers[e.tag], e.what);
    }
  }

  lemma EffectSettles(c: Cell, tag: Tag, w: Worker, we: WorkerEvent)
    requires CanWork(c.now, w, we)
    ensures var d, e := Effect(c, w, we), Work(tag, we);
            && d.published == c.published && d.queued == c.queued + One(Requeues(e))
            && d.acked == c.acked + One(Acks(e)) && d.dead == c.dead + One(Rejects(e))
  {
  }

  /** Copies published, queued, acknowledged and dead-lettered are the publishes and dispositions that happened. */
  lemma {:induction false} BrokerFollowsLog(max: int, c: Cell, es: seq<Event>)
    requires Valid(max, c, es)
    ensures var d := Run(max, c, es);
            && d.published == c.published + Tally(es, Publishes)
            && d.queued == c.queued + Tally(es, Publishes) + Tally(es, Requeues) - Tally(es, Fetches)
            && d.acked == c.acked + Tally(es, Acks) && d.dead == c.dead + Tally(es, Rejects)
    decreases |es|
  {
    if es != [] {
      var d := Next(max, c, es[0]);
      BrokerStep(max, c, es[0]);
      BrokerFollowsLog(max, d, es[1..]);
    }
  }

  /** What each statement does to the row, column by column; nothing else touches it. */
  lemma StatementsWrite(max: int, c: Cell, e: Event)
    requires Enabled(c, e)
    ensures var row, after := c.row, Next(max, c, e).row;
            match e
            case MarkNew(true) => after == row.(status := Queued)
            case MarkDue(true) => after == row.(status := Queued)
            case Cancel(true) => after == if row.status in {Pending, Queued} then row.(status := Cancelled) else row
            case Work(_, Begin(true, _)) => after == row.(status := Processing)
            case Work(_, Increment(true, next)) => after == row.(retryCount := row.retryCount + 1, nextRetryAt := Some(next))
            case Work(_, Stamp(true)) => after == row.(status := Sent, sentAt := Some(c.now))
            case Work(_, MarkFailed(true)) => after == row.(status := Failed, failedAt := Some(c.now))
            case _ => after == row
  {
    if e.Work? {
      EffectWrites(c, e.tag, c.workers[e.tag], e.what);
    }
  }

  lemma EffectWrites(c: Cell, tag: Tag, w: Worker, we: WorkerEvent)
    requires CanWork(c.now, w, we)
    ensures Effect(c, w, we).row == Written(c.row, c.now, Work(tag, we))
  {
  }

  lemma RowStep(max: int, c: Cell, e: Event)
    requires Enabled(c, e)
    ensures var d := Next(max, c, e); d.row == Written(c.row, c.now, e) && d.now == TimeAfter(c.now, e)
  {
    if e.Work? {
      EffectWrites(c, e.tag, c.workers[e.tag], e.what);
      Ledger.EffectFrame(c, c.workers[e.tag], e.what);
    }
  }

  lemma CallsStep(max: int, c: Cell, e: Event)
    requires Enabled(c, e)
    ensures var d := Next(max, c, e);
            d.sendTimes == c.sendTimes + (if Sends(e) then [c.now] else []) && d.accepts == c.accepts + One(Accepts(e))
  {
    if e.Work? {
      EffectCalls(c, e.tag, c.workers[e.tag], e.what);
    }
  }

  lemma EffectCalls(c: Cell, tag: Tag, w: Worker, we: WorkerEvent)
    requires CanWork(c.now, w, we)
    ensures var d, e := Effect(c, w, we), Work(tag, we);
            d.sendTimes == c.sendTimes + (if Sends(e) then [c.now] else []) && d.accepts == c.accepts + One(Accepts(e))
  {
  }

  lemma FailuresStep(max: int, c: Cell, e: Event)
    requires Enabled(c, e)
    ensures var d := Next(max, c, e);
            && d.lostStamps == c.lostStamps + One(StampsLost(e))
            && d.lostIncrements == c.lostIncrements + One(IncrementsLost(e))
            && d.untyped == c.untyped + One(Untypes(e)) && d.permanent == c.permanent + One(Rules(e))
            && d.failedMarks == c.failedMarks + One(MarksFailed(e))
            && d.lostPublishes == c.lostPublishes + One(PublishesLost(e))
            && d.strayPublishes == c.strayPublishes + One(PublishesStray(e))
  {
    if e.Work? {
      EffectFails(c, e.tag, c.workers[e.tag], e.what);
    }
  }

  lemma EffectFails(c: Cell, tag: Tag, w: Worker, we: WorkerEvent)
    requires CanWork(c.now, w, we)
    ensures var d, e := Effect(c, w, we), Work(tag, we);
            && d.lostStamps == c.lostStamps + One(StampsLost(e))
            && d.lostIncrements == c.lostIncrements + One(IncrementsLost(e))
            && d.untyped == c.untyped + One(Untypes(e)) && d.permanent == c.permanent + One(Rules(e))
            && d.failedMarks == c.failedMarks && d.lostPublishes == c.lostPublishes && d.strayPublishes == c.strayPublishes
  {
  }

  /** The failure counts are the failures that happened. */
  lemma {:induction false} FailuresFollowLog(max: int, c: Cell, es: seq<Event>)
    requires Valid(max, c, es)
    ensures var d := Run(max, c, es);
            && d.lostStamps == c.lostStamps + Tally(es, StampsLost)
            && d.lostIncrements == c.lostIncrements + Tally(es, IncrementsLost)
            && d.untyped == c.untyped + Tally(es, Untypes) && d.permanent == c.permanent + Tally(es, Rules)
            && d.failedMarks == c.failedMarks + Tally(es, MarksFailed)
            && d.lostPublishes == c.lostPublishes + Tally(es, PublishesLost)
            && d.strayPublishes == c.strayPublishes + Tally(es, PublishesStray)
    decreases |es|
  {
    if es != [] {
      FailuresStep(max, c, es[0]);
      FailuresFollowLog(max, Next(max, c, es[0]), es[1..]);
    }
  }

  /** The row is what the statements that the database took have written; calls and acceptances are the ones that happened. */
  lemma {:induction false} RowFollowsLog(max: int, c: Cell, es: seq<Event>)
    requires Valid(max, c, es)
    ensures var d := Run(max, c, es);
            && d.row == RowAfter(c.row, c.now, es)
            && d.sendTimes == c.sendTimes + CallTimes(c.now, es) && d.accepts == c.accepts + Tally(es, Accepts)
    decreases |es|
  {
    if es != [] {
      var d := Next(max, c, es[0]);
      RowStep(max, c, es[0]);
      CallsStep(max, c, es[0]);
      RowFollowsLog(max, d, es[1..]);
    }
  }
}
