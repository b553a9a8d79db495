/** When a notification is quiet for good, and which way a live copy of it goes to the provider. */
module Quiescence {
  import opened Records
  import opened Delivery
  import opened Census

  /** The worker's copy is consumed whatever happens next. */
  predicate Terminal(w: Worker) {
    w.Accepted? || w.Acking? || w.Exhausted? || w.Rejecting?
  }

  /** No copy is live, no publisher is about to make one, and the scheduler will not select the row. */
  predicate Quiet(c: Cell) {
    && c.queued == 0
    && !c.creator.Listed? && !c.creator.Publishing? && !c.poller.Listed?
    && (c.row.status != Pending || c.row.scheduledAt.None?)
    && (forall t :: t in c.workers ==> Terminal(c.workers[t]))
  }

  /** Silence lasts: nothing is sent, published, retried or accepted any more. */
  lemma QuietNext(max: int, c: Cell, e: Event)
    requires Quiet(c) && Enabled(c, e)
    ensures var d := Next(max, c, e);
            && Quiet(d)
            && d.sendTimes == c.sendTimes && d.published == c.published && d.accepts == c.accepts
            && d.row.retryCount == c.row.retryCount
  {
    if e.Work? {
      TerminalTurn(max, c, c.workers[e.tag], e.what);
    }
  }

  /** A worker whose copy is consumed only tells the row and the broker. */
  lemma TerminalTurn(max: int, c: Cell, w: Worker, we: WorkerEvent)
    requires Terminal(w) && CanWork(c.now, w, we)
    ensures Disposes(we) || Terminal(Turn(max, c, w, we))
    ensures var d := Effect(c, w, we);
            && d.queued == c.queued && d.creator == c.creator && d.poller == c.poller
            && d.sendTimes == c.sendTimes && d.published == c.published && d.accepts == c.accepts
            && d.row.retryCount == c.row.retryCount && d.row.scheduledAt == c.row.scheduledAt
            && (d.row.status == c.row.status || d.row.status != Pending)
  {
  }

  lemma {:induction false} QuietRun(max: int, c: Cell, es: seq<Event>)
    requires Quiet(c) && Valid(max, c, es)
    ensures var d := Run(max, c, es);
            && Quiet(d)
            && d.sendTimes == c.sendTimes && d.published == c.published && d.accepts == c.accepts
            && d.row.retryCount == c.row.retryCount
    decreases |es|
  {
    if es != [] {
      QuietNext(max, c, es[0]);
      QuietRun(max, Next(max, c, es[0]), es[1..]);
    }
  }

  // ---- The same without untyped errors of the provider and without failures of Redis

  /** Neither an answer of the provider that is no answer at all, nor a pass of the limiter because Redis failed. */
  predicate Regular(e: Event) {
    !(e.Work? && ((e.what.SendDone? && e.what.outcome.Untyped?) || e.what == Limit(Unchecked)))
  }

  /** The worker's copy is consumed by any regular answer. */
  predicate Spent(max: int, w: Worker) {
    Terminal(w) || (w.Sending? && w.snap.retryCount >= max)
  }

  predicate Silent(max: int, c: Cell) {
    && c.queued == 0
    && !c.creator.Listed? && !c.creator.Publishing? && !c.poller.Listed?
    && (c.row.status != Pending || c.row.scheduledAt.None?)
    && (forall t :: t in c.workers ==> Spent(max, c.workers[t]))
  }

  lemma SilentNext(max: int, c: Cell, e: Event)
    requires Silent(max, c) && Enabled(c, e) && Regular(e)
    ensures Silent(max, Next(max, c, e)) && Next(max, c, e).sendTimes == c.sendTimes
  {
    if e.Work? {
      SpentTurn(max, c, c.workers[e.tag], e.what);
    }
  }

  lemma SpentTurn(max: int, c: Cell, w: Worker, we: WorkerEvent)
    requires Spent(max, w) && CanWork(c.now, w, we) && !(we.SendDone? && we.outcome.Untyped?)
    ensures Disposes(we) || Spent(max, Turn(max, c, w, we))
    ensures var d := Effect(c, w, we);
            && d.queued == c.queued && d.creator == c.creator && d.poller == c.poller && d.sendTimes == c.sendTimes
            && d.row.scheduledAt == c.row.scheduledAt && (d.row.status == c.row.status || d.row.status != Pending)
  {
  }

  lemma {:induction false} SilentRun(max: int, c: Cell, es: seq<Event>)
    requires Silent(max, c) && Valid(max, c, es) && forall i :: 0 <= i < |es| ==> Regular(es[i])
    ensures Silent(max, Run(max, c, es)) && Run(max, c, es).sendTimes == c.sendTimes
    decreases |es|
  {
    if es != [] {
      SilentNext(max, c, es[0]);
      SilentRun(max, Next(max, c, es[0]), es[1..]);
    }
  }

  /** An answer that consumes a spent copy leaves whatever else keeps the notification alive. */
  lemma AnswerKeepsAlive(max: int, c: Cell, tag: Tag)
    requires tag in c.workers && c.workers[tag].Sending? && Spent(max, c.workers[tag]) && !Silent(max, c)
    ensures Enabled(c, Work(tag, SendDone(Accept, 0)))
    ensures !Silent(max, Next(max, c, Work(tag, SendDone(Accept, 0))))
  {
    var d := Next(max, c, Work(tag, SendDone(Accept, 0)));
    if t :| t in c.workers && !Spent(max, c.workers[t]) {
      assert t in d.workers && d.workers[t] == c.workers[t];
    }
  }

  // ---- The way to the provider

  lemma FreshTag(used: set<Tag>) returns (tag: Tag)
    ensures forall t :: t in used ==> t < tag
    decreases used
  {
    if used == {} {
      tag := 0;
    } else {
      var t :| t in used;
      var above := FreshTag(used - {t});
      tag := if t < above then above else t + 1;
      assert forall x :: x in used ==> x == t || x in used - {t};
    }
  }

  function Rank(w: Worker): nat {
    match w
    case Sending(_) => 13
    case Retrying(_, _) => 12
    case Requeueing => 11
    case Fetched => 9
    case Loaded(_) => 8
    case Waiting(_) => 7
    case Ready(_) => 6
    case Begun(_) => 5
    case Admitted(_, _, _) => 4
    case Cleared(_) => 3
    case _ => 0
  }

  /** A step that brings a live worker nearer to a provider call, a regular one where there is one. */
  function Toward(max: int, rate: nat, w: Worker): WorkerEvent {
    match w
    case Sending(snap) => SendDone(if snap.retryCount < max then Retryable else Untyped, 0)
    case Retrying(next, _) => Increment(true, next)
    case Fetched => Load(true)
    case Loaded(_) => Check
    case Waiting(_) => Elapse
    case Ready(_) => Begin(true, true)
    case Begun(_) => Admit(true)
    case Admitted(_, _, _) => Limit(if rate > 0 then Token else Unchecked)
    case Cleared(_) => SendStart
    case _ => Requeue
  }

  lemma TowardRanks(max: int, c: Cell, rate: nat, w: Worker)
    requires !Terminal(w) && !w.Cleared? && !w.Requeueing? && (w.Waiting? ==> Reached(w.snap.nextRetryAt, c.now))
    requires w.Admitted? ==> w.refused.None? || w.refused.value + WAIT_PAUSE <= c.now
    ensures CanWork(c.now, w, Toward(max, rate, w)) && !Disposes(Toward(max, rate, w))
    ensures var v := Turn(max, c, w, Toward(max, rate, w));
            !Spent(max, v) && Rank(v) < Rank(w) && (w.Begun? || w.Admitted? ==> InFlight(v))
  {
  }
}
