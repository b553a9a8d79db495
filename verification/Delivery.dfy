/**
  The life of one notification, as a step-interleaved machine.

  A `Cell` holds everything that belongs to one id: its row, the broker's copies of its message, the
  deliveries that workers hold (each with a program counter and the row snapshot it read), and where the
  creating call and the scheduler stand with it. Every database, broker or provider call is one event;
  what the outside world answers is part of the event.
*/
module Delivery {
  import opened Records
  import Backoff

  type Tag = nat

  /** Where a publisher (the creating call, or the scheduler's poll loop) stands with this id. */
  datatype Task = Idle | Listed | Publishing | Marking

  datatype Outcome = Accept | Retryable | NonRetryable | Untyped

  /** The pause between two rounds at the rate limiter, and how long a worker waits there. */
  const WAIT_PAUSE: int := 10_000_000
  const WAIT_LIMIT: int := 5 * SECOND

  /**
    What comes of one round at the rate limiter: a token, a pass because Redis failed, or no token and a pause before
    the next round; a pause can also end the wait, at its deadline or on shutdown.
  */
  datatype Gate = Token | Unchecked | Refusal | TimeOut | Quit

  /** A retryable answer: when it came, and the snapshot's retry_count. */
  datatype Retry = Retry(answered: Time, attempt: nat)

  /** What a worker holding a delivery does next. */
  datatype Worker =
    | Fetched                // read the row
    | Loaded(snap: Row)      // compare the snapshot's next_retry_at with the clock
    | Waiting(snap: Row)     // sit out the backoff, or give up on shutdown
    | Ready(snap: Row)       // set status to processing
    | Begun(snap: Row)       // ask the circuit breaker
    | Admitted(snap: Row, since: Time, refused: Option<Time>)   // wait for the rate limiter, refused last then
    | Cleared(snap: Row)     // call the provider
    | Sending(snap: Row)     // the provider call is under way
    | Accepted               // record the acceptance in the row
    | Retrying(next: Time, why: Retry)   // increment retry_count, with this next_retry_at
    | Exhausted              // record the failure in the row
    | Acking
    | Requeueing
    | Rejecting

  datatype WorkerEvent =
    | Load(ok: bool)
    | Check
    | Elapse
    | Abort
    | Begin(applied: bool, reported: bool)
    | Admit(allowed: bool)
    | Limit(how: Gate)
    | SendStart
    | SendDone(outcome: Outcome, jitter: nat)
    | Stamp(ok: bool)
    | Increment(ok: bool, next: Time)
    | MarkFailed(ok: bool)
    | Ack
    | Requeue
    | Reject

  datatype Event =
    | Tick(to: Time)
    | Decide
    | PublishNew(taken: bool, reported: bool)   // whether the broker took the copy, and whether Publish returned no error
    | MarkNew(ok: bool)
    | Poll
    | PublishDue(taken: bool, reported: bool)
    | MarkDue(ok: bool)
    | Cancel(ok: bool)
    | Deliver(tag: Tag)
    | Work(tag: Tag, what: WorkerEvent)

  datatype Cell = Cell(
    now: Time,
    row: Row,
    creator: Task,
    skipped: bool,               // the creating call left the id to the scheduler
    poller: Task,
    queued: nat,                 // copies waiting in the broker queue
    workers: map<Tag, Worker>,   // copies held by workers
    disposed: set<Tag>,          // deliveries already acknowledged, requeued or rejected
    published: nat,
    acked: nat,
    dead: nat,                   // copies in the dead letter queue
    sendTimes: seq<Time>,        // when each provider call started
    accepts: nat,
    lostIncrements: nat,         // retry increments the database refused
    lostStamps: nat,             // sent/failed updates the database refused
    untyped: nat,                // provider errors that were neither retryable nor permanent
    permanent: nat,              // permanent provider errors
    retry: Option<Retry>,        // the answer that the stored next_retry_at follows
    failedMarks: nat,            // scheduler's queued updates the database refused
    lostPublishes: nat,          // publishes without an error that left no copy
    strayPublishes: nat)         // publishes with an error that left one

  /** A row as inserted, its creating call still to decide about publishing. */
  function Fresh(now: Time, scheduledAt: Option<Time>): Cell {
    Cell(now, Row(Pending, 0, None, scheduledAt, None, None), Listed, false, Idle, 0, map[], {},
         0, 0, 0, [], 0, 0, 0, 0, 0, None, 0, 0, 0)
  }

  /** A stored row is pending and untouched; nothing has been published, fetched or sent. */
  lemma FreshMeans(now: Time, scheduledAt: Option<Time>)
    ensures var c := Fresh(now, scheduledAt);
            && c.now == now && c.row.status == Pending && c.row.retryCount == 0 && c.row.scheduledAt == scheduledAt
            && c.row.nextRetryAt == c.row.sentAt == c.row.failedAt == None
            && c.creator == Listed && !c.skipped && c.poller == Idle
            && c.queued == c.published == c.acked == c.dead == c.accepts == 0
            && c.workers == map[] && c.disposed == {} && c.sendTimes == []
  {
  }

  // ---- A worker's own steps

  predicate CanWork(now: Time, w: Worker, e: WorkerEvent) {
    match e
    case Load(_) => w.Fetched?
    case Check => w.Loaded?
    case Elapse => w.Waiting? && Reached(w.snap.nextRetryAt, now)
    case Abort => w.Waiting?
    case Begin(applied, reported) => w.Ready? && (reported ==> applied)
    case Admit(_) => w.Begun?
    case Limit(how) => w.Admitted? && CanLimit(now, w.since, w.refused, how)
    case SendStart => w.Cleared?
    case SendDone(_, jitter) => w.Sending? && jitter < Backoff.JITTER
    case Stamp(_) => w.Accepted?
    case Increment(_, next) => w.Retrying? && next == w.next
    case MarkFailed(_) => w.Exhausted?
    case Ack => w.Acking?
    case Requeue => w.Requeueing?
    case Reject => w.Rejecting?
  }

  /** A round comes first or after a pause; only a worker that was refused can give up, and time out only at its deadline. */
  predicate CanLimit(now: Time, since: Time, refused: Option<Time>, how: Gate) {
    match how
    case TimeOut => refused.Some? && since + WAIT_LIMIT <= now
    case Quit => refused.Some?
    case _ => refused.None? || refused.value + WAIT_PAUSE <= now
  }

  predicate Disposes(e: WorkerEvent) {
    e.Ack? || e.Requeue? || e.Reject?
  }

  /** The worker's next program counter. */
  function Turn(max: int, c: Cell, w: Worker, e: WorkerEvent): Worker
    requires CanWork(c.now, w, e) && !Disposes(e)
  {
    match e
    case Load(ok) => if ok then Loaded(c.row) else Requeueing
    case Check => if Reached(w.snap.nextRetryAt, c.now) then Ready(w.snap) else Waiting(w.snap)
    case Elapse => Ready(w.snap)
    case Abort => Requeueing
    case Begin(_, reported) => if reported then Begun(w.snap) else Requeueing
    case Admit(allowed) => if allowed then Admitted(w.snap, c.now, None) else Requeueing
    case Limit(how) =>
      if how.Token? || how.Unchecked? then Cleared(w.snap)
      else if how.Refusal? then w.(refused := Some(c.now)) else Requeueing
    case SendStart => Sending(w.snap)
    case SendDone(Accept, _) => Accepted
    case SendDone(Retryable, jitter) =>
      if w.snap.retryCount < max then
        Retrying(c.now + Backoff.Delay(w.snap.retryCount, jitter), Retry(c.now, w.snap.retryCount))
      else Exhausted
    case SendDone(NonRetryable, _) => Exhausted
    case SendDone(Untyped, _) => Requeueing
    case Stamp(_) => Acking
    case Increment(_, _) => Requeueing
    case MarkFailed(_) => Rejecting
  }

  /** What the step changes outside the worker. */
  function Effect(c: Cell, w: Worker, e: WorkerEvent): Cell
    requires CanWork(c.now, w, e)
  {
    match e
    case Begin(true, _) => c.(row := c.row.(status := Processing))
    case SendStart => c.(sendTimes := c.sendTimes + [c.now])
    case SendDone(Accept, _) => c.(accepts := c.accepts + 1)
    case SendDone(NonRetryable, _) => c.(permanent := c.permanent + 1)
    case SendDone(Untyped, _) => c.(untyped := c.untyped + 1)
    case Stamp(true) => c.(row := c.row.(status := Sent, sentAt := Some(c.now)))
    case Stamp(false) => c.(lostStamps := c.lostStamps + 1)
    case Increment(true, next) =>
      c.(row := c.row.(retryCount := c.row.retryCount + 1, nextRetryAt := Some(next)), retry := Some(w.why))
    case Increment(false, _) => c.(lostIncrements := c.lostIncrements + 1)
    case MarkFailed(true) => c.(row := c.row.(status := Failed, failedAt := Some(c.now)))
    case MarkFailed(false) => c.(lostStamps := c.lostStamps + 1)
    case Ack => c.(acked := c.acked + 1)
    case Requeue => c.(queued := c.queued + 1)
    case Reject => c.(dead := c.dead + 1)
    case _ => c
  }

  // ---- The machine

  predicate Enabled(c: Cell, e: Event) {
    match e
    case Tick(to) => c.now <= to
    case Decide => c.creator.Listed?
    case PublishNew(_, _) => c.creator.Publishing?
    case MarkNew(_) => c.creator.Marking?
    case Poll => c.poller.Idle? && ScheduledReady(c.row, c.now)
    case PublishDue(_, _) => c.poller.Listed?
    case MarkDue(_) => c.poller.Marking?
    case Cancel(_) => true
    case Deliver(tag) => c.queued > 0 && tag !in c.workers && tag !in c.disposed
    case Work(tag, we) => tag in c.workers && CanWork(c.now, c.workers[tag], we)
  }

  /** The scheduler's selection: pending, scheduled, and due. */
  predicate ScheduledReady(row: Row, now: Time) {
    row.status == Pending && row.scheduledAt.Some? && row.scheduledAt.value <= now
  }

  /** What a publish does to the copies. Nothing is confirmed: the broker may lack what was reported, or hold what was not. */
  function Publish(c: Cell, taken: bool, reported: bool): Cell {
    c.(queued := c.queued + One(taken), published := c.published + One(taken),
       lostPublishes := c.lostPublishes + One(reported && !taken),
       strayPublishes := c.strayPublishes + One(taken && !reported))
  }

  function Next(max: int, c: Cell, e: Event): Cell
    requires Enabled(c, e)
  {
    match e
    case Tick(to) => c.(now := to)
    case Decide =>
      if Reached(c.row.scheduledAt, c.now) then c.(creator := Publishing) else c.(creator := Idle, skipped := true)
    case PublishNew(taken, reported) => Publish(c, taken, reported).(creator := if reported then Marking else Idle)
    case MarkNew(ok) =>
      if ok then c.(creator := Idle, row := c.row.(status := Queued)) else c.(creator := Idle)
    case Poll => c.(poller := Listed)
    case PublishDue(taken, reported) => Publish(c, taken, reported).(poller := if reported then Marking else Idle)
    case MarkDue(ok) =>
      if ok then c.(poller := Idle, row := c.row.(status := Queued))
      else c.(poller := Idle, failedMarks := c.failedMarks + 1)
    case Cancel(ok) =>
      if ok && (c.row.status == Pending || c.row.status == Queued) then c.(row := c.row.(status := Cancelled)) else c
    case Deliver(tag) => c.(queued := c.queued - 1, workers := c.workers[tag := Fetched])
    case Work(tag, we) =>
      var w := c.workers[tag];
      var d := Effect(c, w, we);
      if Disposes(we) then d.(workers := c.workers - {tag}, disposed := c.disposed + {tag})
      else d.(workers := c.workers[tag := Turn(max, c, w, we)])
  }

  /** Only workers, and deliveries to them, touch what workers hold and what they have sent. */
  lemma PublishersFrame(max: int, c: Cell, e: Event)
    requires Enabled(c, e) && !e.Work?
    ensures var d := Next(max, c, e);
            && c.now <= d.now && d.sendTimes == c.sendTimes && d.disposed == c.disposed
            && d.workers == (if e.Deliver? then c.workers[e.tag := Fetched] else c.workers)
            && d.row.retryCount == c.row.retryCount && d.row.nextRetryAt == c.row.nextRetryAt
            && d.lostIncrements == c.lostIncrements && d.untyped == c.untyped && d.permanent == c.permanent
            && d.retry == c.retry && d.dead == c.dead && d.published >= c.published
  {
  }

  /** Every event of `es` finds the cell ready for it. */
  predicate Valid(max: int, c: Cell, es: seq<Event>)
    decreases |es|
  {
    es == [] || (Enabled(c, es[0]) && Valid(max, Next(max, c, es[0]), es[1..]))
  }

  function Run(max: int, c: Cell, es: seq<Event>): Cell
    requires Valid(max, c, es)
    decreases |es|
  {
    if es == [] then c else Run(max, Next(max, c, es[0]), es[1..])
  }

  lemma {:induction false} RunAppend(max: int, c: Cell, es: seq<Event>, fs: seq<Event>)
    requires Valid(max, c, es)
    requires Valid(max, Run(max, c, es), fs)
    ensures Valid(max, c, es + fs)
    ensures Run(max, c, es + fs) == Run(max, Run(max, c, es), fs)
    decreases |es|
  {
    if es == [] {
      assert es + fs == fs;
    } else {
      RunAppend(max, Next(max, c, es[0]), es[1..], fs);
      assert (es + fs)[1..] == es[1..] + fs;
    }
  }
}
