/**
  `Process` as the worker runs it: one database, breaker, limiter, provider or broker call after another,
  with any other actor free to act on the same notification in between.
*/
module ProcessWorker {
  import opened Records
  import opened Delivery
  import opened Census
  import opened CircuitBreaker
  import opened RateLimiter
  import Ledger
  import Backoff

  /** What the outside world answers during one call of Process. */
  datatype Answers = Answers(
    loadOk: bool,
    ctxDone: bool,
    beginApplied: bool,
    beginReported: bool,
    rounds: int -> seq<Round>,   // how a wait for the limiter goes that starts at this time
    outcome: Outcome,
    jitter: nat,
    storeOk: bool)

  ghost predicate Possible(a: Answers) {
    (a.beginReported ==> a.beginApplied) && (forall start :: Rounds(start, a.rounds(start))) && a.jitter < Backoff.JITTER
  }

  /** How reading the row and sitting out its backoff ends. */
  datatype Wakeup = Missing | Quitting | Awake(waited: bool)

  /** How far a call of Process got, and when it asked the breaker and had the provider's answer. */
  datatype Report =
    | Unread
    | GaveUp
    | Unmarked(waited: bool)
    | Refused(waited: bool, asked: Time)
    | Blocked(waited: bool, asked: Time, wait: WaitResult, refusals: nat)
    | Called(waited: bool, asked: Time, wait: WaitResult, refusals: nat, answered: Time)

  /** What ends a wait without an error: a token, or Redis being down. */
  predicate LetsThrough(r: WaitResult) {
    r.Passed? || r.FailedOpen?
  }

  /** A worker after so many refusals, the last one a pause ago. */
  predicate Knocked(before: Worker, w: Worker, refusals: nat, now: Time) {
    && before.Admitted? && w.Admitted? && w.snap == before.snap && w.since == before.since
    && (if refusals == 0 then w.refused == before.refused else w.refused.Some? && w.refused.value + WAIT_PAUSE <= now)
  }

  /** How the last round of a wait ends. */
  function GateOf(r: WaitResult): Gate {
    match r
    case Passed => Token
    case FailedOpen => Unchecked
    case TimedOut => TimeOut
    case Aborted => Quit
  }

  predicate AskedBreaker(r: Report) {
    r.Refused? || r.Blocked? || r.Called?
  }

  /** That many rounds at the limiter end in a refusal. */
  function Refusals(n: nat): (es: seq<WorkerEvent>)
    ensures |es| == n && forall i :: 0 <= i < n ==> es[i] == Limit(Refusal)
  {
    if n == 0 then [] else Refusals(n - 1) + [Limit(Refusal)]
  }

  /** How a wait went: the caller's requests in the limiter's history, and the round that ended it. */
  ghost predicate InLine(a: Answers, rate: nat, earlier: seq<int>, times: seq<int>, mine: seq<nat>, wait: WaitResult, refusals: nat) {
    && |mine| == refusals + One(wait == Passed)
    && Waited(rate, earlier, times, mine, wait == Passed)
    && exists start, last :: EndedBy(a.rounds(start), wait, |mine|, last)
  }

  /** The limiter is asked only past the breaker; the provider is called exactly when the wait ends without an error. */
  ghost predicate WaitedFor(r: Report, a: Answers, rate: nat, earlier: seq<int>, times: seq<int>, mine: seq<nat>) {
    if r.Blocked? || r.Called? then
      (r.Called? <==> LetsThrough(r.wait)) && InLine(a, rate, earlier, times, mine, r.wait, r.refusals)
    else times == earlier
  }

  /** How a provider call ends for the delivery. */
  function Verdict(max: int, snap: Row, outcome: Outcome): Disposition {
    match outcome
    case Accept => Acked
    case Retryable => if snap.retryCount < max then Requeued else DeadLettered
    case NonRetryable => DeadLettered
    case Untyped => Requeued
  }

  function Closing(d: Disposition): WorkerEvent {
    match d
    case Acked => Ack
    case Requeued => Requeue
    case DeadLettered => Reject
  }

  /** Nobody else moves this delivery's worker. */
  lemma OthersKeep(max: int, c: Cell, e: Event, tag: Tag)
    requires Enabled(c, e) && tag in c.workers && !(e.Work? && e.tag == tag)
    ensures var d := Next(max, c, e); tag in d.workers && d.workers[tag] == c.workers[tag] && d.now >= c.now
  {
  }

  /** A notification with the run that led to its present state. */
  class Desk {
    const maxRetries: int
    var cell: Cell
    ghost const origin: Cell
    ghost var log: seq<Event>

    /** The log is a run from a sound state to here. (Quantified so that a proof unfolds the run only where it names it.) */
    ghost predicate Consistent()
      reads this
    {
      forall es :: es == log ==>
        Ledger.Inv(maxRetries, origin) && Valid(maxRetries, origin, es) && cell == Run(maxRetries, origin, es)
    }

    constructor (maxRetries: int, cell: Cell)
      requires Ledger.Inv(maxRetries, cell)
      ensures Consistent() && this.cell == cell && origin == cell && this.maxRetries == maxRetries && log == []
    {
      this.maxRetries := maxRetries;
      this.cell := cell;
      this.origin := cell;
      this.log := [];
    }

    lemma StaysSound()
      requires Consistent()
      ensures Ledger.Inv(maxRetries, cell)
    {
      assert Valid(maxRetries, origin, log);
      Ledger.InvRun(maxRetries, origin, log);
    }

    method Step(e: Event)
      requires Consistent() && Enabled(cell, e)
      modifies this
      ensures Consistent()
      ensures cell == Next(maxRetries, old(cell), e) && log == old(log) + [e]
    {
      assert Valid(maxRetries, origin, log);
      RunAppend(maxRetries, origin, log, [e]);
      cell := Next(maxRetries, cell, e);
      log := log + [e];
    }

    /** What this delivery's worker did so far. */
    ghost function Done(tag: Tag): seq<WorkerEvent>
      reads this
    {
      Mine(log, tag)
    }

    /** Other actors take what steps they can; none of them acts for this delivery. */
    method Interfere(others: seq<Event>, tag: Tag)
      requires Consistent() && tag in cell.workers
      modifies this
      ensures Consistent() && Done(tag) == old(Done(tag))
      ensures tag in cell.workers && cell.workers[tag] == old(cell.workers[tag]) && cell.now >= old(cell.now)
    {
      for i := 0 to |others|
        invariant Consistent() && Done(tag) == old(Done(tag))
        invariant tag in cell.workers && cell.workers[tag] == old(cell.workers[tag]) && cell.now >= old(cell.now)
      {
        var e := others[i];
        if Enabled(cell, e) && !(e.Work? && e.tag == tag) {
          MineAppend(log, e, tag);
          OthersKeep(maxRetries, cell, e, tag);
          Step(e);
        }
      }
    }

    /** One call of Process, then whatever others do before the next one. */
    method Act(tag: Tag, we: WorkerEvent, others: seq<Event>)
      requires Consistent() && tag in cell.workers && CanWork(cell.now, cell.workers[tag], we) && !Disposes(we)
      modifies this
      ensures Consistent() && Done(tag) == old(Done(tag)) + [we]
      ensures tag in cell.workers && cell.workers[tag] == Turn(maxRetries, old(cell), old(cell.workers[tag]), we)
      ensures cell.now >= old(cell.now)
    {
      MineAppend(log, Work(tag, we), tag);
      Step(Work(tag, we));
      Interfere(others, tag);
    }

    method Dispose(tag: Tag, d: Disposition)
      requires Consistent() && tag in cell.workers && CanWork(cell.now, cell.workers[tag], Closing(d))
      modifies this
      ensures Consistent() && tag !in cell.workers && tag in cell.disposed && cell.now == old(cell.now)
      ensures Done(tag) == old(Done(tag)) + [Closing(d)]
      ensures log == old(log) + [Work(tag, Closing(d))]
    {
      MineAppend(log, Work(tag, Closing(d)), tag);
      Step(Work(tag, Closing(d)));
    }

    /** Time passes. */
    method Pass(tag: Tag, to: Time)
      requires Consistent() && tag in cell.workers && cell.now <= to
      modifies this
      ensures Consistent() && tag in cell.workers && cell.workers[tag] == old(cell.workers[tag]) && cell.now == to
      ensures Done(tag) == old(Done(tag))
    {
      MineAppend(log, Tick(to), tag);
      Step(Tick(to));
    }

    /**
      Whatever the world answers and whatever others do meanwhile, Process is a run of the machine that keeps every
      invariant. What it does for its delivery is, in order: read the row, sit out the backoff if the row's retry
      time has not come, mark the row processing, ask the breaker, wait for the limiter, call the provider, make the
      one row update that the answer calls for, and tell the broker; `report` says where it broke off. It calls the
      provider exactly when the breaker, as its whole trace left it, admits and the limiter lets it through, and
      reports each answer to the breaker once.
    */
    method Process(tag: Tag, a: Answers, breaker: SharedBreaker, limiter: Limiter,
                   others: nat -> seq<Event>, rivals: nat -> seq<Op>)
      returns (report: Report, disposition: Disposition, ghost mine: seq<nat>)
      requires Consistent()
      requires tag in cell.workers && cell.workers[tag].Fetched? && Possible(a)
      requires breaker.Valid() && limiter.Valid() && 1000 * limiter.clock <= cell.now
      modifies this, breaker, limiter
      ensures Consistent() && Ledger.Inv(maxRetries, cell)
      ensures breaker.Valid() && limiter.Valid() && 1000 * limiter.clock <= cell.now
      ensures tag !in cell.workers && tag in cell.disposed
      ensures Done(tag) == old(Done(tag)) + Script(maxRetries, old(cell.row), a, report)
      ensures log != [] && log[|log| - 1] ==
                Work(tag, match disposition case Acked => Ack case Requeued => Requeue case DeadLettered => Reject)
      ensures disposition ==
                if !report.Called? || a.outcome == Untyped then Requeued
                else if a.outcome == Accept then Acked
                else if a.outcome == Retryable && old(cell.row).retryCount < maxRetries then Requeued
                else DeadLettered
      ensures report.Unread? <==> !a.loadOk
      ensures report.GaveUp? ==> a.ctxDone
      ensures report.GaveUp? || (!report.Unread? && report.waited) ==> !Reached(old(cell.row).nextRetryAt, old(cell.now))
      ensures a.loadOk && Reached(old(cell.row).nextRetryAt, old(cell.now)) ==> !report.GaveUp? && !report.waited
      ensures !report.Unread? && !report.GaveUp? ==> (report.Unmarked? <==> !a.beginReported)
      ensures breaker.trace == old(breaker.trace)
                + (if report.Called? then
                     rivals(0) + [AllowAt(report.asked)]
                     + (rivals(1) + [if a.outcome == Accept then SuccessAt(report.answered) else FailureAt(report.answered)])
                   else if report.Refused? || report.Blocked? then rivals(0) + [AllowAt(report.asked)] else [])
      ensures AskedBreaker(report) ==>
                (report.Refused? <==> !Admits(Fold(New(breaker.created), old(breaker.trace) + rivals(0)), report.asked))
      ensures WaitedFor(report, a, limiter.rate, old(limiter.times), limiter.times, mine)
    {
      report, disposition, mine := Handle(tag, a, breaker, limiter, others, rivals);
      Assoc(old(Done(tag)), Handling(maxRetries, old(cell.row), a, report), [Closing(disposition)]);
      Dispose(tag, disposition);
      StaysSound();
    }

    /** All of Process but the last word to the broker. */
    method Handle(tag: Tag, a: Answers, breaker: SharedBreaker, limiter: Limiter,
                  others: nat -> seq<Event>, rivals: nat -> seq<Op>)
      returns (report: Report, disposition: Disposition, ghost mine: seq<nat>)
      requires Consistent() && tag in cell.workers && cell.workers[tag].Fetched? && Possible(a)
      requires breaker.Valid() && limiter.Valid() && 1000 * limiter.clock <= cell.now
      modifies this, breaker, limiter
      ensures Consistent() && breaker.Valid() && limiter.Valid() && 1000 * limiter.clock <= cell.now
      ensures tag in cell.workers && CanWork(cell.now, cell.workers[tag], Closing(disposition))
      ensures Done(tag) == old(Done(tag)) + Handling(maxRetries, old(cell.row), a, report)
      ensures disposition == if report.Called? then Verdict(maxRetries, old(cell.row), a.outcome) else Requeued
      ensures Faithful(report, a, old(cell.row), old(cell.now))
      ensures breaker.trace == old(breaker.trace)
                + (if report.Called? then
                     rivals(0) + [AllowAt(report.asked)]
                     + (rivals(1) + [if a.outcome == Accept then SuccessAt(report.answered) else FailureAt(report.answered)])
                   else if report.Refused? || report.Blocked? then rivals(0) + [AllowAt(report.asked)] else [])
      ensures AskedBreaker(report) ==>
                (report.Refused? <==> !Admits(Fold(New(breaker.created), old(breaker.trace) + rivals(0)), report.asked))
      ensures WaitedFor(report, a, limiter.rate, old(limiter.times), limiter.times, mine)
    {
      report, mine := Approach(tag, a, breaker, limiter, others, rivals);
      disposition := Requeued;
      if report.Called? {
        var answered;
        answered, disposition := Attempt(tag, a, breaker, others, rivals);
        Assoc(old(Done(tag)), Steps(report, a), Calling(maxRetries, old(cell.row), a, answered));
        Assoc(old(breaker.trace), rivals(0) + [AllowAt(report.asked)],
              rivals(1) + [if a.outcome == Accept then SuccessAt(answered) else FailureAt(answered)]);
        report := Called(report.waited, report.asked, report.wait, report.refusals, answered);
      }
    }

    /** The provider call and what follows from its answer, up to the disposition. */
    method Attempt(tag: Tag, a: Answers, breaker: SharedBreaker, others: nat -> seq<Event>, rivals: nat -> seq<Op>)
      returns (answered: Time, d: Disposition)
      requires Consistent() && tag in cell.workers && cell.workers[tag].Cleared? && Possible(a) && breaker.Valid()
      modifies this, breaker
      ensures Consistent() && tag in cell.workers && breaker.Valid() && cell.now >= old(cell.now)
      ensures breaker.trace == old(breaker.trace)
                + (rivals(1) + [if a.outcome == Accept then SuccessAt(answered) else FailureAt(answered)])
      ensures d == Verdict(maxRetries, old(cell.workers[tag].snap), a.outcome)
      ensures CanWork(cell.now, cell.workers[tag], Closing(d))
      ensures Done(tag) == old(Done(tag)) + Calling(maxRetries, old(cell.workers[tag].snap), a, answered)
    {
      answered := Send(tag, a, breaker, others, rivals);
      d := Record(tag, a.storeOk, others);
    }

    /** Everything before the provider call. A report of `Called` is a call about to be made; its answer comes later. */
    method Approach(tag: Tag, a: Answers, breaker: SharedBreaker, limiter: Limiter,
                    others: nat -> seq<Event>, rivals: nat -> seq<Op>) returns (report: Report, ghost mine: seq<nat>)
      requires Consistent() && tag in cell.workers && cell.workers[tag].Fetched? && Possible(a)
      requires breaker.Valid() && limiter.Valid() && 1000 * limiter.clock <= cell.now
      modifies this, breaker, limiter
      ensures Consistent() && tag in cell.workers && cell.now >= old(cell.now)
      ensures breaker.Valid() && limiter.Valid() && 1000 * limiter.clock <= cell.now
      ensures cell.workers[tag] == if report.Called? then Cleared(old(cell.row)) else Requeueing
      ensures Done(tag) == old(Done(tag)) + Steps(report, a)
      ensures Faithful(report, a, old(cell.row), old(cell.now))
      ensures breaker.trace == old(breaker.trace) + if AskedBreaker(report) then rivals(0) + [AllowAt(report.asked)] else []
      ensures AskedBreaker(report) ==>
                (report.Refused? <==> !Admits(Fold(New(breaker.created), old(breaker.trace) + rivals(0)), report.asked))
      ensures WaitedFor(report, a, limiter.rate, old(limiter.times), limiter.times, mine)
    {
      mine := [];
      var wakeup := Wake(tag, a, others);
      match wakeup
      case Missing => report := Unread;
      case Quitting => report := GaveUp;
      case Awake(waited) =>
        report, mine := PassGates(tag, waited, a, breaker, limiter, others, rivals);
        Assoc(old(Done(tag)), Waking(wakeup), Gating(report, a));
    }

    /** Read the row and sit out the backoff its snapshot asks for. */
    method Wake(tag: Tag, a: Answers, others: nat -> seq<Event>) returns (r: Wakeup)
      requires Consistent() && tag in cell.workers && cell.workers[tag].Fetched?
      modifies this
      ensures Consistent() && tag in cell.workers && cell.now >= old(cell.now)
      ensures cell.workers[tag] == if r.Awake? then Ready(old(cell.row)) else Requeueing
      ensures r.Awake? ==> Reached(old(cell.row).nextRetryAt, cell.now)
      ensures r.Missing? <==> !a.loadOk
      ensures r.Quitting? ==> a.ctxDone
      ensures r.Quitting? || r == Awake(true) ==> !Reached(old(cell.row).nextRetryAt, old(cell.now))
      ensures a.loadOk && Reached(old(cell.row).nextRetryAt, old(cell.now)) ==> r == Awake(false)
      ensures Done(tag) == old(Done(tag)) + Waking(r)
    {
      Act(tag, Load(a.loadOk), others(0));
      if !a.loadOk {
        return Missing;
      }
      Act(tag, Check, others(1));
      if cell.workers[tag].Waiting? {
        var ready := SitOut(tag, a.ctxDone, others);
        return if ready then Awake(true) else Quitting;
      }
      return Awake(false);
    }

    /** The backoff: its time passes, or the process shuts down first. */
    method SitOut(tag: Tag, ctxDone: bool, others: nat -> seq<Event>) returns (ready: bool)
      requires Consistent() && tag in cell.workers && cell.workers[tag].Waiting? && cell.workers[tag].snap.nextRetryAt.Some?
      modifies this
      ensures Consistent() && tag in cell.workers && cell.now >= old(cell.now)
      ensures ready <==> !ctxDone
      ensures cell.workers[tag] == if ready then Ready(old(cell.workers[tag].snap)) else Requeueing
      ensures ready ==> Reached(old(cell.workers[tag].snap.nextRetryAt), cell.now)
      ensures Done(tag) == old(Done(tag)) + [if ready then Elapse else Abort]
    {
      if ctxDone {
        Act(tag, Abort, others(2));
        return false;
      }
      Pass(tag, Max(cell.now, cell.workers[tag].snap.nextRetryAt.value));
      Act(tag, Elapse, others(3));
      return true;
    }

    /** Mark the row processing, then pass the circuit breaker and the rate limiter. */
    method PassGates(tag: Tag, waited: bool, a: Answers, breaker: SharedBreaker, limiter: Limiter,
                     others: nat -> seq<Event>, rivals: nat -> seq<Op>) returns (report: Report, ghost mine: seq<nat>)
      requires Consistent() && tag in cell.workers && cell.workers[tag].Ready? && Possible(a)
      requires breaker.Valid() && limiter.Valid() && 1000 * limiter.clock <= cell.now
      modifies this, breaker, limiter
      ensures Consistent() && tag in cell.workers && cell.now >= old(cell.now)
      ensures breaker.Valid() && limiter.Valid() && 1000 * limiter.clock <= cell.now
      ensures !report.Unread? && !report.GaveUp? && report.waited == waited
      ensures cell.workers[tag] == if report.Called? then Cleared(old(cell.workers[tag].snap)) else Requeueing
      ensures Done(tag) == old(Done(tag)) + Gating(report, a)
      ensures report.Unmarked? <==> !a.beginReported
      ensures breaker.trace == old(breaker.trace) + if AskedBreaker(report) then rivals(0) + [AllowAt(report.asked)] else []
      ensures AskedBreaker(report) ==>
                (report.Refused? <==> !Admits(Fold(New(breaker.created), old(breaker.trace) + rivals(0)), report.asked))
      ensures WaitedFor(report, a, limiter.rate, old(limiter.times), limiter.times, mine)
    {
      mine := [];
      Act(tag, Begin(a.beginApplied, a.beginReported), others(4));
      if !a.beginReported {
        return Unmarked(waited), mine;
      }
      report, mine := PassBreaker(tag, waited, a, breaker, limiter, others, rivals);
      Assoc(old(Done(tag)), [Begin(a.beginApplied, a.beginReported)], AtBreaker(report));
    }

    /** Pass the circuit breaker and the rate limiter. */
    method PassBreaker(tag: Tag, waited: bool, a: Answers, breaker: SharedBreaker, limiter: Limiter,
                       others: nat -> seq<Event>, rivals: nat -> seq<Op>) returns (report: Report, ghost mine: seq<nat>)
      requires Consistent() && tag in cell.workers && cell.workers[tag].Begun? && Possible(a)
      requires breaker.Valid() && limiter.Valid() && 1000 * limiter.clock <= cell.now
      modifies this, breaker, limiter
      ensures Consistent() && tag in cell.workers && cell.now >= old(cell.now)
      ensures breaker.Valid() && limiter.Valid() && 1000 * limiter.clock <= cell.now
      ensures AskedBreaker(report) && report.waited == waited
      ensures cell.workers[tag] == if report.Called? then Cleared(old(cell.workers[tag].snap)) else Requeueing
      ensures Done(tag) == old(Done(tag)) + AtBreaker(report)
      ensures breaker.trace == old(breaker.trace) + (rivals(0) + [AllowAt(report.asked)])
      ensures report.Refused? <==> !Admits(Fold(New(breaker.created), old(breaker.trace) + rivals(0)), report.asked)
      ensures WaitedFor(report, a, limiter.rate, old(limiter.times), limiter.times, mine)
    {
      mine := [];
      var asked, allowed := AskBreaker(tag, breaker, others, rivals);
      if !allowed {
        return Refused(waited, asked), mine;
      }
      var wait, refusals;
      wait, refusals, mine := AwaitLimiter(tag, a, limiter, others);
      Assoc(old(Done(tag)), [Admit(true)], Refusals(refusals) + [Limit(GateOf(wait))]);
      report := if LetsThrough(wait) then Called(waited, asked, wait, refusals, asked) else Blocked(waited, asked, wait, refusals);
    }

    /** The breaker's answer is the one the machine goes on with. */
    method AskBreaker(tag: Tag, breaker: SharedBreaker, others: nat -> seq<Event>, rivals: nat -> seq<Op>)
      returns (asked: Time, allowed: bool)
      requires Consistent() && tag in cell.workers && cell.workers[tag].Begun? && breaker.Valid()
      modifies this, breaker
      ensures Consistent() && tag in cell.workers && breaker.Valid() && cell.now >= old(cell.now)
      ensures asked == old(cell.now) && breaker.trace == old(breaker.trace) + (rivals(0) + [AllowAt(asked)])
      ensures allowed <==> Admits(Fold(New(breaker.created), old(breaker.trace) + rivals(0)), asked)
      ensures cell.workers[tag] == if allowed then Admitted(old(cell.workers[tag].snap), asked, None) else Requeueing
      ensures Done(tag) == old(Done(tag)) + [Admit(allowed)]
    {
      breaker.Serve(rivals(0));
      asked := cell.now;
      allowed := breaker.Allow(asked);
      Act(tag, Admit(allowed), others(5));
    }

    /**
      Wait for the limiter: each of its script runs is a step of the machine, and so is the way the wait ends. The
      limiter reads the same clock in microseconds.
    */
    method AwaitLimiter(tag: Tag, a: Answers, limiter: Limiter, others: nat -> seq<Event>)
      returns (wait: WaitResult, refusals: nat, ghost mine: seq<nat>)
      requires Consistent() && tag in cell.workers && Possible(a)
      requires var w := cell.workers[tag]; w.Admitted? && w.refused.None? && w.since <= cell.now
      requires limiter.Valid() && 1000 * limiter.clock <= cell.now
      modifies this, limiter
      ensures Consistent() && tag in cell.workers && limiter.Valid() && 1000 * limiter.clock <= cell.now
      ensures cell.now >= old(cell.now)
      ensures cell.workers[tag] == if LetsThrough(wait) then Cleared(old(cell.workers[tag].snap)) else Requeueing
      ensures InLine(a, limiter.rate, old(limiter.times), limiter.times, mine, wait, refusals)
      ensures Done(tag) == old(Done(tag)) + (Refusals(refusals) + [Limit(GateOf(wait))])
    {
      var ended;
      wait, ended, refusals, mine := Queue(a, limiter, Micros(cell.now));
      Knock(tag, refusals, others);
      Pass(tag, Max(cell.now, 1000 * (ended + 1)));
      Act(tag, Limit(GateOf(wait)), others(6));
    }

    method Queue(a: Answers, limiter: Limiter, start: int)
      returns (wait: WaitResult, ended: int, refusals: nat, ghost mine: seq<nat>)
      requires Possible(a) && limiter.Valid() && limiter.clock <= start
      modifies limiter
      ensures limiter.Valid() && limiter.clock <= ended && (wait == TimedOut ==> start + PATIENCE <= ended)
      ensures wait == TimedOut || wait == Aborted ==> refusals > 0
      ensures InLine(a, limiter.rate, old(limiter.times), limiter.times, mine, wait, refusals)
    {
      var asks, last;
      wait, ended, asks, last, mine := limiter.Wait(start, a.rounds(start));
      assert EndedBy(a.rounds(start), wait, |mine|, last);
      refusals := if wait == Passed then asks - 1 else asks;
    }

    /** Rounds at the limiter that end in a refusal, each with the pause after it. */
    method Knock(tag: Tag, refusals: nat, others: nat -> seq<Event>)
      requires Consistent() && tag in cell.workers && cell.workers[tag].Admitted? && cell.workers[tag].refused.None?
      modifies this
      ensures Consistent() && tag in cell.workers && cell.now >= old(cell.now)
      ensures Knocked(old(cell.workers[tag]), cell.workers[tag], refusals, cell.now)
      ensures Done(tag) == old(Done(tag)) + Refusals(refusals)
    {
      for i := 0 to refusals
        invariant Consistent() && tag in cell.workers && cell.now >= old(cell.now)
        invariant Knocked(old(cell.workers[tag]), cell.workers[tag], i, cell.now)
        invariant Done(tag) == old(Done(tag)) + Refusals(i)
      {
        Act(tag, Limit(Refusal), others(10 + i));
        Pass(tag, Max(cell.now, cell.workers[tag].refused.value + WAIT_PAUSE));
      }
    }

    /** Call the provider, report its answer to the breaker, and classify it. */
    method Send(tag: Tag, a: Answers, breaker: SharedBreaker, others: nat -> seq<Event>, rivals: nat -> seq<Op>)
      returns (answered: Time)
      requires Consistent() && tag in cell.workers && cell.workers[tag].Cleared? && Possible(a) && breaker.Valid()
      modifies this, breaker
      ensures Consistent() && tag in cell.workers && breaker.Valid() && old(cell.now) <= answered <= cell.now
      ensures breaker.trace == old(breaker.trace)
                + (rivals(1) + [if a.outcome == Accept then SuccessAt(answered) else FailureAt(answered)])
      ensures var w, snap := cell.workers[tag], old(cell.workers[tag].snap);
              match a.outcome
              case Accept => w.Accepted?
              case Retryable =>
                if snap.retryCount < maxRetries then
                  && w.Retrying? && w.next == answered + Backoff.Delay(snap.retryCount, a.jitter)
                  && (snap.retryCount <= 33 ==>
                        w.next == answered + (if snap.retryCount < 5 then Backoff.Pow2(snap.retryCount) else 30) * 1_000_000_000
                                  + a.jitter)
                else w.Exhausted?
              case NonRetryable => w.Exhausted?
              case Untyped => w.Requeueing?
      ensures Done(tag) == old(Done(tag)) + [SendStart, SendDone(a.outcome, a.jitter)]
    {
      Act(tag, SendStart, others(7));
      breaker.Serve(rivals(1));
      answered := cell.now;
      Tell(breaker, a.outcome, answered);
      var _ := NextRetry(tag, a, answered);
      Act(tag, SendDone(a.outcome, a.jitter), others(8));
    }

    /** When the next try is due, if there is to be one: at the delay that calculateBackoff returns, as in the machine. */
    method NextRetry(tag: Tag, a: Answers, answered: Time) returns (next: Option<Time>)
      requires tag in cell.workers && cell.workers[tag].Sending? && Possible(a) && answered == cell.now
      ensures var snap := cell.workers[tag].snap;
              if a.outcome == Retryable && snap.retryCount < maxRetries then
                && next == Some(answered + Backoff.Delay(snap.retryCount, a.jitter))
                && (snap.retryCount <= 33 ==>
                      next == Some(answered + (if snap.retryCount < 5 then Backoff.Pow2(snap.retryCount) else 30) * 1_000_000_000
                                   + a.jitter))
              else next == None
      ensures var v := Turn(maxRetries, cell, cell.workers[tag], SendDone(a.outcome, a.jitter));
              next.Some? ==> v.Retrying? && v.next == next.value
    {
      var w := cell.workers[tag];
      next := None;
      if a.outcome == Retryable && w.snap.retryCount < maxRetries {
        var delay := Backoff.CalculateBackoff(w.snap.retryCount, a.jitter);
        Ledger.RetryTime(maxRetries, cell, w, a.jitter);
        next := Some(answered + delay);
      }
    }

    /** The Record call: success for an accepted message, failure for an error of any kind. */
    method Tell(breaker: SharedBreaker, outcome: Outcome, now: Time)
      requires breaker.Valid()
      modifies breaker
      ensures breaker.Valid()
      ensures breaker.trace == old(breaker.trace) + [match outcome
                                                     case Accept => SuccessAt(now)
                                                     case Retryable => FailureAt(now)
                                                     case NonRetryable => FailureAt(now)
                                                     case Untyped => FailureAt(now)]
    {
      if outcome.Accept? {
        breaker.RecordSuccess(now);
      } else {
        breaker.RecordFailure(now);
      }
    }

    /** Record the outcome in the row: the one update its kind calls for. Only the broker remains to be told. */
    method Record(tag: Tag, ok: bool, others: nat -> seq<Event>) returns (d: Disposition)
      requires Consistent() && tag in cell.workers
      requires var w := cell.workers[tag]; w.Accepted? || w.Retrying? || w.Exhausted? || w.Requeueing?
      modifies this
      ensures Consistent() && tag in cell.workers && CanWork(cell.now, cell.workers[tag], Closing(d))
      ensures cell.now >= old(cell.now)
      ensures var w := old(cell.workers[tag]);
              && d == (if w.Accepted? then Acked else if w.Exhausted? then DeadLettered else Requeued)
              && Done(tag) == old(Done(tag)) + (if w.Accepted? then [Stamp(ok)]
                                                else if w.Retrying? then [Increment(ok, w.next)]
                                                else if w.Exhausted? then [MarkFailed(ok)] else [])
    {
      var w := cell.workers[tag];
      if w.Accepted? {
        Act(tag, Stamp(ok), others(9));
        return Acked;
      }
      if w.Retrying? {
        Act(tag, Increment(ok, w.next), others(9));
        return Requeued;
      }
      if w.Exhausted? {
        Act(tag, MarkFailed(ok), others(9));
        return DeadLettered;
      }
      return Requeued;
    }
  }

  /** Where a call breaks off before the breaker, given what the database answered. */
  predicate Faithful(r: Report, a: Answers, row: Row, now: Time) {
    && (r.Unread? <==> !a.loadOk)
    && (r.GaveUp? ==> a.ctxDone)
    && (r.GaveUp? || (!r.Unread? && r.waited) ==> !Reached(row.nextRetryAt, now))
    && (a.loadOk && Reached(row.nextRetryAt, now) ==> !r.GaveUp? && !r.waited)
    && (!r.Unread? && !r.GaveUp? ==> (r.Unmarked? <==> !a.beginReported))
  }

  /** The steps of waking up, of passing the gates, and of both. */
  function Waking(r: Wakeup): seq<WorkerEvent> {
    match r
    case Missing => [Load(false)]
    case Quitting => [Load(true), Check, Abort]
    case Awake(waited) => if waited then [Load(true), Check, Elapse] else [Load(true), Check]
  }

  function AtBreaker(r: Report): seq<WorkerEvent>
    requires AskedBreaker(r)
  {
    if r.Refused? then [Admit(false)] else [Admit(true)] + (Refusals(r.refusals) + [Limit(GateOf(r.wait))])
  }

  function Gating(r: Report, a: Answers): seq<WorkerEvent> {
    if r.Unread? || r.GaveUp? then []
    else [Begin(a.beginApplied, a.beginReported)] + if r.Unmarked? then [] else AtBreaker(r)
  }

  function Steps(r: Report, a: Answers): seq<WorkerEvent> {
    if r.Unread? then Waking(Missing)
    else if r.GaveUp? then Waking(Quitting)
    else Waking(Awake(r.waited)) + Gating(r, a)
  }

  /** The steps of the provider call, up to the row update. */
  function Calling(max: int, row: Row, a: Answers, answered: Time): seq<WorkerEvent> {
    [SendStart, SendDone(a.outcome, a.jitter)]
    + match a.outcome
      case Accept => [Stamp(a.storeOk)]
      case Retryable =>
        if row.retryCount < max then [Increment(a.storeOk, answered + Backoff.Delay(row.retryCount, a.jitter))]
        else [MarkFailed(a.storeOk)]
      case NonRetryable => [MarkFailed(a.storeOk)]
      case Untyped => []
  }

  function Handling(max: int, row: Row, a: Answers, r: Report): seq<WorkerEvent> {
    if r.Called? then Steps(r, a) + Calling(max, row, a, r.answered) else Steps(r, a)
  }

  /** All that a call of Process does for its delivery, in order. */
  function Script(max: int, row: Row, a: Answers, r: Report): seq<WorkerEvent> {
    Handling(max, row, a, r) + [Closing(if r.Called? then Verdict(max, row, a.outcome) else Requeued)]
  }

  /** The script in full, as the database, the breaker, the limiter and the provider answer. */
  lemma ScriptMeans(max: int, row: Row, a: Answers, r: Report)
    requires r.Blocked? || r.Called? ==> (r.Called? <==> LetsThrough(r.wait))
    requires !r.Unread? && !r.GaveUp? ==> (r.Unmarked? <==> !a.beginReported)
    ensures Script(max, row, a, r) ==
            (match r
             case Unread => [Load(false)] + [Requeue]
             case GaveUp => [Load(true), Check, Abort] + [Requeue]
             case Unmarked(waited) =>
               (if waited then [Load(true), Check, Elapse] else [Load(true), Check])
               + [Begin(a.beginApplied, false)] + [Requeue]
             case Refused(waited, _) =>
               (if waited then [Load(true), Check, Elapse] else [Load(true), Check])
               + ([Begin(a.beginApplied, true)] + [Admit(false)]) + [Requeue]
             case Blocked(waited, _, wait, refusals) =>
               (if waited then [Load(true), Check, Elapse] else [Load(true), Check])
               + ([Begin(a.beginApplied, true)]
                  + ([Admit(true)] + (Refusals(refusals) + [Limit(if wait == TimedOut then TimeOut else Quit)]))) + [Requeue]
             case Called(waited, _, wait, refusals, answered) =>
               (if waited then [Load(true), Check, Elapse] else [Load(true), Check])
               + ([Begin(a.beginApplied, true)]
                  + ([Admit(true)] + (Refusals(refusals) + [Limit(if wait == Passed then Token else Unchecked)])))
               + ([SendStart, SendDone(a.outcome, a.jitter)]
                  + match a.outcome
                    case Accept => [Stamp(a.storeOk)]
                    case Retryable =>
                      if row.retryCount < max then
                        [Increment(a.storeOk, answered + Backoff.Delay(row.retryCount, a.jitter))]
                      else [MarkFailed(a.storeOk)]
                    case NonRetryable => [MarkFailed(a.storeOk)]
                    case Untyped => [])
               + [match a.outcome
                  case Accept => Ack
                  case Retryable => if row.retryCount < max then Requeue else Reject
                  case NonRetryable => Reject
                  case Untyped => Requeue])
  {
    if r.Called? {
      assert Waking(Awake(r.waited)) == if r.waited then [Load(true), Check, Elapse] else [Load(true), Check];
      assert GateOf(r.wait) == if r.wait == Passed then Token else Unchecked;
      assert Gating(r, a) == [Begin(a.beginApplied, true)] + ([Admit(true)] + (Refusals(r.refusals) + [Limit(GateOf(r.wait))]));
    } else if r.Blocked? {
      assert GateOf(r.wait) == if r.wait == TimedOut then TimeOut else Quit;
    }
  }
}
