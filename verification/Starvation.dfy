/**
  How a delivery is lost at the rate limiter: the other instances of the service that share the channel's bucket
  leave it no token until its wait is over. When that can happen, and what must have happened when it did.
*/
module Starvation {
  import opened Records
  import opened Delivery
  import opened Census
  import opened System
  import opened Guarantees
  import opened Prober
  import TokenBucket

  // ---- The rules of the wait

  /** What a worker at the limiter can do when, and what comes of it. */
  lemma AtTheLimiter(max: int, c: Cell, tag: Tag, how: Gate)
    requires tag in c.workers && c.workers[tag].Admitted?
    ensures var w := c.workers[tag];
            Enabled(c, Work(tag, Limit(how))) <==>
              match how
              case TimeOut => w.refused.Some? && c.now >= w.since + 5_000_000_000
              case Quit => w.refused.Some?
              case _ => w.refused.Some? ==> c.now >= w.refused.value + 10_000_000
    ensures Enabled(c, Work(tag, Limit(how))) ==>
              Next(max, c, Work(tag, Limit(how))).workers[tag] ==
                match how
                case Token => Cleared(c.workers[tag].snap)
                case Unchecked => Cleared(c.workers[tag].snap)
                case Refusal => Admitted(c.workers[tag].snap, c.workers[tag].since, Some(c.now))
                case _ => Requeueing
  {
  }

  lemma WaitBegins(max: int, c: Cell, tag: Tag)
    requires Enabled(c, Work(tag, Admit(true)))
    ensures Next(max, c, Work(tag, Admit(true))).workers[tag] == Admitted(c.workers[tag].snap, c.now, None)
  {
  }

  /** Whoever times out at the limiter has waited there for five seconds. */
  lemma {:induction false} PatientUntilDeadline(max: int, s: State, log: seq<Action>, d: Ticket)
    requires Consistent(s) && ValidRun(max, s, log) && AtLimiter(s, d) && Own(d.id, Work(d.tag, Limit(TimeOut))) in log
    ensures RunAll(max, s, log).now >= s.cells[d.id].workers[d.tag].since + 5_000_000_000
    decreases |log|
  {
    var a, t := log[0], Do(max, s, log[0]);
    assert log == [a] + log[1..];
    TimePasses(max, t, log[1..]);
    if a == Own(d.id, Work(d.tag, Limit(TimeOut))) {
      AtTheLimiter(max, s.cells[d.id], d.tag, TimeOut);
    } else {
      ConsistentStep(max, s, a);
      SinceKept(max, s, a, d);
      if AtLimiter(t, d) {
        PatientUntilDeadline(max, t, log[1..], d);
      } else {
        NeverLost(max, t, d, log[1..]);
      }
    }
  }

  lemma SinceKept(max: int, s: State, a: Action, d: Ticket)
    requires Can(s, a) && AtLimiter(s, d)
    ensures var t := Do(max, s, a);
            if AtLimiter(t, d) then t.cells[d.id].workers[d.tag].since == s.cells[d.id].workers[d.tag].since else Beyond(t, d)
  {
    if !(a.Own? && a.id == d.id) {
      OthersKeepWorkers(max, s, a, d.id);
    }
  }

  // ---- Draining the bucket

  /** Nothing has changed but the history of the channel's bucket. */
  ghost predicate OnlyAsked(s: State, t: State, ch: Channel) {
    t == s.(lanes := t.lanes) && SameBreaker(s, t, ch)
  }

  /** What the bucket holds for a request made now. */
  function Tokens(s: State, ch: Channel): int {
    var asked := s.lanes(ch).requests;
    TokenBucket.Available(s.rate, TokenBucket.State(s.rate, asked, |asked|), Micros(s.now))
  }

  lemma TokensDecide(s: State, ch: Channel)
    ensures HasToken(s, ch) <==> Tokens(s, ch) >= TokenBucket.MICRO
  {
    var asked := s.lanes(ch).requests;
    TokenBucket.PrefixState(s.rate, asked, asked + [Micros(s.now)], {}, |asked|);
  }

  /** A token that goes to another instance is one less. */
  lemma OneTaken(max: int, s: State, ch: Channel)
    requires HasToken(s, ch)
    ensures Tokens(Do(max, s, OtherInstance(ch, true)), ch) == Tokens(s, ch) - TokenBucket.MICRO
  {
    var asked := s.lanes(ch).requests;
    TokensDecide(s, ch);
    TokenBucket.PrefixState(s.rate, asked, asked + [Micros(s.now)], {}, |asked|);
    TokenBucket.RefillOfNothing(s.rate);
  }

  /** Other instances can empty the bucket at any moment, whatever its rate. */
  lemma {:induction false} Drain(max: int, s: State, ch: Channel) returns (log: seq<Action>, t: State)
    requires Consistent(s)
    ensures Goes(max, s, log, t) && Consistent(t) && OnlyAsked(s, t, ch) && !HasToken(t, ch)
    decreases Max(0, Tokens(s, ch))
  {
    if HasToken(s, ch) {
      var a := OtherInstance(ch, true);
      ConsistentStep(max, s, a);
      TokensDecide(s, ch);
      OneTaken(max, s, ch);
      log, t := Drain(max, Do(max, s, a), ch);
      GoesCons(max, s, a, log, t);
      log := [a] + log;
    } else {
      log, t := [], s;
    }
  }

  // ---- Waiting in vain

  /** The delivery's worker is at the limiter. */
  predicate AtLimiter(s: State, d: Ticket) {
    d.id in s.cells && d.tag in s.cells[d.id].workers && s.cells[d.id].workers[d.tag].Admitted?
  }

  /** Time has passed and other instances have asked; the delivery's worker is now `w` and nothing else has moved. */
  ghost predicate Left(s: State, t: State, d: Ticket, w: Worker) {
    && d.id in s.cells && Elsewhere(s, t, d.id) && SameBreaker(s, t, s.route(d.id))
    && t.cells[d.id] == s.cells[d.id].(now := t.now, workers := s.cells[d.id].workers[d.tag := w])
  }

  lemma LeftOn(s: State, t: State, u: State, d: Ticket, v: Worker, w: Worker)
    requires Left(s, t, d, v) && Left(t, u, d, w)
    ensures Left(s, u, d, w)
  {
    ElsewhereOn(s, t, u, d.id);
    assert s.cells[d.id].workers[d.tag := v][d.tag := w] == s.cells[d.id].workers[d.tag := w];
  }

  /** One step of the worker at the limiter. */
  lemma LimitStep(max: int, s: State, d: Ticket, how: Gate) returns (log: seq<Action>, t: State)
    requires Consistent(s) && AtLimiter(s, d) && (how.Refusal? ==> !HasToken(s, s.route(d.id)))
    requires how.Refusal? || how.TimeOut?
    requires var w := s.cells[d.id].workers[d.tag]; CanLimit(s.now, w.since, w.refused, how)
    ensures log == [Own(d.id, Work(d.tag, Limit(how)))] && Goes(max, s, log, t) && Consistent(t) && t.now == s.now
    ensures Left(s, t, d, if how.Refusal? then s.cells[d.id].workers[d.tag].(refused := Some(s.now)) else Requeueing)
  {
    var e := Work(d.tag, Limit(how));
    var a := Own(d.id, e);
    ConsistentStep(max, s, a);
    OwnElsewhere(max, s, d.id, e);
    t := Do(max, s, a);
    GoesCons(max, s, a, [], t);
    log := [a] + [];
  }

  lemma Idle(max: int, s: State, d: Ticket, to: Time) returns (log: seq<Action>, t: State)
    requires Consistent(s) && AtLimiter(s, d) && s.now <= to
    ensures log == [Clock(to)] && Goes(max, s, log, t) && Consistent(t) && t.now == to && Left(s, t, d, s.cells[d.id].workers[d.tag])
  {
    var a := Clock(to);
    ConsistentStep(max, s, a);
    t := Do(max, s, a);
    GoesCons(max, s, a, [], t);
    log := [a] + [];
    assert s.cells[d.id].workers[d.tag := s.cells[d.id].workers[d.tag]] == s.cells[d.id].workers;
  }

  /** A round that ends in a refusal, because other instances were faster. */
  lemma RefusedRound(max: int, s: State, d: Ticket) returns (log: seq<Action>, t: State)
    requires Consistent(s) && AtLimiter(s, d)
    requires var w := s.cells[d.id].workers[d.tag]; CanLimit(s.now, w.since, w.refused, Refusal)
    ensures Goes(max, s, log, t) && Consistent(t) && t.now == s.now
    ensures Left(s, t, d, s.cells[d.id].workers[d.tag].(refused := Some(s.now)))
  {
    var u, more;
    log, u := Drain(max, s, s.route(d.id));
    more, t := LimitStep(max, u, d, Refusal);
    GoesOn(max, s, log, u, more, t);
    log := log + more;
  }

  /** Round after round, a pause apart, until the deadline: then the worker times out and gives the copy back. */
  lemma {:induction false} Starve(max: int, s: State, d: Ticket) returns (log: seq<Action>, t: State)
    requires Consistent(s) && AtLimiter(s, d)
    requires var w := s.cells[d.id].workers[d.tag]; CanLimit(s.now, w.since, w.refused, Refusal)
    ensures Goes(max, s, log, t) && Consistent(t) && LeftAtLimiter(log, d) && Left(s, t, d, Requeueing)
    decreases Max(0, s.cells[d.id].workers[d.tag].since + WAIT_LIMIT - s.now)
  {
    var w := s.cells[d.id].workers[d.tag];
    var u, v, more;
    log, u := RefusedRound(max, s, d);
    if w.since + WAIT_LIMIT <= s.now {
      more, t := LimitStep(max, u, d, TimeOut);
    } else {
      var pause, rest;
      pause, v := Idle(max, u, d, u.now + WAIT_PAUSE);
      rest, t := Starve(max, v, d);
      GoesOn(max, u, pause, v, rest, t);
      LeftOn(u, v, t, d, u.cells[d.id].workers[d.tag], Requeueing);
      more := pause + rest;
    }
    GoesOn(max, s, log, u, more, t);
    LeftOn(s, u, t, d, w.(refused := Some(s.now)), Requeueing);
    log := log + more;
  }

  lemma Lose(max: int, s: State, d: Ticket) returns (log: seq<Action>, t: State)
    requires Consistent(s) && AtLimiter(s, d)
    ensures Goes(max, s, log, t) && LeftAtLimiter(log, d)
  {
    var w := s.cells[d.id].workers[d.tag];
    var u, more;
    log, u := Idle(max, s, d, if w.refused.Some? then Max(s.now, w.refused.value + WAIT_PAUSE) else s.now);
    more, t := Starve(max, u, d);
    GoesOn(max, s, log, u, more, t);
    log := log + more;
  }

  // ---- Who can be lost

  /** The delivery's worker is past the limiter, or through. */
  predicate Beyond(s: State, d: Ticket) {
    d.id in s.cells && Asked(s.cells[d.id], d.tag) && !AtLimiter(s, d)
  }

  lemma {:induction false} NeverLost(max: int, s: State, d: Ticket, log: seq<Action>)
    requires ValidRun(max, s, log) && Beyond(s, d)
    ensures !LeftAtLimiter(log, d)
    decreases |log|
  {
    if log != [] {
      if log[0].Own? && log[0].id == d.id {
        AskedNext(max, s.cells[d.id], log[0].e, d.tag);
      } else {
        OthersKeepWorkers(max, s, log[0], d.id);
      }
      NeverLost(max, Do(max, s, log[0]), d, log[1..]);
      assert log == [log[0]] + log[1..];
    }
  }

  ghost predicate Loses(max: int, s: State, d: Ticket, log: seq<Action>) {
    ValidRun(max, s, log) && LeftAtLimiter(log, d)
  }

  /** A delivery in flight can be lost without a Record call exactly while it waits at the limiter, whatever the rate. */
  lemma LostIffWaiting(max: int, s: State, ch: Channel, d: Ticket)
    requires Reachable(max, s) && Flying(s, ch, d)
    ensures (exists log :: Loses(max, s, d, log)) <==> AtLimiter(s, d)
  {
    ReachableSound(max, s);
    if AtLimiter(s, d) {
      var log, t := Lose(max, s, d);
      assert ValidRun(max, s, log);
      assert Loses(max, s, d, log);
    } else {
      forall log | ValidRun(max, s, log) ensures !Loses(max, s, d, log) {
        NeverLost(max, s, d, log);
      }
    }
  }

  // ---- What must have happened

  /** Somebody has asked the channel's bucket within its time to live. */
  predicate Busy(s: State, ch: Channel) {
    var asked := s.lanes(ch).requests;
    asked != [] && asked[|asked| - 1] + TokenBucket.TTL > Micros(s.now)
  }

  /** Step `i` of the run refuses the delivery's first request, somebody else having asked the bucket shortly before. */
  ghost predicate CrowdedOut(max: int, s: State, log: seq<Action>, d: Ticket, i: nat) {
    && i < |log| && log[i] == Own(d.id, Work(d.tag, Limit(Refusal))) && ValidRun(max, s, log[..i])
    && var u := RunAll(max, s, log[..i]);
       AtLimiter(u, d) && u.cells[d.id].workers[d.tag].refused.None? && Busy(u, u.route(d.id))
  }

  predicate Unrefused(s: State, d: Ticket) {
    AtLimiter(s, d) ==> s.cells[d.id].workers[d.tag].refused.None?
  }

  lemma CrowdedLater(max: int, s: State, log: seq<Action>, d: Ticket, i: nat)
    requires log != [] && Can(s, log[0]) && CrowdedOut(max, Do(max, s, log[0]), log[1..], d, i)
    ensures CrowdedOut(max, s, log, d, i + 1)
  {
    RunAllCons(max, s, log[0], log[1..][..i]);
    assert [log[0]] + log[1..][..i] == log[..i + 1];
  }

  lemma UnrefusedStep(max: int, s: State, a: Action, d: Ticket)
    requires Can(s, a) && Unrefused(s, d) && a != Own(d.id, Work(d.tag, Limit(Refusal)))
    ensures Unrefused(Do(max, s, a), d) && !LeftAtLimiter([a], d)
  {
    if d.id in s.cells && !(a.Own? && a.id == d.id) {
      OthersKeepWorkers(max, s, a, d.id);
    } else if d.id !in s.cells && d.id in Do(max, s, a).cells {
      NewcomersIdle(max, s, a, d.id);
    }
  }

  lemma {:induction false} LostWasCrowdedOut(max: int, s: State, log: seq<Action>, d: Ticket) returns (i: nat)
    requires Consistent(s) && s.rate > 0 && ValidRun(max, s, log) && Unrefused(s, d) && LeftAtLimiter(log, d)
    ensures CrowdedOut(max, s, log, d, i)
    decreases |log|
  {
    if log[0] == Own(d.id, Work(d.tag, Limit(Refusal))) {
      assert Logged(s, s.route(d.id));
      if !Busy(s, s.route(d.id)) {
        TokenAfterIdle(s, s.route(d.id));
      }
      i := 0;
      assert log[..0] == [];
    } else {
      UnrefusedStep(max, s, log[0], d);
      ConsistentStep(max, s, log[0]);
      assert log == [log[0]] + log[1..];
      i := LostWasCrowdedOut(max, Do(max, s, log[0]), log[1..], d);
      CrowdedLater(max, s, log, d, i);
      i := i + 1;
    }
  }

  /**
    At a positive rate, whoever was lost at the limiter had its very first request refused while somebody else had
    asked the bucket within its time to live: a probe that finds the bucket left alone for so long is not lost.
  */
  lemma LostOnlyInACrowd(max: int, now: Time, route: Id -> Channel, rate: nat, log: seq<Action>, d: Ticket)
    requires rate > 0 && ValidRun(max, Start(now, route, rate), log) && LeftAtLimiter(log, d)
    ensures exists i: nat :: CrowdedOut(max, Start(now, route, rate), log, d, i)
  {
    var i := LostWasCrowdedOut(max, Start(now, route, rate), log, d);
  }
}
