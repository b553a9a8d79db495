/** What the rate limit means for the provider: how many calls a channel makes in any stretch of any run. */
module Throughput {
  import opened Records
  import opened Delivery
  import opened System
  import opened Guarantees
  import opened Prober
  import opened TokenBucket

  // ---- Every provider call has passed the limiter

  /** The channel's deliveries that are past the limiter and have not called the provider yet. */
  ghost function Ahead(s: State, ch: Channel): set<Ticket> {
    set id, tag | id in s.cells && s.route(id) == ch && tag in s.cells[id].workers && s.cells[id].workers[tag].Cleared?
      :: Ticket(id, tag)
  }

  predicate StepOf(route: Id -> Channel, a: Action, ch: Channel, we: WorkerEvent) {
    a.Own? && route(a.id) == ch && a.e.Work? && a.e.what == we
  }

  /** How often the channel's workers take this step in a run. */
  function Steps(route: Id -> Channel, log: seq<Action>, ch: Channel, we: WorkerEvent): nat {
    if log == [] then 0 else One(StepOf(route, log[0], ch, we)) + Steps(route, log[1..], ch, we)
  }

  lemma AheadElsewhere(max: int, s: State, a: Action, ch: Channel)
    requires Can(s, a) && !(a.Own? && s.route(a.id) == ch)
    ensures Ahead(Do(max, s, a), ch) == Ahead(s, ch)
  {
    var t := Do(max, s, a);
    RouteFixed(max, s, a);
    forall d ensures d in Ahead(t, ch) <==> d in Ahead(s, ch) {
      if d.id in s.cells && s.route(d.id) == ch {
        OthersKeepWorkers(max, s, a, d.id);
      } else if d.id in t.cells && d.id !in s.cells {
        NewcomersIdle(max, s, a, d.id);
      }
    }
  }

  lemma ClearedTurn(max: int, c: Cell, e: Event, tag: Tag)
    requires Enabled(c, e)
    ensures var before, after := tag in c.workers && c.workers[tag].Cleared?,
                                 tag in Next(max, c, e).workers && Next(max, c, e).workers[tag].Cleared?;
            if e.Work? && e.tag == tag then
              after == (e.what == Limit(Token) || e.what == Limit(Unchecked)) && before == e.what.SendStart?
            else before == after
  {
  }

  lemma AheadOwn(max: int, s: State, id: Id, e: Event)
    requires Can(s, Own(id, e))
    ensures var t, ch := Do(max, s, Own(id, e)), s.route(id);
            if !e.Work? then Ahead(t, ch) == Ahead(s, ch)
            else
              var d := Ticket(id, e.tag);
              && Ahead(t, ch) - {d} == Ahead(s, ch) - {d}
              && (d in Ahead(t, ch) <==> e.what == Limit(Token) || e.what == Limit(Unchecked))
              && (d in Ahead(s, ch) <==> e.what.SendStart?)
  {
    var t, ch := Do(max, s, Own(id, e)), s.route(id);
    forall d: Ticket | !(e.Work? && d == Ticket(id, e.tag)) ensures d in Ahead(t, ch) <==> d in Ahead(s, ch) {
      if d.id == id {
        ClearedTurn(max, s.cells[id], e, d.tag);
      }
    }
    if e.Work? {
      ClearedTurn(max, s.cells[id], e, e.tag);
    }
  }

  lemma AheadStep(max: int, s: State, a: Action, ch: Channel)
    requires Can(s, a)
    ensures |Ahead(Do(max, s, a), ch)| + One(StepOf(s.route, a, ch, SendStart))
            == |Ahead(s, ch)| + One(StepOf(s.route, a, ch, Limit(Token))) + One(StepOf(s.route, a, ch, Limit(Unchecked)))
  {
    if a.Own? && s.route(a.id) == ch {
      AheadOwn(max, s, a.id, a.e);
      if a.e.Work? {
        var d := Ticket(a.id, a.e.tag);
        Without(Ahead(s, ch), d);
        Without(Ahead(Do(max, s, a), ch), d);
      }
    } else {
      AheadElsewhere(max, s, a, ch);
    }
  }

  lemma Without(s: set<Ticket>, d: Ticket)
    ensures |s| == |s - {d}| + One(d in s)
  {
    if d in s {
      assert s == (s - {d}) + {d};
    } else {
      assert s == s - {d};
    }
  }

  /** Tokens and free passes are conserved: each is used for one provider call, or its delivery is still ahead. */
  lemma {:induction false} PassesConserved(max: int, s: State, log: seq<Action>, ch: Channel)
    requires ValidRun(max, s, log)
    ensures |Ahead(RunAll(max, s, log), ch)| + Steps(s.route, log, ch, SendStart)
            == |Ahead(s, ch)| + Steps(s.route, log, ch, Limit(Token)) + Steps(s.route, log, ch, Limit(Unchecked))
    decreases |log|
  {
    if log != [] {
      AheadStep(max, s, log[0], ch);
      RouteFixed(max, s, log[0]);
      PassesConserved(max, Do(max, s, log[0]), log[1..], ch);
    }
  }

  // ---- Tokens are what the channel's bucket grants

  /** Tokens that go to other instances in a run. */
  function Elsewheres(log: seq<Action>, ch: Channel): nat {
    if log == [] then 0 else One(log[0] == OtherInstance(ch, true)) + Elsewheres(log[1..], ch)
  }

  /** Whether the action runs the script on the channel's bucket, and gets a token. */
  predicate Asks(route: Id -> Channel, a: Action, ch: Channel) {
    StepOf(route, a, ch, Limit(Token)) || StepOf(route, a, ch, Limit(Refusal)) || (a.OtherInstance? && a.ch == ch)
  }

  predicate Gets(route: Id -> Channel, a: Action, ch: Channel) {
    StepOf(route, a, ch, Limit(Token)) || a == OtherInstance(ch, true)
  }

  lemma LaneStep(max: int, s: State, a: Action, ch: Channel)
    requires Can(s, a)
    ensures var t := Do(max, s, a);
            && t.rate == s.rate && t.now >= s.now
            && t.lanes(ch).requests == (if Asks(s.route, a, ch) then s.lanes(ch).requests + [Micros(s.now)] else s.lanes(ch).requests)
            && (Asks(s.route, a, ch) ==> t.now == s.now && (Gets(s.route, a, ch) <==> HasToken(s, ch)))
  {
  }

  /** The later history is the earlier one and requests made from then on. */
  ghost predicate Extends(before: seq<int>, all: seq<int>, from: int) {
    before <= all && forall i :: |before| <= i < |all| ==> from <= all[i]
  }

  /** Along every run the requests grow in order, all of the new ones made during the run. */
  lemma {:induction false} RequestsGrow(max: int, s: State, log: seq<Action>, ch: Channel)
    requires ValidRun(max, s, log) && Logged(s, ch)
    ensures var t := RunAll(max, s, log);
            t.rate == s.rate && t.now >= s.now && Logged(t, ch)
            && Extends(s.lanes(ch).requests, t.lanes(ch).requests, Micros(s.now))
    decreases |log|
  {
    if log != [] {
      LoggedStep(max, s, log[0], ch);
      LaneStep(max, s, log[0], ch);
      RequestsGrow(max, Do(max, s, log[0]), log[1..], ch);
    }
  }

  lemma OneRequest(rate: nat, before: seq<int>, mid: seq<int>, all: seq<int>)
    requires before <= mid <= all && |mid| <= |before| + 1
    ensures Grants(rate, all, |before|, |all|) ==
            Grants(rate, all, |mid|, |all|) + One(|before| < |mid| && Granted(rate, mid, |before|))
  {
    GrantsSplit(rate, all, |before|, |mid|, |all|);
    assert Grants(rate, all, |before|, |before|) == 0;
    if |before| < |mid| {
      PrefixState(rate, mid, all, {}, |before|);
    }
  }

  /** The grants among the new requests are the tokens taken, by this instance's workers and by others. */
  lemma {:induction false} TokensAreGrants(max: int, s: State, log: seq<Action>, ch: Channel)
    requires ValidRun(max, s, log) && Logged(s, ch)
    ensures var before, all := s.lanes(ch).requests, RunAll(max, s, log).lanes(ch).requests;
            before <= all
            && Grants(s.rate, all, |before|, |all|) == Steps(s.route, log, ch, Limit(Token)) + Elsewheres(log, ch)
    decreases |log|
  {
    RequestsGrow(max, s, log, ch);
    if log != [] {
      var u := Do(max, s, log[0]);
      LaneStep(max, s, log[0], ch);
      LoggedStep(max, s, log[0], ch);
      RouteFixed(max, s, log[0]);
      RequestsGrow(max, u, log[1..], ch);
      TokensAreGrants(max, u, log[1..], ch);
      OneRequest(s.rate, s.lanes(ch).requests, u.lanes(ch).requests, RunAll(max, s, log).lanes(ch).requests);
    }
  }

  lemma {:induction false} GrantsSplit(rate: nat, times: seq<int>, lo: nat, mid: nat, hi: nat)
    requires lo <= mid <= hi <= |times|
    ensures Grants(rate, times, lo, hi) == Grants(rate, times, lo, mid) + Grants(rate, times, mid, hi)
  {
    if mid < hi {
      GrantsSplit(rate, times, lo, mid, hi - 1);
    }
  }

  /** Grants among requests made within a time span. */
  lemma GrantsWithin(rate: nat, times: seq<int>, lo: nat, from: int, until: int)
    requires Ascending(times) && lo <= |times| && from <= until
    requires forall i :: lo <= i < |times| ==> from <= times[i] <= until
    ensures MICRO * Grants(rate, times, lo, |times|) <= rate * MICRO + Refill(rate, until - from)
  {
    RefillOfNothing(rate);
    RefillGrows(rate, 0, until - from);
    if lo < |times| {
      WindowBound(rate, times, lo, |times|);
      RefillGrows(rate, times[|times| - 1] - times[lo], until - from);
    }
  }

  /**
    In every stretch of every run, a channel's provider calls and the tokens that other instances take number at
    most a full bucket, plus the rate for each second that passes, plus the deliveries that were already past the
    limiter, plus those let through because Redis failed.
  */
  lemma CallsWithinRate(max: int, s: State, log: seq<Action>, ch: Channel)
    requires Reachable(max, s) && ValidRun(max, s, log)
    ensures MICRO * (Steps(s.route, log, ch, SendStart) + Elsewheres(log, ch))
            <= s.rate * MICRO + Refill(s.rate, Micros(RunAll(max, s, log).now) - Micros(s.now))
               + MICRO * (|Ahead(s, ch)| + Steps(s.route, log, ch, Limit(Unchecked)))
  {
    var t := RunAll(max, s, log);
    var bound := s.rate * MICRO + Refill(s.rate, Micros(t.now) - Micros(s.now));
    ReachableLogged(max, s, ch);
    PassesConserved(max, s, log, ch);
    TokensWithinRate(max, s, log, ch, bound);
    Balance(Steps(s.route, log, ch, SendStart), Elsewheres(log, ch), Steps(s.route, log, ch, Limit(Token)),
            Steps(s.route, log, ch, Limit(Unchecked)), |Ahead(s, ch)|, |Ahead(t, ch)|, bound);
  }

  lemma ReachableLogged(max: int, s: State, ch: Channel)
    requires Reachable(max, s)
    ensures Logged(s, ch)
  {
    ReachableSound(max, s);
  }

  /** The tokens that a channel's bucket gives out in any stretch of any run. */
  lemma TokensWithinRate(max: int, s: State, log: seq<Action>, ch: Channel, bound: int)
    requires ValidRun(max, s, log) && Logged(s, ch)
    requires bound == s.rate * MICRO + Refill(s.rate, Micros(RunAll(max, s, log).now) - Micros(s.now))
    ensures MICRO * (Steps(s.route, log, ch, Limit(Token)) + Elsewheres(log, ch)) <= bound
  {
    var t := RunAll(max, s, log);
    var before, all := s.lanes(ch).requests, t.lanes(ch).requests;
    RequestsGrow(max, s, log, ch);
    TokensAreGrants(max, s, log, ch);
    GrantsWithin(s.rate, all, |before|, Micros(s.now), Micros(t.now));
    Scale(Steps(s.route, log, ch, Limit(Token)) + Elsewheres(log, ch), Grants(s.rate, all, |before|, |all|), bound);
  }

  lemma Scale(n: nat, m: nat, bound: int)
    requires n == m && MICRO * m <= bound
    ensures MICRO * n <= bound
  {
  }

  lemma Balance(sends: nat, others: nat, tokens: nat, unchecked: nat, before: nat, after: nat, bound: int)
    requires after + sends == before + tokens + unchecked && MICRO * (tokens + others) <= bound
    ensures MICRO * (sends + others) <= bound + MICRO * (before + unchecked)
  {
  }
}
