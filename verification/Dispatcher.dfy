/** One channel's worker pool over one delivery channel: prefetch, disposition, and shutdown without loss. */
module Dispatcher {
  import opened Records

  type Msg = nat

  datatype Slot = Free | Busy(msg: Msg) | Exited

  datatype Hub = Hub(
    queue: multiset<Msg>,       // copies in the broker queue
    buffer: seq<Msg>,           // prefetched, not yet taken by a worker
    slots: seq<Slot>,           // the worker goroutines
    cancelled: bool,            // the consumer is cancelled, so the delivery channel closes once drained
    returned: bool,             // Start has returned
    published: multiset<Msg>,
    acked: multiset<Msg>,
    dead: multiset<Msg>)

  datatype Event =
    | Publish(msg: Msg)
    | Prefetch(msg: Msg)
    | Take(worker: nat)
    | Finish(worker: nat, how: Disposition)
    | Shutdown
    | Exit(worker: nat)
    | Return

  /** How many workers are busy. */
  function Working(slots: seq<Slot>): nat {
    if slots == [] then 0 else Working(slots[..|slots| - 1]) + One(slots[|slots| - 1].Busy?)
  }

  /** Copies of one message in workers' hands. */
  function Held(slots: seq<Slot>, m: Msg): nat {
    if slots == [] then 0 else Held(slots[..|slots| - 1], m) + One(slots[|slots| - 1] == Busy(m))
  }

  /** Copies of one message in the prefetch buffer. */
  function Buffered(buffer: seq<Msg>, m: Msg): nat {
    if buffer == [] then 0 else One(buffer[0] == m) + Buffered(buffer[1..], m)
  }

  predicate Can(h: Hub, e: Event) {
    match e
    case Publish(_) => true
    case Prefetch(msg) => !h.cancelled && msg in h.queue && (h.slots != [] ==> |h.buffer| + Working(h.slots) < |h.slots|)
    case Take(w) => w < |h.slots| && h.slots[w].Free? && h.buffer != []
    case Finish(w, _) => w < |h.slots| && h.slots[w].Busy?
    case Shutdown => !h.cancelled
    case Exit(w) => w < |h.slots| && h.slots[w].Free? && h.cancelled && h.buffer == []
    case Return => h.cancelled && !h.returned && forall w :: 0 <= w < |h.slots| ==> h.slots[w].Exited?
  }

  /** One more copy. */
  function Plus(copies: multiset<Msg>, m: Msg): multiset<Msg> {
    copies[m := copies[m] + 1]
  }

  function Do(h: Hub, e: Event): Hub
    requires Can(h, e)
  {
    match e
    case Publish(msg) => h.(queue := Plus(h.queue, msg), published := Plus(h.published, msg))
    case Prefetch(msg) => h.(queue := h.queue[msg := h.queue[msg] - 1], buffer := h.buffer + [msg])
    case Take(w) => h.(buffer := h.buffer[1..], slots := h.slots[w := Busy(h.buffer[0])])
    case Finish(w, how) =>
      var msg := h.slots[w].msg;
      var g := h.(slots := h.slots[w := Free]);
      (match how
       case Acked => g.(acked := Plus(h.acked, msg))
       case Requeued => g.(queue := Plus(h.queue, msg))
       case DeadLettered => g.(dead := Plus(h.dead, msg)))
    case Shutdown => h.(cancelled := true)
    case Exit(w) => h.(slots := h.slots[w := Exited])
    case Return => h.(returned := true)
  }

  predicate Valid(h: Hub, es: seq<Event>)
    decreases |es|
  {
    es == [] || (Can(h, es[0]) && Valid(Do(h, es[0]), es[1..]))
  }

  function Run(h: Hub, es: seq<Event>): Hub
    requires Valid(h, es)
    decreases |es|
  {
    if es == [] then h else Run(Do(h, es[0]), es[1..])
  }

  function Start(workers: nat): Hub {
    Hub(multiset{}, [], seq(workers, _ => Free), false, false, multiset{}, multiset{}, multiset{})
  }

  lemma {:induction false} SlotUpdate(slots: seq<Slot>, w: nat, s: Slot, m: Msg)
    requires w < |slots|
    ensures Held(slots[w := s], m) + One(slots[w] == Busy(m)) == Held(slots, m) + One(s == Busy(m))
    ensures Working(slots[w := s]) + One(slots[w].Busy?) == Working(slots) + One(s.Busy?)
  {
    var n := |slots| - 1;
    if w == n {
      assert slots[w := s][..n] == slots[..n];
    } else {
      assert slots[w := s][..n] == slots[..n][w := s];
      SlotUpdate(slots[..n], w, s, m);
    }
  }

  lemma {:induction false} BufferAppend(buffer: seq<Msg>, msg: Msg, m: Msg)
    ensures Buffered(buffer + [msg], m) == Buffered(buffer, m) + One(msg == m)
  {
    if buffer != [] {
      assert (buffer + [msg])[1..] == buffer[1..] + [msg];
      BufferAppend(buffer[1..], msg, m);
    } else {
      assert (buffer + [msg])[1..] == [];
    }
  }

  /** Every published copy of a message is in exactly one place. */
  ghost predicate Conserved(h: Hub, m: Msg) {
    h.published[m] == h.queue[m] + Buffered(h.buffer, m) + Held(h.slots, m) + h.acked[m] + h.dead[m]
  }

  ghost predicate AllConserved(h: Hub) {
    forall m :: Conserved(h, m)
  }

  /** The prefetch limit bounds what the pool holds (a limit of zero is no limit). */
  ghost predicate Bounded(h: Hub) {
    h.slots != [] ==> |h.buffer| + Working(h.slots) <= |h.slots|
  }

  /** Workers exit only when all is drained, and Start returns only when all have exited. */
  ghost predicate Drained(h: Hub) {
    && (forall w :: 0 <= w < |h.slots| && h.slots[w].Exited? ==> h.cancelled && h.buffer == [])
    && (h.returned ==> h.cancelled && forall w :: 0 <= w < |h.slots| ==> h.slots[w].Exited?)
  }

  ghost predicate Inv(h: Hub) {
    AllConserved(h) && Bounded(h) && Drained(h)
  }

  lemma TakeConserves(h: Hub, w: nat, m: Msg)
    requires Conserved(h, m) && Can(h, Take(w))
    ensures Conserved(Do(h, Take(w)), m)
  {
    SlotUpdate(h.slots, w, Busy(h.buffer[0]), m);
    assert Buffered(h.buffer, m) == One(h.buffer[0] == m) + Buffered(h.buffer[1..], m);
  }

  lemma FinishConserves(h: Hub, w: nat, how: Disposition, m: Msg)
    requires Conserved(h, m) && Can(h, Finish(w, how))
    ensures Conserved(Do(h, Finish(w, how)), m)
  {
    SlotUpdate(h.slots, w, Free, m);
  }

  lemma ConservedStep(h: Hub, e: Event, m: Msg)
    requires Conserved(h, m) && Can(h, e)
    ensures Conserved(Do(h, e), m)
  {
    if e.Prefetch? {
      BufferAppend(h.buffer, e.msg, m);
    } else if e.Take? {
      TakeConserves(h, e.worker, m);
    } else if e.Finish? {
      FinishConserves(h, e.worker, e.how, m);
    } else if e.Exit? {
      SlotUpdate(h.slots, e.worker, Exited, m);
    }
  }

  lemma BoundedStep(h: Hub, e: Event)
    requires Bounded(h) && Can(h, e)
    ensures Bounded(Do(h, e))
  {
    if e.Take? {
      SlotUpdate(h.slots, e.worker, Busy(h.buffer[0]), 0);
    } else if e.Finish? {
      SlotUpdate(h.slots, e.worker, Free, 0);
    } else if e.Exit? {
      SlotUpdate(h.slots, e.worker, Exited, 0);
    }
  }

  lemma DrainedStep(h: Hub, e: Event)
    requires Drained(h) && Can(h, e)
    ensures Drained(Do(h, e))
  {
  }

  lemma InvStep(h: Hub, e: Event)
    requires Inv(h) && Can(h, e)
    ensures Inv(Do(h, e))
  {
    forall m ensures Conserved(Do(h, e), m) {
      ConservedStep(h, e, m);
    }
    BoundedStep(h, e);
    DrainedStep(h, e);
  }

  lemma {:induction false} NoneBusy(slots: seq<Slot>, m: Msg)
    requires forall w :: 0 <= w < |slots| ==> !slots[w].Busy?
    ensures Held(slots, m) == 0 && Working(slots) == 0
  {
    if slots != [] {
      NoneBusy(slots[..|slots| - 1], m);
    }
  }

  lemma {:induction false} InvRun(h: Hub, es: seq<Event>)
    requires Inv(h) && Valid(h, es)
    ensures Inv(Run(h, es))
    decreases |es|
  {
    if es != [] {
      InvStep(h, es[0]);
      InvRun(Do(h, es[0]), es[1..]);
    }
  }

  /** In every reachable state copies are conserved; once Start has returned, the process holds none. */
  lemma NothingHeldAfterReturn(workers: nat, es: seq<Event>, m: Msg)
    requires Valid(Start(workers), es)
    ensures var h := Run(Start(workers), es);
            && h.published[m] == h.queue[m] + Buffered(h.buffer, m) + Held(h.slots, m) + h.acked[m] + h.dead[m]
            && (workers > 0 ==> |h.buffer| + Working(h.slots) <= workers)
            && (h.returned && workers > 0 ==> h.buffer == [] && h.published[m] == h.queue[m] + h.acked[m] + h.dead[m])
  {
    var s := Start(workers);
    forall x ensures Conserved(s, x) {
      NoneBusy(s.slots, x);
    }
    NoneBusy(s.slots, m);
    InvRun(s, es);
    SameSize(s, es);
    var h := Run(s, es);
    assert Conserved(h, m);
    if h.returned && workers > 0 {
      NoneBusy(h.slots, m);
      assert h.slots[0].Exited?;
    }
  }

  lemma {:induction false} SameSize(h: Hub, es: seq<Event>)
    requires Valid(h, es)
    ensures |Run(h, es).slots| == |h.slots|
    decreases |es|
  {
    if es != [] {
      SameSize(Do(h, es[0]), es[1..]);
    }
  }

  // ---- What becomes of the copies

  /** Copies of one message that workers disposed of in this way in a run. */
  function Settled(h: Hub, es: seq<Event>, m: Msg, how: Disposition): nat
    requires Valid(h, es)
    decreases |es|
  {
    if es == [] then 0
    else One(es[0].Finish? && es[0].how == how && h.slots[es[0].worker] == Busy(m)) + Settled(Do(h, es[0]), es[1..], m, how)
  }

  function Published(es: seq<Event>, m: Msg): nat {
    if es == [] then 0 else One(es[0] == Publish(m)) + Published(es[1..], m)
  }

  /** Acknowledged copies are those a worker acknowledged, dead letters those it rejected, and no others. */
  lemma {:induction false} SettledAsDisposed(h: Hub, es: seq<Event>, m: Msg)
    requires Valid(h, es)
    ensures var g := Run(h, es);
            && g.acked[m] == h.acked[m] + Settled(h, es, m, Acked)
            && g.dead[m] == h.dead[m] + Settled(h, es, m, DeadLettered)
            && g.published[m] == h.published[m] + Published(es, m)
    decreases |es|
  {
    if es != [] {
      SettledAsDisposed(Do(h, es[0]), es[1..], m);
    }
  }

  // ---- Every queued message can reach a worker

  lemma ServeStep(h: Hub, w: nat, m: Msg)
    requires !h.cancelled && w < |h.slots| && m in h.queue && Drained(h)
    requires h.slots[w].Busy? || h.buffer != []
    ensures var e := if h.slots[w].Busy? then Finish(w, Acked) else Take(w);
            && Can(h, e)
            && var g := Do(h, e);
            && !g.cancelled && |g.slots| == |h.slots| && m in g.queue && Drained(g)
            && (|g.buffer| < |h.buffer| || (g.buffer == h.buffer && Working(g.slots) < Working(h.slots)))
  {
    if h.slots[w].Busy? {
      SlotUpdate(h.slots, w, Free, 0);
      assert h.slots[w].msg == m || h.slots[w].msg != m;
    }
  }

  /** While the pool is not cancelled, a message in the queue can get to a worker, whatever is held and buffered. */
  lemma {:induction false} QueuedIsServed(h: Hub, m: Msg) returns (es: seq<Event>)
    requires !h.cancelled && h.slots != [] && m in h.queue && Drained(h)
    ensures Valid(h, es) && exists w :: 0 <= w < |Run(h, es).slots| && Run(h, es).slots[w] == Busy(m)
    decreases |h.buffer|, Working(h.slots)
  {
    if w: nat :| w < |h.slots| && (h.slots[w].Busy? || h.buffer != []) {
      var e := if h.slots[w].Busy? then Finish(w, Acked) else Take(w);
      ServeStep(h, w, m);
      es := QueuedIsServed(Do(h, e), m);
      ValidCons(h, e, es);
      es := [e] + es;
    } else {
      assert !h.slots[0].Exited?;
      NoneBusy(h.slots, m);
      var g := Do(h, Prefetch(m));
      ValidCons(g, Take(0), []);
      ValidCons(h, Prefetch(m), [Take(0)] + []);
      es := [Prefetch(m)] + ([Take(0)] + []);
      assert Run(h, es).slots[0] == Busy(m);
    }
  }

  // ---- Shutdown comes to an end

  /** Workers that have not exited. */
  function Active(slots: seq<Slot>): nat {
    if slots == [] then 0 else Active(slots[..|slots| - 1]) + One(!slots[|slots| - 1].Exited?)
  }

  lemma {:induction false} ActiveUpdate(slots: seq<Slot>, w: nat, s: Slot)
    requires w < |slots|
    ensures Active(slots[w := s]) + One(!slots[w].Exited?) == Active(slots) + One(!s.Exited?)
  {
    var n := |slots| - 1;
    if w == n {
      assert slots[w := s][..n] == slots[..n];
    } else {
      assert slots[w := s][..n] == slots[..n][w := s];
      ActiveUpdate(slots[..n], w, s);
    }
  }

  /** What a worker of a cancelled pool does next. */
  function NextOf(h: Hub, w: nat): Event
    requires w < |h.slots|
  {
    if h.slots[w].Busy? then Finish(w, Requeued) else if h.buffer != [] then Take(w) else Exit(w)
  }

  lemma NextOfProgress(h: Hub, w: nat)
    requires h.cancelled && !h.returned && w < |h.slots| && !h.slots[w].Exited?
    ensures Can(h, NextOf(h, w))
    ensures var g := Do(h, NextOf(h, w));
            && g.cancelled && !g.returned
            && (Active(g.slots) < Active(h.slots)
                || (Active(g.slots) == Active(h.slots)
                    && (|g.buffer| < |h.buffer| || (g.buffer == h.buffer && Working(g.slots) < Working(h.slots)))))
  {
    var s := if h.slots[w].Busy? then Free else if h.buffer != [] then Busy(h.buffer[0]) else Exited;
    ActiveUpdate(h.slots, w, s);
    SlotUpdate(h.slots, w, s, 0);
  }

  /** From every cancelled state, whatever the workers hold and the buffer has left, the pool can get to the end of Start. */
  lemma {:induction false} CancelledCanReturn(h: Hub) returns (es: seq<Event>)
    requires h.cancelled
    ensures Valid(h, es) && Run(h, es).returned
    decreases Active(h.slots), |h.buffer|, Working(h.slots)
  {
    if h.returned {
      es := [];
    } else if w :| 0 <= w < |h.slots| && !h.slots[w].Exited? {
      NextOfProgress(h, w);
      es := CancelledCanReturn(Do(h, NextOf(h, w)));
      ValidCons(h, NextOf(h, w), es);
      es := [NextOf(h, w)] + es;
    } else {
      ValidCons(h, Return, []);
      es := [Return] + [];
    }
  }

  lemma ValidCons(h: Hub, e: Event, es: seq<Event>)
    requires Can(h, e) && Valid(Do(h, e), es)
    ensures Valid(h, [e] + es) && Run(h, [e] + es) == Run(Do(h, e), es)
  {
    assert ([e] + es)[1..] == es;
  }

  /** Every state of a pool can be shut down: cancel it, and it returns with nothing held. */
  lemma ShutdownCompletes(workers: nat, es: seq<Event>, m: Msg) returns (more: seq<Event>)
    requires workers > 0 && Valid(Start(workers), es)
    ensures Valid(Start(workers), es + more)
    ensures var h := Run(Start(workers), es + more);
            h.returned && h.buffer == [] && h.published[m] == h.queue[m] + h.acked[m] + h.dead[m]
  {
    var h := Run(Start(workers), es);
    if h.cancelled {
      more := CancelledCanReturn(h);
    } else {
      more := CancelledCanReturn(Do(h, Shutdown));
      ValidCons(h, Shutdown, more);
      more := [Shutdown] + more;
    }
    RunConcat(Start(workers), es, more);
    NothingHeldAfterReturn(workers, es + more, m);
  }

  lemma {:induction false} RunConcat(h: Hub, es: seq<Event>, more: seq<Event>)
    requires Valid(h, es) && Valid(Run(h, es), more)
    ensures Valid(h, es + more) && Run(h, es + more) == Run(Run(h, es), more)
    decreases |es|
  {
    if es == [] {
      assert es + more == more;
    } else {
      assert (es + more)[1..] == es[1..] + more;
      RunConcat(Do(h, es[0]), es[1..], more);
    }
  }

  /** A worker takes the next delivery and disposes of it. */
  lemma TakeThenFinish(h: Hub, es: seq<Event>, w: nat, how: Disposition)
    requires Valid(h, es) && Can(Run(h, es), Take(w))
    ensures var g, all := Run(h, es), es + [Take(w)] + [Finish(w, how)];
            && Can(Do(g, Take(w)), Finish(w, how))
            && Valid(h, all) && Run(h, all) == Do(Do(g, Take(w)), Finish(w, how))
            && Run(h, all).slots == g.slots && Run(h, all).buffer == g.buffer[1..]
            && Run(h, all).cancelled == g.cancelled && Run(h, all).published == g.published
  {
    var g := Run(h, es);
    RunAppend(h, es, Take(w));
    RunAppend(h, es + [Take(w)], Finish(w, how));
    assert g.slots[w := Busy(g.buffer[0])][w := Free] == g.slots;
  }

  /** A worker takes `n` deliveries one after the other and disposes of each as `how` says. */
  function OneByOne(w: nat, how: nat -> Disposition, n: nat): (es: seq<Event>)
    ensures |es| == 2 * n
    ensures forall k :: 0 <= k < n ==> es[2 * k] == Take(w) && es[2 * k + 1] == Finish(w, how(k))
  {
    if n == 0 then [] else OneByOne(w, how, n - 1) + [Take(w)] + [Finish(w, how(n - 1))]
  }

  /** The worker's loop after shutdown: range over what is still buffered, process each delivery, then exit. */
  method DrainAndExit(h: Hub, w: nat, how: nat -> Disposition) returns (g: Hub, ghost es: seq<Event>)
    requires Inv(h) && h.cancelled && w < |h.slots| && h.slots[w].Free?
    ensures Valid(h, es) && g == Run(h, es) && Inv(g)
    ensures g.buffer == [] && g.slots == h.slots[w := Exited] && g.published == h.published
    ensures es == OneByOne(w, how, |h.buffer|) + [Exit(w)]
  {
    g, es := h, [];
    var n := 0;
    while g.buffer != []
      invariant Valid(h, es) && g == Run(h, es)
      invariant g.cancelled && g.slots == h.slots && g.published == h.published
      invariant n + |g.buffer| == |h.buffer| && es == OneByOne(w, how, n)
      decreases |g.buffer|
    {
      TakeThenFinish(h, es, w, how(n));
      es := es + [Take(w)] + [Finish(w, how(n))];
      g := Do(g, Take(w));
      g := Do(g, Finish(w, how(n)));
      n := n + 1;
    }
    RunAppend(h, es, Exit(w));
    g, es := Do(g, Exit(w)), es + [Exit(w)];
    InvRun(h, es);
  }

  lemma RunAppend(h: Hub, es: seq<Event>, e: Event)
    requires Valid(h, es) && Can(Run(h, es), e)
    ensures Valid(h, es + [e]) && Run(h, es + [e]) == Do(Run(h, es), e)
  {
    ValidCons(Run(h, es), e, []);
    assert [e] + [] == [e];
    RunConcat(h, es, [e]);
  }
}
