/** Counting the deliveries of one notification by where their workers stand. */
module Census {
  import opened Records
  import opened Delivery

  ghost function Where(m: map<Tag, Worker>, p: Worker -> bool): set<Tag> {
    set t | t in m && p(m[t])
  }

  ghost function Count(m: map<Tag, Worker>, p: Worker -> bool): nat {
    |Where(m, p)|
  }

  predicate Any(w: Worker) { true }

  /** The worker's last snapshot is from before the provider call. */
  predicate HasSnap(w: Worker) {
    w.Loaded? || w.Waiting? || w.Ready? || w.Begun? || w.Admitted? || w.Cleared? || w.Sending?
  }

  /** The worker may still increment retry_count. */
  function MayIncrement(max: int): Worker -> bool {
    (w: Worker) => w.Retrying? || (HasSnap(w) && w.snap.retryCount < max)
  }

  /** The provider was called and the call is not settled in the row or the broker yet. */
  predicate Unsettled(w: Worker) {
    w.Sending? || w.Accepted? || w.Retrying? || w.Exhausted? || w.Acking? || w.Rejecting?
  }

  /** Past Allow and still to report to the breaker. */
  predicate InFlight(w: Worker) { w.Admitted? || w.Cleared? || w.Sending? }

  predicate WasAccepted(w: Worker) { w.Accepted? || w.Acking? }
  predicate IsAcking(w: Worker) { w.Acking? }
  predicate IsRejecting(w: Worker) { w.Rejecting? }

  /** The outcome update was tried; only the broker is still to be told. */
  predicate Stamped(w: Worker) { w.Acking? || w.Rejecting? }

  lemma CountMove(m: map<Tag, Worker>, t: Tag, w: Worker, p: Worker -> bool)
    ensures Count(m[t := w], p) == Count(m, p) - One(t in m && p(m[t])) + One(p(w))
  {
    var others := Where(m, p) - {t};
    if p(w) {
      assert Where(m[t := w], p) == others + {t};
    } else {
      assert Where(m[t := w], p) == others;
    }
    if t in m && p(m[t]) {
      assert Where(m, p) == others + {t};
    } else {
      assert Where(m, p) == others;
    }
  }

  lemma CountDrop(m: map<Tag, Worker>, t: Tag, p: Worker -> bool)
    requires t in m
    ensures Count(m - {t}, p) == Count(m, p) - One(p(m[t]))
  {
    assert Where(m - {t}, p) == Where(m, p) - {t};
  }

  lemma CountWithin(m: map<Tag, Worker>, p: Worker -> bool)
    ensures Count(m, p) <= Count(m, Any)
  {
    SubsetSize(Where(m, p), Where(m, Any));
  }

  lemma CountPositive(m: map<Tag, Worker>, t: Tag, p: Worker -> bool)
    requires t in m && p(m[t])
    ensures Count(m, p) >= 1
  {
    assert t in Where(m, p);
  }

  /** A worker that is alone decides every count. */
  lemma CountAlone(m: map<Tag, Worker>, t: Tag, p: Worker -> bool)
    requires t in m && Count(m, Any) <= 1
    ensures Count(m, p) == One(p(m[t]))
    ensures m.Keys == {t}
  {
    forall x | x in m ensures x == t {
      if x != t {
        SubsetSize({t, x}, Where(m, Any));
      }
    }
    assert Where(m, p) == if p(m[t]) then {t} else {};
  }

  /** How one event moves any count. */
  lemma CountNext(max: int, c: Cell, e: Event, p: Worker -> bool)
    requires Enabled(c, e)
    ensures var d := Next(max, c, e);
            match e
            case Deliver(tag) => Count(d.workers, p) == Count(c.workers, p) + One(p(Fetched))
            case Work(tag, we) =>
              Count(d.workers, p) + One(p(c.workers[tag])) ==
              Count(c.workers, p) + (if Disposes(we) then 0 else One(p(Turn(max, c, c.workers[tag], we))))
            case _ => Count(d.workers, p) == Count(c.workers, p)
  {
    match e
    case Deliver(tag) => CountMove(c.workers, tag, Fetched, p);
    case Work(tag, we) =>
      if Disposes(we) {
        CountDrop(c.workers, tag, p);
      } else {
        CountMove(c.workers, tag, Turn(max, c, c.workers[tag], we), p);
      }
    case _ =>
  }

  // ---- Counting events

  /** Dispositions that one delivery received. */
  function Dispositions(es: seq<Event>, tag: Tag): nat {
    if es == [] then 0
    else One(es[0].Work? && es[0].tag == tag && Disposes(es[0].what)) + Dispositions(es[1..], tag)
  }

  /** What one delivery's worker did, in order. */
  function Mine(es: seq<Event>, tag: Tag): seq<WorkerEvent> {
    if es == [] then []
    else (if es[0].Work? && es[0].tag == tag then [es[0].what] else []) + Mine(es[1..], tag)
  }

  lemma {:induction false} MineAppend(es: seq<Event>, e: Event, tag: Tag)
    ensures Mine(es + [e], tag) == Mine(es, tag) + (if e.Work? && e.tag == tag then [e.what] else [])
  {
    if es == [] {
      assert es + [e] == [e] && [e][1..] == [];
    } else {
      assert (es + [e])[0] == es[0] && (es + [e])[1..] == es[1..] + [e];
      MineAppend(es[1..], e, tag);
      Assoc(if es[0].Work? && es[0].tag == tag then [es[0].what] else [], Mine(es[1..], tag),
            if e.Work? && e.tag == tag then [e.what] else []);
    }
  }

  predicate IsAdmission(e: Event, tag: Tag) { e == Work(tag, Admit(true)) }
  predicate IsExit(e: Event, tag: Tag) { e == Work(tag, Limit(TimeOut)) || e == Work(tag, Limit(Quit)) }
  predicate IsRecord(e: Event, tag: Tag) { e.Work? && e.tag == tag && e.what.SendDone? }

  /** Times the breaker let this delivery's worker pass. */
  function Admissions(es: seq<Event>, tag: Tag): nat {
    if es == [] then 0 else One(IsAdmission(es[0], tag)) + Admissions(es[1..], tag)
  }

  /** Times it left because the limiter did not let it pass: the exit without a Record call. */
  function Exits(es: seq<Event>, tag: Tag): nat {
    if es == [] then 0 else One(IsExit(es[0], tag)) + Exits(es[1..], tag)
  }

  /** Record calls it made on the breaker, one per answer of the provider. */
  function RecordCalls(es: seq<Event>, tag: Tag): nat {
    if es == [] then 0 else One(IsRecord(es[0], tag)) + RecordCalls(es[1..], tag)
  }

  predicate Aloft(c: Cell, tag: Tag) {
    tag in c.workers && InFlight(c.workers[tag])
  }

  lemma AloftNext(max: int, c: Cell, e: Event, tag: Tag)
    requires Enabled(c, e)
    ensures One(IsAdmission(e, tag)) + One(Aloft(c, tag))
            == One(IsRecord(e, tag)) + One(IsExit(e, tag)) + One(Aloft(Next(max, c, e), tag))
  {
  }

  /** Every admission is answered by one Record call or one exit at the limiter, or is still in flight. */
  lemma {:induction false} AdmissionsSettled(max: int, c: Cell, es: seq<Event>, tag: Tag)
    requires Valid(max, c, es)
    ensures Admissions(es, tag) + One(Aloft(c, tag))
            == RecordCalls(es, tag) + Exits(es, tag) + One(Aloft(Run(max, c, es), tag))
    decreases |es|
  {
    if es != [] {
      AloftNext(max, c, es[0], tag);
      AdmissionsSettled(max, Next(max, c, es[0]), es[1..], tag);
    }
  }

  /** The delivery's worker will not ask the breaker again. */
  predicate Asked(c: Cell, tag: Tag) {
    if tag in c.workers then
      var w := c.workers[tag];
      !(w.Fetched? || w.Loaded? || w.Waiting? || w.Ready? || w.Begun?)
    else tag in c.disposed
  }

  lemma AskedNext(max: int, c: Cell, e: Event, tag: Tag)
    requires Enabled(c, e) && Asked(c, tag)
    ensures Asked(Next(max, c, e), tag) && !IsAdmission(e, tag)
  {
  }

  lemma {:induction false} AskedOnce(max: int, c: Cell, es: seq<Event>, tag: Tag)
    requires Valid(max, c, es) && Asked(c, tag)
    ensures Admissions(es, tag) == 0
    decreases |es|
  {
    if es != [] {
      AskedNext(max, c, es[0], tag);
      AskedOnce(max, Next(max, c, es[0]), es[1..], tag);
    }
  }
}
