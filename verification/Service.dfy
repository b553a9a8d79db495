/**
  `Create` and `CreateBatch` after their rows are stored: skip what is scheduled for later, publish, mark
  queued, one row after the other, while workers, the scheduler and cancellations act on the same rows.
*/
module Service {
  import opened Records
  import opened Delivery
  import opened ProcessWorker
  import opened System
  import Ledger

  /** What the broker and the database answer for one row. */
  datatype Answer = Answer(taken: bool, reported: bool, marked: bool, markReported: bool)

  /** Nobody else publishes a row without a schedule. */
  lemma OthersKeepPublished(max: int, c: Cell, e: Event)
    requires Enabled(c, e) && !CreatorEvent(e) && Ledger.PublishedOnce(c)
    ensures var d := Next(max, c, e);
            d.published >= c.published && (c.row.scheduledAt.None? ==> d.published == c.published)
  {
  }

  /** What the creating call did for the row, in order. */
  function Creating(es: seq<Event>): seq<Event> {
    if es == [] then [] else (if CreatorEvent(es[0]) then [es[0]] else []) + Creating(es[1..])
  }

  lemma {:induction false} CreatingAppend(es: seq<Event>, e: Event)
    ensures Creating(es + [e]) == Creating(es) + (if CreatorEvent(e) then [e] else [])
  {
    if es == [] {
      assert es + [e] == [e] && [e][1..] == [];
    } else {
      assert (es + [e])[0] == es[0] && (es + [e])[1..] == es[1..] + [e];
      CreatingAppend(es[1..], e);
      Assoc(if CreatorEvent(es[0]) then [es[0]] else [], Creating(es[1..]), if CreatorEvent(e) then [e] else []);
    }
  }

  /** A step of the creating call. */
  method Create(d: Desk, e: Event)
    requires d.Consistent() && CreatorEvent(e) && Enabled(d.cell, e)
    modifies d
    ensures d.Consistent() && d.cell == Next(d.maxRetries, old(d.cell), e)
    ensures Creating(d.log) == old(Creating(d.log)) + [e]
  {
    CreatingAppend(d.log, e);
    d.Step(e);
  }

  /** A stored row that the publish loop has not reached. */
  ghost predicate Todo(d: Desk)
    reads d
  {
    d.Consistent() && d.cell.creator.Listed?
  }

  /**
    What the publish loop leaves behind for a row that was `was` before, its call having done `done` for it. The
    call has let go of it. It was skipped only if scheduled for later, published only once due, and is reported
    queued exactly when it was not skipped and neither call failed; a row without a schedule has a copy exactly
    when the broker took one.
  */
  ghost predicate Done(d: Desk, was: Cell, done: seq<Event>, a: Answer, queued: bool)
    reads d
  {
    && d.Consistent() && d.cell.creator.Idle? && d.cell.row.scheduledAt == was.row.scheduledAt
    && (d.cell.skipped ==> !Reached(was.row.scheduledAt, was.now))
    && (!d.cell.skipped ==> Reached(was.row.scheduledAt, d.cell.now))
    && (queued <==> !d.cell.skipped && a.reported && a.markReported)
    && (!d.cell.skipped && a.taken ==> d.cell.published > was.published)
    && Creating(d.log) == done + (if d.cell.skipped then [Decide]
                                  else if a.reported then [Decide, PublishNew(a.taken, true), MarkNew(a.marked)]
                                  else [Decide, PublishNew(a.taken, false)])
    && (was.row.scheduledAt.None? ==> d.cell.published == One(a.taken))
  }

  /** What others cannot take back from the creating call. */
  ghost predicate Kept(was: Cell, c: Cell) {
    && c.creator == was.creator && c.skipped == was.skipped
    && c.row.scheduledAt == was.row.scheduledAt && c.now >= was.now && c.published >= was.published
    && (c.row.scheduledAt.None? ==> c.published == was.published)
  }

  method OthersAct(d: Desk, others: seq<Event>)
    requires d.Consistent()
    modifies d
    ensures d.Consistent() && Kept(old(d.cell), d.cell) && Creating(d.log) == old(Creating(d.log))
  {
    for i := 0 to |others|
      invariant d.Consistent() && Kept(old(d.cell), d.cell) && Creating(d.log) == old(Creating(d.log))
    {
      if Enabled(d.cell, others[i]) && !CreatorEvent(others[i]) {
        d.StaysSound();
        TasksFrame(d.maxRetries, d.cell, others[i]);
        OthersKeepPublished(d.maxRetries, d.cell, others[i]);
        CreatingAppend(d.log, others[i]);
        d.Step(others[i]);
      }
    }
  }

  /** One row of the publish loop. */
  method PublishRow(d: Desk, a: Answer, others: nat -> seq<Event>) returns (queued: bool)
    requires Todo(d)
    modifies d
    ensures Done(d, old(d.cell), old(Creating(d.log)), a, queued)
    ensures d.cell.skipped ==> d.cell.row.scheduledAt.Some? && d.cell.row.scheduledAt.value > old(d.cell.now)
    ensures Creating(d.log) == old(Creating(d.log))
              + (if d.cell.skipped then [Decide]
                 else if a.reported then [Decide, PublishNew(a.taken, true), MarkNew(a.marked)]
                 else [Decide, PublishNew(a.taken, false)])
    ensures queued <==> !d.cell.skipped && a.reported && a.markReported
  {
    d.StaysSound();
    OthersAct(d, others(0));
    Create(d, Decide);
    OthersAct(d, others(1));
    queued := false;
    if d.cell.creator.Publishing? {
      queued := PublishAndMark(d, a, others);
    }
  }

  /** The row is due: publish it and, unless that reports an error, mark it queued. */
  method PublishAndMark(d: Desk, a: Answer, others: nat -> seq<Event>) returns (queued: bool)
    requires d.Consistent() && d.cell.creator.Publishing?
    modifies d
    ensures d.Consistent() && d.cell.creator.Idle? && d.cell.skipped == old(d.cell.skipped)
    ensures d.cell.row.scheduledAt == old(d.cell.row.scheduledAt) && d.cell.now >= old(d.cell.now)
    ensures queued <==> a.reported && a.markReported
    ensures Creating(d.log) == old(Creating(d.log))
              + (if a.reported then [PublishNew(a.taken, true), MarkNew(a.marked)] else [PublishNew(a.taken, false)])
    ensures d.cell.published >= old(d.cell.published) + One(a.taken)
    ensures d.cell.row.scheduledAt.None? ==> d.cell.published == old(d.cell.published) + One(a.taken)
  {
    Create(d, PublishNew(a.taken, a.reported));
    OthersAct(d, others(2));
    queued := false;
    if a.reported {
      Create(d, MarkNew(a.marked));
      OthersAct(d, others(3));
      queued := a.markReported;
    }
  }

  /** The publish loop over the inserted batch; a failure on one row does not stop the others. */
  method PublishBatch(desks: seq<Desk>, answers: seq<Answer>, others: nat -> nat -> seq<Event>) returns (queued: seq<bool>)
    requires |desks| == |answers|
    requires forall i, j :: 0 <= i < j < |desks| ==> desks[i] != desks[j]
    requires forall i :: 0 <= i < |desks| ==> Todo(desks[i])
    modifies desks
    ensures |queued| == |desks|
    ensures forall i :: 0 <= i < |desks| ==>
              Done(desks[i], old(desks[i].cell), old(Creating(desks[i].log)), answers[i], queued[i])
  {
    queued := [];
    for i := 0 to |desks|
      invariant |queued| == i
      invariant forall j :: 0 <= j < i ==>
                  Done(desks[j], old(desks[j].cell), old(Creating(desks[j].log)), answers[j], queued[j])
      invariant forall j :: i <= j < |desks| ==>
                  Todo(desks[j]) && desks[j].cell == old(desks[j].cell) && desks[j].log == old(desks[j].log)
    {
      var ok := PublishRow(desks[i], answers[i], others(i));
      queued := queued + [ok];
    }
  }
}
