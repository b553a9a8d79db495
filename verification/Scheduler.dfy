/** Draining the schedule: each poll publishes the hundred earliest due rows, in order. */
module Scheduler {
  import opened Records

  const POLL_LIMIT: nat := 100

  datatype Job = Job(pending: bool, at: Time)

  type Table = map<Id, Job>

  function Due(t: Table, now: Time): set<Id> {
    set id | id in t && t[id].pending && t[id].at <= now
  }

  predicate InOrder(t: Table, s: seq<Id>) {
    && (forall i :: 0 <= i < |s| ==> s[i] in t)
    && (forall i, j :: 0 <= i < j < |s| ==> t[s[i]].at <= t[s[j]].at)
  }

  /** What GetScheduledReady may answer: ties in scheduled_at are the database's choice. */
  ghost predicate Answer(t: Table, now: Time, limit: nat, ids: seq<Id>) {
    && Distinct(ids) && InOrder(t, ids) && |ids| <= limit
    && (forall i :: 0 <= i < |ids| ==> ids[i] in Due(t, now))
    && (forall id :: id in Due(t, now) && id !in ids ==>
          |ids| == limit && forall i :: 0 <= i < |ids| ==> t[ids[i]].at <= t[id].at)
  }

  /** The table once these rows are no longer pending. */
  function Clear(t: Table, done: set<Id>): Table {
    map id | id in t :: if id in done then t[id].(pending := false) else t[id]
  }

  function Elements(s: seq<Id>): set<Id> {
    set id | id in s
  }

  function Marked(t: Table, ids: seq<Id>): Table {
    Clear(t, Elements(ids))
  }

  class Poller {
    var table: Table
    var published: seq<Id>

    constructor (table: Table)
      ensures this.table == table && published == []
    {
      this.table, this.published := table, [];
    }

    /**
      One poll over the list the query returned. The broker has exactly the copies it took, one of each row, in the
      order of the list; exactly the rows reported published and marked stop being pending, whatever fails on others.
    */
    method Poll(ghost now: Time, ids: seq<Id>, taken: seq<bool>, reported: seq<bool>, markOk: seq<bool>)
      requires Answer(table, now, POLL_LIMIT, ids) && |taken| == |reported| == |markOk| == |ids|
      modifies this
      ensures |ids| <= 100 && old(published) <= published
      ensures forall i :: 0 <= i < |ids| ==> (taken[i] <==> ids[i] in published[|old(published)|..])
      ensures forall id :: id in published[|old(published)|..] ==> id in ids
      ensures Distinct(published[|old(published)|..]) && InOrder(old(table), published[|old(published)|..])
      ensures table.Keys == old(table).Keys && forall id :: id in table ==> table[id].at == old(table)[id].at
      ensures forall i :: 0 <= i < |ids| ==> (table[ids[i]].pending <==> !(reported[i] && markOk[i]))
      ensures forall id :: id in table && id !in ids ==> table[id] == old(table)[id]
      ensures (forall i :: 0 <= i < |ids| ==> taken[i] && reported[i] && markOk[i]) ==>
                table == Marked(old(table), ids) && published == old(published) + ids
    {
      ghost var sent := PublishEach(ids, taken, reported, markOk);
      ghost var latest := published[|old(published)|..];
      assert published == old(published) + latest;
      SentByPlace(old(table), ids, taken, sent, latest);
      MarkedByPlace(old(table), now, ids, reported, markOk, table);
    }

    /**
      Publish a row, then, unless that reports an error, mark it queued; a failure of either goes on to the next
      row. `sent` are the places on the list whose copies the broker took.
    */
    method PublishEach(ids: seq<Id>, taken: seq<bool>, reported: seq<bool>, markOk: seq<bool>) returns (ghost sent: seq<nat>)
      requires |taken| == |reported| == |markOk| == |ids| && Distinct(ids) && forall i :: 0 <= i < |ids| ==> ids[i] in table
      modifies this
      ensures Places(sent, taken, |ids|)
      ensures old(published) <= published && |published| == |old(published)| + |sent|
      ensures forall k :: 0 <= k < |sent| ==> published[|old(published)| + k] == ids[sent[k]]
      ensures table.Keys == old(table).Keys
      ensures forall i :: 0 <= i < |ids| ==>
                table[ids[i]] == if reported[i] && markOk[i] then old(table)[ids[i]].(pending := false) else old(table)[ids[i]]
      ensures forall id :: id in table && id !in ids ==> table[id] == old(table)[id]
    {
      sent := [];
      var i := 0;
      while i < |ids|
        invariant 0 <= i <= |ids| && Places(sent, taken, i)
        invariant old(published) <= published && |published| == |old(published)| + |sent|
        invariant forall k :: 0 <= k < |sent| ==> published[|old(published)| + k] == ids[sent[k]]
        invariant table.Keys == old(table).Keys
        invariant forall j :: 0 <= j < i ==>
                    table[ids[j]] == if reported[j] && markOk[j] then old(table)[ids[j]].(pending := false) else old(table)[ids[j]]
        invariant forall id :: id in table && id !in ids[..i] ==> table[id] == old(table)[id]
      {
        if taken[i] {
          published := published + [ids[i]];
          sent := sent + [i];
        }
        if reported[i] && markOk[i] {
          table := table[ids[i] := table[ids[i]].(pending := false)];
        }
        assert ids[..i + 1] == ids[..i] + [ids[i]];
        i := i + 1;
      }
      assert ids[..|ids|] == ids;
    }
  }

  /** The places below `n` whose flag is set, in order. */
  ghost predicate Places(places: seq<nat>, ok: seq<bool>, n: nat)
    requires n <= |ok|
  {
    && (forall k :: 0 <= k < |places| ==> places[k] < n && ok[places[k]])
    && (forall i :: 0 <= i < n && ok[i] ==> i in places)
    && (forall j, k :: 0 <= j < k < |places| ==> places[j] < places[k])
  }

  /** Rows marked or left alone place by place, read as a whole. */
  lemma MarkedByPlace(t: Table, now: Time, ids: seq<Id>, reported: seq<bool>, markOk: seq<bool>, u: Table)
    requires |reported| == |markOk| == |ids| && t.Keys == u.Keys
    requires forall i :: 0 <= i < |ids| ==> ids[i] in Due(t, now) && ids[i] in u
    requires forall i :: 0 <= i < |ids| ==>
               u[ids[i]] == if reported[i] && markOk[i] then t[ids[i]].(pending := false) else t[ids[i]]
    requires forall id :: id in u && id !in ids ==> u[id] == t[id]
    ensures forall id :: id in u ==> u[id].at == t[id].at
    ensures forall i :: 0 <= i < |ids| ==> (u[ids[i]].pending <==> !(reported[i] && markOk[i]))
    ensures (forall i :: 0 <= i < |ids| ==> reported[i] && markOk[i]) ==> u == Marked(t, ids)
  {
    forall id | id in u ensures u[id].at == t[id].at {
      if id in ids {
        var i :| 0 <= i < |ids| && ids[i] == id;
      }
    }
    if forall i :: 0 <= i < |ids| ==> reported[i] && markOk[i] {
      forall id | id in u ensures u[id] == Marked(t, ids)[id] {
        if id in ids {
          var i :| 0 <= i < |ids| && ids[i] == id;
        }
      }
    }
  }

  /** The rows at these places are the ones taken, once each and in the order of the list. */
  lemma SentByPlace(t: Table, ids: seq<Id>, taken: seq<bool>, sent: seq<nat>, latest: seq<Id>)
    requires |taken| == |ids| && Distinct(ids) && InOrder(t, ids) && Places(sent, taken, |ids|)
    requires |latest| == |sent| && forall k :: 0 <= k < |sent| ==> latest[k] == ids[sent[k]]
    ensures forall i :: 0 <= i < |ids| ==> (taken[i] <==> ids[i] in latest)
    ensures forall id :: id in latest ==> id in ids
    ensures Distinct(latest) && InOrder(t, latest)
    ensures (forall i :: 0 <= i < |ids| ==> taken[i]) ==> latest == ids
  {
    forall i | 0 <= i < |ids| && taken[i] ensures ids[i] in latest {
      var k :| 0 <= k < |sent| && sent[k] == i;
      assert latest[k] == ids[i];
    }
    forall i | 0 <= i < |ids| && ids[i] in latest ensures taken[i] {
      var k :| 0 <= k < |latest| && latest[k] == ids[i];
      assert sent[k] == i;
    }
    if forall i :: 0 <= i < |ids| ==> taken[i] {
      assert forall i: nat :: i < |ids| ==> i in sent;
      AllSent(sent, |ids|);
    }
  }

  /** All places in order are 0, 1, 2, ... */
  lemma {:induction false} AllSent(places: seq<nat>, n: nat)
    requires (forall k :: 0 <= k < |places| ==> places[k] < n) && forall i: nat :: i < n ==> i in places
    requires forall j, k :: 0 <= j < k < |places| ==> places[j] < places[k]
    ensures |places| == n && forall k :: 0 <= k < n ==> places[k] == k
  {
    if places == [] {
      var first: nat := 0;
      assert first < n ==> first in places;
    } else {
      var m := |places| - 1;
      assert places[m] < n;
      var last: nat := n - 1;
      assert last in places;
      var k :| 0 <= k < |places| && places[k] == last;
      assert k == m;
      forall i: nat | i < n - 1 ensures i in places[..m] {
        assert i in places;
        var j :| 0 <= j < |places| && places[j] == i;
        assert places[..m][j] == i;
      }
      AllSent(places[..m], n - 1);
      assert forall j :: 0 <= j < m ==> places[..m][j] == places[j];
    }
  }

  lemma {:induction false} Earliest(t: Table, ids: set<Id>) returns (first: Id)
    requires ids != {} && forall id :: id in ids ==> id in t
    ensures first in ids && forall id :: id in ids ==> t[first].at <= t[id].at
    decreases ids
  {
    first :| first in ids;
    var rest := ids - {first};
    assert forall id :: id in ids ==> id == first || id in rest;
    if rest != {} {
      var x := Earliest(t, rest);
      if t[x].at < t[first].at {
        first := x;
      }
    }
  }

  /** The query always has an answer. */
  lemma {:induction false} AnswerExists(t: Table, now: Time, limit: nat) returns (ids: seq<Id>)
    ensures Answer(t, now, limit, ids)
  {
    ids := [];
    if limit > 0 {
      ids := AnswerExists(t, now, limit - 1);
      var left := Due(t, now) - Elements(ids);
      assert forall id :: id in Due(t, now) && id !in ids ==> id in left;
      if left != {} {
        var x := Earliest(t, left);
        assert x in left;
        ids := ids + [x];
      }
    }
  }

  // ---- Whole sequences of undisturbed polls

  /** Polls at the given times, each answered as the query allows, leaving `end`. */
  ghost predicate Polls(t: Table, nows: seq<Time>, lists: seq<seq<Id>>, end: Table)
    decreases |nows|
  {
    |nows| == |lists| &&
    if nows == [] then end == t
    else Answer(t, nows[0], POLL_LIMIT, lists[0]) && Polls(Marked(t, lists[0]), nows[1..], lists[1..], end)
  }

  function Flatten(lists: seq<seq<Id>>): seq<Id> {
    if lists == [] then [] else lists[0] + Flatten(lists[1..])
  }

  lemma {:induction false} SizeOfSeq(s: seq<Id>)
    requires Distinct(s)
    ensures |Elements(s)| == |s|
  {
    if s != [] {
      var n := |s| - 1;
      SizeOfSeq(s[..n]);
      assert Elements(s) == Elements(s[..n]) + {s[n]};
    } else {
      assert Elements(s) == {};
    }
  }

  /** Rows due at time `since` go before all later ones: a poll at `since` or later takes a hundred of them, or all. */
  lemma PollTakesEarliest(t: Table, since: Time, now: Time, ids: seq<Id>)
    requires since <= now && Answer(t, now, POLL_LIMIT, ids)
    ensures |Due(Marked(t, ids), since)| == Max(0, |Due(t, since)| - 100)
  {
    var listed, due := Elements(ids), Due(t, since);
    SizeOfSeq(ids);
    assert Due(Marked(t, ids), since) == due - listed;
    if due <= listed {
      assert due - listed == {};
      SubsetSize(due, listed);
    } else {
      var id :| id in due && id !in listed;
      assert id in Due(t, now) && id !in ids;
      EarlierListed(t, since, now, ids, id);
      assert |due - listed| == |due| - |listed|;
    }
  }

  /** If a row due at `since` had to wait, everything listed was due at `since` too. */
  lemma EarlierListed(t: Table, since: Time, now: Time, ids: seq<Id>, id: Id)
    requires Answer(t, now, POLL_LIMIT, ids) && id in Due(t, since) && id in Due(t, now) && id !in ids
    ensures Elements(ids) <= Due(t, since) && |ids| == POLL_LIMIT
  {
    forall x | x in Elements(ids) ensures x in Due(t, since) {
      var i :| 0 <= i < |ids| && ids[i] == x;
      assert ids[i] in Due(t, now);
    }
  }

  /** n rows due at the first poll are down to max(0, n - 100 k) after k polls, whatever falls due meanwhile. */
  lemma {:induction false} Drains(t: Table, since: Time, nows: seq<Time>, lists: seq<seq<Id>>, end: Table)
    requires Polls(t, nows, lists, end) && forall i :: 0 <= i < |nows| ==> since <= nows[i]
    ensures |Due(end, since)| == Max(0, |Due(t, since)| - 100 * |nows|)
    decreases |nows|
  {
    if nows != [] {
      assert since <= nows[0];
      PollTakesEarliest(t, since, nows[0], lists[0]);
      Drains(Marked(t, lists[0]), since, nows[1..], lists[1..], end);
    }
  }

  /** Polls publish in non-decreasing scheduled_at order, no row twice, and every row that is no longer pending. */
  lemma {:induction false} PublishesInOrder(t: Table, nows: seq<Time>, lists: seq<seq<Id>>, end: Table)
    requires Polls(t, nows, lists, end) && Ascending(nows)
    ensures var out := Flatten(lists); InOrder(t, out) && Distinct(out)
    ensures forall id :: id in Flatten(lists) <==> id in t && t[id].pending && id in end && !end[id].pending
    ensures forall id :: id in end <==> id in t
    decreases |nows|
  {
    if nows != [] {
      var u, first, later := Marked(t, lists[0]), lists[0], Flatten(lists[1..]);
      PublishesInOrder(u, nows[1..], lists[1..], end);
      LaterListsFollow(u, nows[1..], lists[1..], end);
      forall i, j | 0 <= i < |first| && 0 <= j < |later| ensures first[i] != later[j] && t[first[i]].at <= t[later[j]].at {
        assert later[j] in later && first[i] in Due(t, nows[0]);
        assert u[later[j]].pending && later[j] !in first;
        if later[j] in Due(t, nows[0]) {
          assert t[first[i]].at <= t[later[j]].at;
        }
      }
      assert forall id :: id in first + later <==> id in first || id in later;
      forall id | id in t && t[id].pending && id in end && !end[id].pending ensures id in first + later {
        if id !in first {
          assert u[id] == t[id];
        }
      }
      forall id | id in first ensures id in t && t[id].pending && id in end && !end[id].pending {
        var i :| 0 <= i < |first| && first[i] == id;
        assert first[i] in Due(t, nows[0]);
        MarkedStays(u, nows[1..], lists[1..], end, id);
      }
    }
  }

  lemma {:induction false} MarkedStays(t: Table, nows: seq<Time>, lists: seq<seq<Id>>, end: Table, id: Id)
    requires Polls(t, nows, lists, end) && id in t && !t[id].pending
    ensures id in end && !end[id].pending
    decreases |nows|
  {
    if nows != [] {
      MarkedStays(Marked(t, lists[0]), nows[1..], lists[1..], end, id);
    }
  }

  lemma {:induction false} LaterListsFollow(t: Table, nows: seq<Time>, lists: seq<seq<Id>>, end: Table)
    requires Polls(t, nows, lists, end)
    ensures forall id :: id in Flatten(lists) ==> id in t && t[id].pending
    decreases |nows|
  {
    if nows != [] {
      LaterListsFollow(Marked(t, lists[0]), nows[1..], lists[1..], end);
      forall id | id in Flatten(lists) ensures id in t && t[id].pending {
        if id in lists[0] {
          var i :| 0 <= i < |lists[0]| && lists[0][i] == id;
          assert lists[0][i] in Due(t, nows[0]);
        } else {
          assert id in Flatten(lists[1..]);
        }
      }
    }
  }

  /** So n due rows are all published by ceil(n / 100) polls. */
  lemma AllDueRowsPublished(t: Table, nows: seq<Time>, lists: seq<seq<Id>>, end: Table, id: Id)
    requires nows != [] && Polls(t, nows, lists, end) && Ascending(nows)
    requires |Due(t, nows[0])| <= POLL_LIMIT * |nows| && id in Due(t, nows[0])
    ensures id in Flatten(lists)
  {
    Drains(t, nows[0], nows, lists, end);
    PublishesInOrder(t, nows, lists, end);
    ScheduleKept(t, nows, lists, end, id);
    assert Due(end, nows[0]) == {};
    assert id !in Due(end, nows[0]);
  }

  lemma {:induction false} ScheduleKept(t: Table, nows: seq<Time>, lists: seq<seq<Id>>, end: Table, id: Id)
    requires Polls(t, nows, lists, end) && id in t
    ensures id in end && end[id].at == t[id].at
    decreases |nows|
  {
    if nows != [] {
      ScheduleKept(Marked(t, lists[0]), nows[1..], lists[1..], end, id);
    }
  }
}
