/** The dynamic SQL of List: clauses and positional arguments grown step by step, and what the query means. */
module Listing {
  import opened Records

  datatype Rec = Rec(id: Id, createdAt: Time, status: string, channel: string, priority: string)

  datatype Filters = Filters(
    status: Option<string>,
    channel: Option<string>,
    priority: Option<string>,
    createdAfter: Option<Time>,
    createdBefore: Option<Time>)

  datatype Cursor = Cursor(createdAt: Time, id: Id)

  datatype Page = Page(rows: seq<Rec>, hasMore: bool, next: Option<Cursor>)

  // ---- SQL

  datatype Value = Text(text: string) | Stamp(at: Time) | Uid(id: Id) | Count(n: nat)

  /** A conjunct of the WHERE clause; numbers are the `$n` placeholders in it. */
  datatype Clause =
    | StatusIs(n: nat)
    | ChannelIs(n: nat)
    | PriorityIs(n: nat)
    | CreatedFrom(n: nat)
    | CreatedTo(n: nat)
    | KeyBelow(n: nat, m: nat)

  function Arg(args: seq<Value>, n: nat): Option<Value> {
    if 1 <= n <= |args| then Some(args[n - 1]) else None
  }

  /** Row-wise comparison (created_at, id) < (c, i). */
  predicate Below(r: Rec, c: Time, i: Id) {
    r.createdAt < c || (r.createdAt == c && r.id < i)
  }

  predicate Holds(clause: Clause, args: seq<Value>, r: Rec) {
    match clause
    case StatusIs(n) => Arg(args, n) == Some(Text(r.status))
    case ChannelIs(n) => Arg(args, n) == Some(Text(r.channel))
    case PriorityIs(n) => Arg(args, n) == Some(Text(r.priority))
    case CreatedFrom(n) => Arg(args, n).Some? && Arg(args, n).value.Stamp? && Arg(args, n).value.at <= r.createdAt
    case CreatedTo(n) => Arg(args, n).Some? && Arg(args, n).value.Stamp? && r.createdAt <= Arg(args, n).value.at
    case KeyBelow(n, m) =>
      Arg(args, n).Some? && Arg(args, n).value.Stamp? && Arg(args, m).Some? && Arg(args, m).value.Uid?
      && Below(r, Arg(args, n).value.at, Arg(args, m).value.id)
  }

  predicate Satisfies(where: seq<Clause>, args: seq<Value>, r: Rec) {
    forall i :: 0 <= i < |where| ==> Holds(where[i], args, r)
  }

  function Numbers(clause: Clause): seq<nat> {
    if clause.KeyBelow? then [clause.n, clause.m] else [clause.n]
  }

  /** The placeholders of the query text, left to right. */
  function Placeholders(where: seq<Clause>): seq<nat> {
    if where == [] then [] else Placeholders(where[..|where| - 1]) + Numbers(where[|where| - 1])
  }

  /** 1, 2, ..., n. */
  function UpTo(n: nat): seq<nat> {
    if n == 0 then [] else UpTo(n - 1) + [n]
  }

  // ---- Meaning

  predicate Matches(f: Filters, r: Rec) {
    && (f.status.Some? ==> r.status == f.status.value)
    && (f.channel.Some? ==> r.channel == f.channel.value)
    && (f.priority.Some? ==> r.priority == f.priority.value)
    && (f.createdAfter.Some? ==> f.createdAfter.value <= r.createdAt)
    && (f.createdBefore.Some? ==> r.createdAt <= f.createdBefore.value)
  }

  predicate Past(cursor: Option<Cursor>, r: Rec) {
    cursor.Some? ==> Below(r, cursor.value.createdAt, cursor.value.id)
  }

  function Wanted(f: Filters, cursor: Option<Cursor>): Rec -> bool {
    (r: Rec) => Matches(f, r) && Past(cursor, r)
  }

  function Selects(where: seq<Clause>, args: seq<Value>): Rec -> bool {
    (r: Rec) => Satisfies(where, args, r)
  }

  function FilterBy(s: seq<Rec>, p: Rec -> bool): seq<Rec> {
    if s == [] then [] else (if p(s[0]) then [s[0]] else []) + FilterBy(s[1..], p)
  }

  /** ORDER BY created_at DESC, id DESC. */
  predicate Before(a: Rec, b: Rec) {
    Below(b, a.createdAt, a.id)
  }

  function InsertDesc(r: Rec, s: seq<Rec>): seq<Rec> {
    if s == [] || Before(r, s[0]) then [r] + s else [s[0]] + InsertDesc(r, s[1..])
  }

  function SortDesc(s: seq<Rec>): seq<Rec> {
    if s == [] then [] else InsertDesc(s[0], SortDesc(s[1..]))
  }

  function Take(s: seq<Rec>, n: nat): seq<Rec> {
    if |s| <= n then s else s[..n]
  }

  /** What the database returns for the built query. */
  function Execute(where: seq<Clause>, limit: nat, args: seq<Value>, table: seq<Rec>): seq<Rec> {
    var sorted := SortDesc(FilterBy(table, Selects(where, args)));
    if Arg(args, limit).Some? && Arg(args, limit).value.Count? then Take(sorted, Arg(args, limit).value.n) else []
  }

  /** The rows still to be listed after a cursor, in order. */
  function Remaining(table: seq<Rec>, f: Filters, cursor: Option<Cursor>): seq<Rec> {
    SortDesc(FilterBy(table, Wanted(f, cursor)))
  }

  lemma {:induction false} FilterSame(s: seq<Rec>, p: Rec -> bool, q: Rec -> bool)
    requires forall r :: p(r) == q(r)
    ensures FilterBy(s, p) == FilterBy(s, q)
  {
    if s != [] {
      FilterSame(s[1..], p, q);
    }
  }

  // ---- The builder

  /** Adding an argument does not disturb clauses whose placeholders are already bound. */
  lemma StillBound(where: seq<Clause>, args: seq<Value>, more: seq<Value>)
    requires forall i :: 0 <= i < |where| ==> Bound(where[i], |args|)
    ensures forall r :: Satisfies(where, args + more, r) == Satisfies(where, args, r)
  {
    forall r ensures Satisfies(where, args + more, r) == Satisfies(where, args, r) {
      forall i | 0 <= i < |where| ensures Holds(where[i], args + more, r) == Holds(where[i], args, r) {
        assert forall n :: 1 <= n <= |args| ==> Arg(args + more, n) == Arg(args, n);
      }
    }
  }

  predicate Bound(clause: Clause, n: nat) {
    1 <= clause.n <= n && (clause.KeyBelow? ==> 1 <= clause.m <= n)
  }

  /** The clauses so far are bound in order and mean exactly the filters `f`. */
  ghost predicate Built(where: seq<Clause>, args: seq<Value>, f: Filters) {
    && (forall i :: 0 <= i < |where| ==> Bound(where[i], |args|))
    && Placeholders(where) == UpTo(|args|)
    && (forall r :: Satisfies(where, args, r) <==> Matches(f, r))
  }

  lemma AddClause(where: seq<Clause>, args: seq<Value>, clause: Clause, more: seq<Value>)
    requires forall i :: 0 <= i < |where| ==> Bound(where[i], |args|)
    requires Placeholders(where) == UpTo(|args|)
    requires Bound(clause, |args + more|) && UpTo(|args|) + Numbers(clause) == UpTo(|args + more|)
    ensures forall i :: 0 <= i < |where + [clause]| ==> Bound((where + [clause])[i], |args + more|)
    ensures Placeholders(where + [clause]) == UpTo(|args + more|)
    ensures forall r :: Satisfies(where + [clause], args + more, r) <==> Satisfies(where, args, r) && Holds(clause, args + more, r)
  {
    StillBound(where, args, more);
    PlaceholdersAppend(where, clause);
    forall r
      ensures Satisfies(where + [clause], args + more, r) <==> Satisfies(where, args, r) && Holds(clause, args + more, r)
    {
      OneMoreClause(where, clause, args + more, r);
    }
  }

  lemma PlaceholdersAppend(where: seq<Clause>, clause: Clause)
    ensures Placeholders(where + [clause]) == Placeholders(where) + Numbers(clause)
  {
    assert (where + [clause])[..|where|] == where;
  }

  lemma OneMoreClause(where: seq<Clause>, clause: Clause, args: seq<Value>, r: Rec)
    ensures Satisfies(where + [clause], args, r) <==> Satisfies(where, args, r) && Holds(clause, args, r)
  {
    var all := where + [clause];
    assert all[|where|] == clause && forall i :: 0 <= i < |where| ==> all[i] == where[i];
  }

  lemma AddFilter(where: seq<Clause>, args: seq<Value>, g: Filters, clause: Clause, v: Value, h: Filters)
    requires Built(where, args, g) && !clause.KeyBelow? && clause.n == |args| + 1
    requires forall r :: Matches(h, r) <==> Matches(g, r) && Holds(clause, args + [v], r)
    ensures Built(where + [clause], args + [v], h)
  {
    assert |args + [v]| == |args| + 1;
    AddClause(where, args, clause, [v]);
  }

  lemma AddCursor(where: seq<Clause>, args: seq<Value>, f: Filters, c: Cursor)
    requires Built(where, args, f)
    ensures var n := |args| + 1;
            var all, more := where + [KeyBelow(n, n + 1)], args + [Stamp(c.createdAt), Uid(c.id)];
            && (forall i :: 0 <= i < |all| ==> Bound(all[i], |more|))
            && Placeholders(all) == UpTo(|more|)
            && forall r :: Satisfies(all, more, r) <==> Matches(f, r) && Past(Some(c), r)
  {
    var clause, more := KeyBelow(|args| + 1, |args| + 2), [Stamp(c.createdAt), Uid(c.id)];
    assert UpTo(|args| + 2) == UpTo(|args|) + [|args| + 1] + [|args| + 2];
    AddClause(where, args, clause, more);
  }

  lemma AddLimit(where: seq<Clause>, args: seq<Value>, limit: Value)
    requires forall i :: 0 <= i < |where| ==> Bound(where[i], |args|)
    requires Placeholders(where) == UpTo(|args|)
    ensures Placeholders(where) + [|args| + 1] == UpTo(|args + [limit]|)
    ensures forall r :: Satisfies(where, args + [limit], r) == Satisfies(where, args, r)
    ensures Arg(args + [limit], |args| + 1) == Some(limit)
  {
    StillBound(where, args, [limit]);
  }

  lemma AddStatus(where: seq<Clause>, args: seq<Value>, g: Filters, v: string)
    requires Built(where, args, g) && g.status.None?
    ensures Built(where + [StatusIs(|args| + 1)], args + [Text(v)], g.(status := Some(v)))
  {
    AddFilter(where, args, g, StatusIs(|args| + 1), Text(v), g.(status := Some(v)));
  }

  lemma AddChannel(where: seq<Clause>, args: seq<Value>, g: Filters, v: string)
    requires Built(where, args, g) && g.channel.None?
    ensures Built(where + [ChannelIs(|args| + 1)], args + [Text(v)], g.(channel := Some(v)))
  {
    AddFilter(where, args, g, ChannelIs(|args| + 1), Text(v), g.(channel := Some(v)));
  }

  lemma AddPriority(where: seq<Clause>, args: seq<Value>, g: Filters, v: string)
    requires Built(where, args, g) && g.priority.None?
    ensures Built(where + [PriorityIs(|args| + 1)], args + [Text(v)], g.(priority := Some(v)))
  {
    AddFilter(where, args, g, PriorityIs(|args| + 1), Text(v), g.(priority := Some(v)));
  }

  lemma AddCreatedAfter(where: seq<Clause>, args: seq<Value>, g: Filters, v: Time)
    requires Built(where, args, g) && g.createdAfter.None?
    ensures Built(where + [CreatedFrom(|args| + 1)], args + [Stamp(v)], g.(createdAfter := Some(v)))
  {
    AddFilter(where, args, g, CreatedFrom(|args| + 1), Stamp(v), g.(createdAfter := Some(v)));
  }

  lemma AddCreatedBefore(where: seq<Clause>, args: seq<Value>, g: Filters, v: Time)
    requires Built(where, args, g) && g.createdBefore.None?
    ensures Built(where + [CreatedTo(|args| + 1)], args + [Stamp(v)], g.(createdBefore := Some(v)))
  {
    AddFilter(where, args, g, CreatedTo(|args| + 1), Stamp(v), g.(createdBefore := Some(v)));
  }

  // One step of the builder per filter: `query`, `args` and `idx` grow together, or stay.

  method WithStatus(f: Filters, ghost g: Filters, w: seq<Clause>, a: seq<Value>, i: nat)
    returns (where: seq<Clause>, args: seq<Value>, idx: nat)
    requires i == |a| + 1 && Built(w, a, g) && g.status.None?
    ensures idx == |args| + 1 && Built(where, args, g.(status := f.status))
  {
    where, args, idx := w, a, i;
    if f.status.Some? {
      AddStatus(where, args, g, f.status.value);
      where, args, idx := where + [StatusIs(idx)], args + [Text(f.status.value)], idx + 1;
    } else {
      assert g.(status := f.status) == g;
    }
  }

  method WithChannel(f: Filters, ghost g: Filters, w: seq<Clause>, a: seq<Value>, i: nat)
    returns (where: seq<Clause>, args: seq<Value>, idx: nat)
    requires i == |a| + 1 && Built(w, a, g) && g.channel.None?
    ensures idx == |args| + 1 && Built(where, args, g.(channel := f.channel))
  {
    where, args, idx := w, a, i;
    if f.channel.Some? {
      AddChannel(where, args, g, f.channel.value);
      where, args, idx := where + [ChannelIs(idx)], args + [Text(f.channel.value)], idx + 1;
    } else {
      assert g.(channel := f.channel) == g;
    }
  }

  method WithPriority(f: Filters, ghost g: Filters, w: seq<Clause>, a: seq<Value>, i: nat)
    returns (where: seq<Clause>, args: seq<Value>, idx: nat)
    requires i == |a| + 1 && Built(w, a, g) && g.priority.None?
    ensures idx == |args| + 1 && Built(where, args, g.(priority := f.priority))
  {
    where, args, idx := w, a, i;
    if f.priority.Some? {
      AddPriority(where, args, g, f.priority.value);
      where, args, idx := where + [PriorityIs(idx)], args + [Text(f.priority.value)], idx + 1;
    } else {
      assert g.(priority := f.priority) == g;
    }
  }

  method WithCreatedAfter(f: Filters, ghost g: Filters, w: seq<Clause>, a: seq<Value>, i: nat)
    returns (where: seq<Clause>, args: seq<Value>, idx: nat)
    requires i == |a| + 1 && Built(w, a, g) && g.createdAfter.None?
    ensures idx == |args| + 1 && Built(where, args, g.(createdAfter := f.createdAfter))
  {
    where, args, idx := w, a, i;
    if f.createdAfter.Some? {
      AddCreatedAfter(where, args, g, f.createdAfter.value);
      where, args, idx := where + [CreatedFrom(idx)], args + [Stamp(f.createdAfter.value)], idx + 1;
    } else {
      assert g.(createdAfter := f.createdAfter) == g;
    }
  }

  method WithCreatedBefore(f: Filters, ghost g: Filters, w: seq<Clause>, a: seq<Value>, i: nat)
    returns (where: seq<Clause>, args: seq<Value>, idx: nat)
    requires i == |a| + 1 && Built(w, a, g) && g.createdBefore.None?
    ensures idx == |args| + 1 && Built(where, args, g.(createdBefore := f.createdBefore))
  {
    where, args, idx := w, a, i;
    if f.createdBefore.Some? {
      AddCreatedBefore(where, args, g, f.createdBefore.value);
      where, args, idx := where + [CreatedTo(idx)], args + [Stamp(f.createdBefore.value)], idx + 1;
    } else {
      assert g.(createdBefore := f.createdBefore) == g;
    }
  }

  /** All filters, in the order the query text has them. */
  method BuildFilters(f: Filters) returns (where: seq<Clause>, args: seq<Value>, idx: nat)
    ensures idx == |args| + 1 && Built(where, args, f)
  {
    where, args, idx := [], [], 1;
    ghost var g := Filters(None, None, None, None, None);
    BuiltEmpty();
    where, args, idx := WithStatus(f, g, where, args, idx);
    g := g.(status := f.status);
    where, args, idx := WithChannel(f, g, where, args, idx);
    g := g.(channel := f.channel);
    where, args, idx := WithPriority(f, g, where, args, idx);
    g := g.(priority := f.priority);
    where, args, idx := WithCreatedAfter(f, g, where, args, idx);
    g := g.(createdAfter := f.createdAfter);
    where, args, idx := WithCreatedBefore(f, g, where, args, idx);
    assert g.(createdBefore := f.createdBefore) == f;
  }

  lemma BuiltEmpty()
    ensures Built([], [], Filters(None, None, None, None, None))
  {
  }

  /** The whole query: its placeholders are 1, 2, 3 ... in order, and together its clauses mean filters plus cursor. */
  method BuildQuery(f: Filters, cursor: Option<Cursor>, limit: nat)
    returns (where: seq<Clause>, limitAt: nat, args: seq<Value>)
    ensures Placeholders(where) + [limitAt] == UpTo(|args|)
    ensures forall r :: Satisfies(where, args, r) <==> Matches(f, r) && Past(cursor, r)
    ensures Arg(args, limitAt) == Some(Count(limit + 1))
  {
    var idx;
    where, args, idx := BuildFilters(f);
    if cursor.Some? {
      AddCursor(where, args, f, cursor.value);
      where := where + [KeyBelow(idx, idx + 1)];
      args := args + [Stamp(cursor.value.createdAt), Uid(cursor.value.id)];
      idx := idx + 2;
    }
    limitAt := idx;
    AddLimit(where, args, Count(limit + 1));
    args := args + [Count(limit + 1)];
  }
}
