/** Inserting notifications: the unique constraints, and the all-or-nothing batch transaction. */
module BatchInsert {
  import opened Records

  /** What a caller supplies; empty strings and zero mean "not given". */
  datatype Draft = Draft(id: Id, key: Option<string>, status: string, priority: string, maxRetries: int)

  datatype Stored = Stored(key: Option<string>, status: string, priority: string, maxRetries: int)

  datatype Outcome = Done | Conflict(index: nat) | Broken(index: nat)

  /** The defaults applied before the INSERT. */
  function Complete(d: Draft): Stored {
    Stored(d.key,
           if d.status == "" then "pending" else d.status,
           if d.priority == "" then "normal" else d.priority,
           if d.maxRetries == 0 then 3 else d.maxRetries)
  }

  predicate KeyTaken(rows: map<Id, Stored>, key: Option<string>) {
    key.Some? && exists id :: id in rows && rows[id].key == key
  }

  /** The INSERT violates the primary key or the unique idempotency key; NULL keys never collide. */
  predicate Violates(rows: map<Id, Stored>, d: Draft) {
    d.id in rows || KeyTaken(rows, d.key)
  }

  ghost predicate UniqueKeys(rows: map<Id, Stored>) {
    forall a, b :: a in rows && b in rows && a != b && rows[a].key.Some? ==> rows[a].key != rows[b].key
  }

  /** The rows after the first `n` drafts went in. */
  ghost function Inserted(rows: map<Id, Stored>, drafts: seq<Draft>, n: nat): map<Id, Stored>
    requires n <= |drafts|
  {
    if n == 0 then rows else Inserted(rows, drafts, n - 1)[drafts[n - 1].id := Complete(drafts[n - 1])]
  }

  /** Draft `i` collides with the table or with a draft before it. */
  ghost predicate Collides(rows: map<Id, Stored>, drafts: seq<Draft>, i: nat)
    requires i < |drafts|
  {
    Violates(rows, drafts[i]) || exists j :: 0 <= j < i && Clash(drafts[j], drafts[i])
  }

  predicate Clash(a: Draft, b: Draft) {
    a.id == b.id || (b.key.Some? && a.key == b.key)
  }

  /** While nothing collided, a collision inside the transaction is a collision with the table or the batch. */
  lemma {:induction false} ViolatesIffCollides(rows: map<Id, Stored>, drafts: seq<Draft>, n: nat, d: Draft)
    requires n <= |drafts| && forall i :: 0 <= i < n ==> !Collides(rows, drafts, i)
    ensures Violates(Inserted(rows, drafts, n), d)
            <==> Violates(rows, d) || exists j :: 0 <= j < n && Clash(drafts[j], d)
  {
    if n > 0 {
      ViolatesIffCollides(rows, drafts, n - 1, d);
      ViolatesIffCollides(rows, drafts, n - 1, drafts[n - 1]);
      var m := n - 1;
      var before, after := Inserted(rows, drafts, m), Inserted(rows, drafts, n);
      assert !Collides(rows, drafts, m);
      assert drafts[m].id !in before;
      assert after == before[drafts[m].id := Complete(drafts[m])];
      if Clash(drafts[m], d) {
        assert drafts[m].id in after && after[drafts[m].id].key == drafts[m].key;
      } else if Violates(before, d) && d.id !in before {
        var id :| id in before && before[id].key == d.key;
        assert id in after && after[id].key == d.key;
      }
    }
  }

  lemma {:induction false} InsertedUnique(rows: map<Id, Stored>, drafts: seq<Draft>, n: nat)
    requires UniqueKeys(rows) && n <= |drafts| && forall i :: 0 <= i < n ==> !Collides(rows, drafts, i)
    ensures UniqueKeys(Inserted(rows, drafts, n))
  {
    if n > 0 {
      InsertedUnique(rows, drafts, n - 1);
      ViolatesIffCollides(rows, drafts, n - 1, drafts[n - 1]);
      assert !Collides(rows, drafts, n - 1);
    }
  }

  /** What went in, row by row. */
  lemma {:induction false} InsertedRows(rows: map<Id, Stored>, drafts: seq<Draft>, n: nat)
    requires n <= |drafts| && forall i :: 0 <= i < n ==> !Collides(rows, drafts, i)
    ensures forall i :: 0 <= i < n ==> InsertedAt(rows, drafts, n, i)
    ensures forall id :: id in rows ==> id in Inserted(rows, drafts, n) && Inserted(rows, drafts, n)[id] == rows[id]
  {
    if n > 0 {
      InsertedRows(rows, drafts, n - 1);
      assert !Collides(rows, drafts, n - 1);
      forall i | 0 <= i < n - 1 ensures InsertedAt(rows, drafts, n, i) {
        assert InsertedAt(rows, drafts, n - 1, i) && !Clash(drafts[i], drafts[n - 1]);
      }
    }
  }

  ghost predicate InsertedAt(rows: map<Id, Stored>, drafts: seq<Draft>, n: nat, i: nat)
    requires i < n <= |drafts|
  {
    var all := Inserted(rows, drafts, n);
    drafts[i].id in all && all[drafts[i].id] == Complete(drafts[i])
  }

  /** And nothing else. */
  lemma {:induction false} InsertedOnly(rows: map<Id, Stored>, drafts: seq<Draft>, n: nat, id: Id)
    requires n <= |drafts| && id in Inserted(rows, drafts, n) && id !in rows
    ensures exists i :: 0 <= i < n && drafts[i].id == id
  {
    if drafts[n - 1].id != id {
      InsertedOnly(rows, drafts, n - 1, id);
    }
  }

  class Store {
    var rows: map<Id, Stored>

    constructor ()
      ensures rows == map[] && UniqueKeys(rows)
    {
      rows := map[];
    }

    method Create(d: Draft, broken: bool) returns (r: Outcome)
      requires UniqueKeys(rows)
      modifies this
      ensures UniqueKeys(rows)
      ensures r == if broken then Broken(0) else if Violates(old(rows), d) then Conflict(0) else Done
      ensures r.Conflict? <==>
                !broken && (d.id in old(rows) || (d.key.Some? && exists id :: id in old(rows) && old(rows)[id].key == d.key))
      ensures r == Done ==> rows == old(rows)[d.id := Complete(d)]
      ensures r == Done ==>
                && rows[d.id].key == d.key
                && (if d.status == "" then rows[d.id].status == "pending" else rows[d.id].status == d.status)
                && (if d.priority == "" then rows[d.id].priority == "normal" else rows[d.id].priority == d.priority)
                && (if d.maxRetries == 0 then rows[d.id].maxRetries == 3 else rows[d.id].maxRetries == d.maxRetries)
      ensures r != Done ==> rows == old(rows)
    {
      if broken {
        return Broken(0);
      }
      if Violates(rows, d) {
        return Conflict(0);
      }
      rows := rows[d.id := Complete(d)];
      return Done;
    }

    /**
      The transaction: rows are added one by one and rolled back on the first error. `broken` is the index at
      which the database fails for another reason (the batch length stands for the commit). `written` are the
      elements of the caller's list that were overwritten with what the database returned.
    */
    method CreateBatch(drafts: seq<Draft>, broken: Option<nat>) returns (r: Outcome, written: seq<Stored>)
      requires UniqueKeys(rows)
      modifies this
      ensures UniqueKeys(rows)
      ensures r == Done ==> rows == Inserted(old(rows), drafts, |drafts|)
      ensures r != Done ==> rows == old(rows)
      ensures r == Done ==>
                && (forall i :: 0 <= i < |drafts| ==> drafts[i].id in rows && rows[drafts[i].id] == Complete(drafts[i]))
                && (forall id :: id in rows <==> id in old(rows) || exists i :: 0 <= i < |drafts| && drafts[i].id == id)
                && (forall id :: id in old(rows) ==> rows[id] == old(rows)[id])
      ensures r == Done <==>
                (broken.Some? ==> broken.value > |drafts|)
                && forall i :: 0 <= i < |drafts| ==> !Collides(old(rows), drafts, i)
      ensures r.Conflict? ==>
                r.index < |drafts| && Collides(old(rows), drafts, r.index) && (broken.Some? ==> broken.value > r.index)
                && forall i :: 0 <= i < r.index ==> !Collides(old(rows), drafts, i)
      ensures r.Broken? ==>
                broken == Some(r.index) && r.index <= |drafts|
                && forall i :: 0 <= i < r.index ==> !Collides(old(rows), drafts, i)
      ensures |written| == if r == Done then |drafts| else r.index
      ensures forall i :: 0 <= i < |written| ==> written[i] == Complete(drafts[i])
    {
      var tx;
      r, tx, written := Fill(drafts, broken);
      if r == Done {
        InsertedUnique(rows, drafts, |drafts|);
        InsertedRows(rows, drafts, |drafts|);
        forall i | 0 <= i < |drafts| ensures drafts[i].id in tx && tx[drafts[i].id] == Complete(drafts[i]) {
          assert InsertedAt(rows, drafts, |drafts|, i);
        }
        forall id | id in tx && id !in rows ensures exists i :: 0 <= i < |drafts| && drafts[i].id == id {
          InsertedOnly(rows, drafts, |drafts|, id);
        }
        rows := tx;
      }
    }

    /** The inserts and the commit, on the transaction's own view of the table. */
    method Fill(drafts: seq<Draft>, broken: Option<nat>)
      returns (r: Outcome, tx: map<Id, Stored>, written: seq<Stored>)
      ensures |written| == if r == Done then |drafts| else r.index
      ensures |written| <= |drafts| && tx == Inserted(rows, drafts, |written|)
      ensures forall i :: 0 <= i < |written| ==> written[i] == Complete(drafts[i]) && !Collides(rows, drafts, i)
      ensures r == Done ==> broken.Some? ==> broken.value > |drafts|
      ensures r.Conflict? ==> r.index < |drafts| && Collides(rows, drafts, r.index) && (broken.Some? ==> broken.value > r.index)
      ensures r.Broken? ==> broken == Some(r.index)
    {
      tx, written := rows, [];
      var i := 0;
      while i < |drafts|
        invariant 0 <= i <= |drafts| && |written| == i && tx == Inserted(rows, drafts, i)
        invariant broken.Some? ==> broken.value >= i
        invariant forall j :: 0 <= j < i ==> written[j] == Complete(drafts[j]) && !Collides(rows, drafts, j)
      {
        if broken == Some(i) {
          return Broken(i), tx, written;
        }
        ViolatesIffCollides(rows, drafts, i, drafts[i]);
        if Violates(tx, drafts[i]) {
          assert Collides(rows, drafts, i);
          return Conflict(i), tx, written;
        }
        tx := tx[drafts[i].id := Complete(drafts[i])];
        written := written + [Complete(drafts[i])];
        i := i + 1;
      }
      r := if broken == Some(|drafts|) then Broken(|drafts|) else Done;
    }
  }

  /** With fresh ids, a batch collides nowhere exactly when its keys are pairwise distinct and new to the table. */
  lemma CleanIffKeysNew(rows: map<Id, Stored>, drafts: seq<Draft>)
    requires forall i :: 0 <= i < |drafts| ==> drafts[i].id !in rows
    requires forall i, j :: 0 <= i < j < |drafts| ==> drafts[i].id != drafts[j].id
    ensures (forall i :: 0 <= i < |drafts| ==> !Collides(rows, drafts, i)) <==>
            && (forall i, id :: 0 <= i < |drafts| && drafts[i].key.Some? && id in rows ==> rows[id].key != drafts[i].key)
            && (forall i, j :: 0 <= i < j < |drafts| && drafts[j].key.Some? ==> drafts[i].key != drafts[j].key)
  {
    if forall i :: 0 <= i < |drafts| ==> !Collides(rows, drafts, i) {
      forall i, id | 0 <= i < |drafts| && drafts[i].key.Some? && id in rows ensures rows[id].key != drafts[i].key {
        assert !Collides(rows, drafts, i);
      }
      forall i, j | 0 <= i < j < |drafts| && drafts[j].key.Some? ensures drafts[i].key != drafts[j].key {
        assert !Collides(rows, drafts, j);
        assert !Clash(drafts[i], drafts[j]);
      }
    }
  }
}
