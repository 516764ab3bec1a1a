/**
 * The database the handlers run against: the `documents` and `deadlines`
 * tables, the id counter that names new records, and the scheduler's queue
 * of pending analysis jobs. Also the `by_user` index scan both tables use
 * and the errors handlers throw.
 */
module Store {
  import opened Wrappers
  import opened Schema

  datatype Error =
    | NotAuthenticated    // "Not authenticated"
    | DeadlineNotFound    // "Deadline not found"
    | DocumentNotFound    // "Document not found"
    | NonexistentRecord   // a patch of an id that is not in its table

  /** Every id in the table was issued before the counter reached `bound`. */
  ghost predicate IdsBelow<T>(table: map<nat, T>, bound: nat)
  {
    forall id :: id in table ==> id < bound
  }

  function IdsOf<T>(rows: seq<Stored<T>>): set<nat>
  {
    set k | 0 <= k < |rows| :: rows[k].id
  }

  /** Ids strictly descending: newest first, the order of the index scan. */
  predicate IdsDescending<T>(rows: seq<Stored<T>>)
  {
    forall i, j :: 0 <= i < j < |rows| ==> rows[i].id > rows[j].id
  }

  /** Putting a row in front adds its id. */
  lemma IdsOfCons<T>(row: Stored<T>, rest: seq<Stored<T>>)
    ensures IdsOf([row] + rest) == {row.id} + IdsOf(rest)
  {
    var rows := [row] + rest;
    forall x | x in IdsOf(rows) ensures x in {row.id} + IdsOf(rest) {
      var k :| 0 <= k < |rows| && rows[k].id == x;
      if k > 0 { assert rest[k - 1].id == x; }
    }
    forall x | x in IdsOf(rest) ensures x in IdsOf(rows) {
      var k :| 0 <= k < |rest| && rest[k].id == x;
      assert rows[k + 1].id == x;
    }
    assert rows[0].id == row.id;
  }

  /** A rearrangement of rows has the same rows and the same ids. */
  lemma PermutationKeepsRows<T>(a: seq<Stored<T>>, b: seq<Stored<T>>)
    requires multiset(a) == multiset(b)
    ensures forall k :: 0 <= k < |b| ==> b[k] in a
    ensures IdsOf(a) == IdsOf(b)
  {
    forall k | 0 <= k < |b| ensures b[k] in a {
      assert b[k] in multiset(a);
    }
    forall x | x in IdsOf(b) ensures x in IdsOf(a) {
      var k :| 0 <= k < |b| && b[k].id == x;
      assert b[k] in multiset(a);
      var m :| 0 <= m < |a| && a[m] == b[k];
    }
    forall x | x in IdsOf(a) ensures x in IdsOf(b) {
      var k :| 0 <= k < |a| && a[k].id == x;
      assert a[k] in multiset(b);
      var m :| 0 <= m < |b| && b[m] == a[k];
    }
  }

  /**
   * The `by_user` index read newest first: the records below `bound` whose
   * owner is `user`, in descending id (creation) order.
   */
  function ScanByUser<T>(table: map<nat, T>, userOf: T -> UserId, user: UserId, bound: nat): (rows: seq<Stored<T>>)
    ensures forall k :: 0 <= k < |rows| ==>
      && rows[k].id < bound
      && rows[k].id in table
      && rows[k].value == table[rows[k].id]
      && userOf(rows[k].value) == user
    ensures IdsDescending(rows)
    ensures IdsOf(rows) == set id | id in table && id < bound && userOf(table[id]) == user
    decreases bound
  {
    if bound == 0 then []
    else
      var id := bound - 1;
      var rest := ScanByUser(table, userOf, user, id);
      if id in table && userOf(table[id]) == user then
        IdsOfCons(Stored(id, table[id]), rest);
        [Stored(id, table[id])] + rest
      else
        rest
  }

  /**
   * The table after inserting `records` one by one with the ids
   * `start`, `start + 1`, ... that the counter issues.
   */
  function InsertAll<T>(table: map<nat, T>, start: nat, records: seq<T>): (m: map<nat, T>)
    ensures forall id :: id in m <==> id in table || start <= id < start + |records|
    ensures forall i :: 0 <= i < |records| ==> m[start + i] == records[i]
    ensures forall id :: id in table && !(start <= id < start + |records|) ==> m[id] == table[id]
  {
    if records == [] then table
    else InsertAll(table, start, records[..|records| - 1])[start + |records| - 1 := records[|records| - 1]]
  }

  /** Inserting `n` records into a table whose ids are all below `start` adds exactly `n` entries. */
  lemma {:induction false} InsertAllSize<T>(table: map<nat, T>, start: nat, records: seq<T>)
    requires IdsBelow(table, start)
    ensures |InsertAll(table, start, records)| == |table| + |records|
  {
    if records != [] {
      var prefix := records[..|records| - 1];
      InsertAllSize(table, start, prefix);
      var before := InsertAll(table, start, prefix);
      assert start + |records| - 1 !in before;
    }
  }

  class Database {
    var documents: map<DocumentId, Document>
    var deadlines: map<DeadlineId, Deadline>
    /** The next id to issue; every id already issued is smaller. */
    var nextId: nat
    /** Analysis jobs scheduled and not yet run, oldest first. */
    var scheduled: seq<DocumentId>

    ghost predicate Valid()
      reads this
    {
      && IdsBelow(documents, nextId)
      && IdsBelow(deadlines, nextId)
      && forall id :: id in documents ==> WellFormed(documents[id])
    }

    constructor ()
      ensures Valid()
      ensures documents == map[] && deadlines == map[] && nextId == 0 && scheduled == []
    {
      documents, deadlines, nextId, scheduled := map[], map[], 0, [];
    }

    method InsertDocument(d: Document) returns (id: DocumentId)
      requires Valid() && WellFormed(d)
      modifies this
      ensures Valid()
      ensures id == old(nextId) && id !in old(documents) && nextId == old(nextId) + 1
      ensures documents == old(documents)[id := d]
      ensures deadlines == old(deadlines) && scheduled == old(scheduled)
    {
      id := nextId;
      documents := documents[id := d];
      nextId := nextId + 1;
    }

    method InsertDeadline(d: Deadline) returns (id: DeadlineId)
      requires Valid()
      modifies this
      ensures Valid()
      ensures id == old(nextId) && id !in old(deadlines) && nextId == old(nextId) + 1
      ensures deadlines == old(deadlines)[id := d]
      ensures documents == old(documents) && scheduled == old(scheduled)
    {
      id := nextId;
      deadlines := deadlines[id := d];
      nextId := nextId + 1;
    }

    /** Replaces a stored document by its patched version. */
    method PatchDocument(id: DocumentId, d: Document)
      requires Valid() && id in documents && WellFormed(d)
      modifies this
      ensures Valid()
      ensures documents == old(documents)[id := d]
      ensures deadlines == old(deadlines) && nextId == old(nextId) && scheduled == old(scheduled)
    {
      documents := documents[id := d];
    }

    /** Replaces a stored deadline by its patched version. */
    method PatchDeadline(id: DeadlineId, d: Deadline)
      requires Valid() && id in deadlines
      modifies this
      ensures Valid()
      ensures deadlines == old(deadlines)[id := d]
      ensures documents == old(documents) && nextId == old(nextId) && scheduled == old(scheduled)
    {
      deadlines := deadlines[id := d];
    }

    method DeleteDeadline(id: DeadlineId)
      requires Valid() && id in deadlines
      modifies this
      ensures Valid()
      ensures deadlines == old(deadlines) - {id}
      ensures documents == old(documents) && nextId == old(nextId) && scheduled == old(scheduled)
    {
      deadlines := deadlines - {id};
    }

    /** Schedules one analysis job for `id` behind those already pending. */
    method RunAfter(id: DocumentId)
      requires Valid()
      modifies this
      ensures Valid()
      ensures scheduled == old(scheduled) + [id]
      ensures documents == old(documents) && deadlines == old(deadlines) && nextId == old(nextId)
    {
      scheduled := scheduled + [id];
    }

    /** Takes the oldest pending job off the queue, if there is one. */
    method TakeScheduled() returns (next: Option<DocumentId>)
      requires Valid()
      modifies this
      ensures Valid()
      ensures old(scheduled) == [] ==> next == None && scheduled == []
      ensures old(scheduled) != [] ==> next == Some(old(scheduled)[0]) && scheduled == old(scheduled)[1..]
      ensures documents == old(documents) && deadlines == old(deadlines) && nextId == old(nextId)
    {
      if scheduled == [] {
        next := None;
      } else {
        next := Some(scheduled[0]);
        scheduled := scheduled[1..];
      }
    }
  }
}
