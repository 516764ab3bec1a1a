/**
 * The deadline table's query and mutations: list the caller's deadlines by
 * due date, toggle completion, create a custom deadline, delete one. Every
 * operation first resolves the caller; mutations also check ownership.
 */
module Deadlines {
  import opened Wrappers
  import opened Schema
  import opened Store

  // ---------------------------------------------------------------------
  // Due-date order. Due dates are ISO `YYYY-MM-DD` strings; for those,
  // lexicographic order is chronological order.
  // ---------------------------------------------------------------------

  /** `a` is lexicographically at most `b`. */
  predicate LexLe(a: string, b: string)
  {
    a == [] || (b != [] && (a[0] < b[0] || (a[0] == b[0] && LexLe(a[1..], b[1..]))))
  }

  lemma {:induction false} LexLeReflexive(a: string)
    ensures LexLe(a, a)
  {
    if a != [] { LexLeReflexive(a[1..]); }
  }

  lemma {:induction false} LexLeTotal(a: string, b: string)
    ensures LexLe(a, b) || LexLe(b, a)
  {
    if a != [] && b != [] && a[0] == b[0] { LexLeTotal(a[1..], b[1..]); }
  }

  lemma {:induction false} LexLeAntisymmetric(a: string, b: string)
    requires LexLe(a, b) && LexLe(b, a)
    ensures a == b
  {
    if a != [] {
      LexLeAntisymmetric(a[1..], b[1..]);
      assert a == [a[0]] + a[1..] && b == [b[0]] + b[1..];
    }
  }

  lemma {:induction false} LexLeTransitive(a: string, b: string, c: string)
    requires LexLe(a, b) && LexLe(b, c)
    ensures LexLe(a, c)
  {
    if a != [] && a[0] == b[0] && b[0] == c[0] { LexLeTransitive(a[1..], b[1..], c[1..]); }
  }

  function DueDate(row: Stored<Deadline>): string
  {
    row.value.dueDate
  }

  /**
   * `a` may be listed before `b`: an earlier due date, or the same due
   * date and a newer record.
   */
  ghost predicate ListedBefore(a: Stored<Deadline>, b: Stored<Deadline>)
  {
    && LexLe(DueDate(a), DueDate(b))
    && (DueDate(a) == DueDate(b) ==> a.id > b.id)
  }

  /** The listing order: ascending by due date, newest first among equal due dates. */
  ghost predicate InListingOrder(rows: seq<Stored<Deadline>>)
  {
    forall i, j :: 0 <= i < j < |rows| ==> ListedBefore(rows[i], rows[j])
  }

  // ---------------------------------------------------------------------
  // The stable sort by due date that the listing applies to the index scan.
  // ---------------------------------------------------------------------

  /** Puts `x` before the first row whose due date is not earlier than its own. */
  function InsertByDueDate(x: Stored<Deadline>, sorted: seq<Stored<Deadline>>): seq<Stored<Deadline>>
  {
    if sorted == [] then [x]
    else if LexLe(DueDate(x), DueDate(sorted[0])) then [x] + sorted
    else [sorted[0]] + InsertByDueDate(x, sorted[1..])
  }

  function SortByDueDate(rows: seq<Stored<Deadline>>): seq<Stored<Deadline>>
  {
    if rows == [] then [] else InsertByDueDate(rows[0], SortByDueDate(rows[1..]))
  }

  lemma {:induction false} InsertByDueDatePermutes(x: Stored<Deadline>, sorted: seq<Stored<Deadline>>)
    ensures multiset(InsertByDueDate(x, sorted)) == multiset(sorted) + multiset{x}
  {
    if sorted != [] && !LexLe(DueDate(x), DueDate(sorted[0])) {
      InsertByDueDatePermutes(x, sorted[1..]);
      assert sorted == [sorted[0]] + sorted[1..];
    }
  }

  lemma {:induction false} PrependInListingOrder(head: Stored<Deadline>, rows: seq<Stored<Deadline>>)
    requires InListingOrder(rows)
    requires forall k :: 0 <= k < |rows| ==> ListedBefore(head, rows[k])
    ensures InListingOrder([head] + rows)
  {
    var r := [head] + rows;
    forall i, j | 0 <= i < j < |r| ensures ListedBefore(r[i], r[j]) {
      assert r[j] == rows[j - 1];
      if i > 0 { assert r[i] == rows[i - 1]; }
    }
  }

  lemma {:induction false} InsertByDueDateOrdered(x: Stored<Deadline>, sorted: seq<Stored<Deadline>>)
    requires InListingOrder(sorted)
    requires forall k :: 0 <= k < |sorted| ==> x.id > sorted[k].id
    ensures InListingOrder(InsertByDueDate(x, sorted))
  {
    if sorted == [] {
    } else if LexLe(DueDate(x), DueDate(sorted[0])) {
      forall k | 0 <= k < |sorted| ensures ListedBefore(x, sorted[k]) {
        if k > 0 {
          assert ListedBefore(sorted[0], sorted[k]);
          LexLeTransitive(DueDate(x), DueDate(sorted[0]), DueDate(sorted[k]));
        }
      }
      PrependInListingOrder(x, sorted);
    } else {
      var head, tail := sorted[0], sorted[1..];
      assert InListingOrder(tail) by {
        forall i, j | 0 <= i < j < |tail| ensures ListedBefore(tail[i], tail[j]) {
          assert tail[i] == sorted[i + 1] && tail[j] == sorted[j + 1];
        }
      }
      InsertByDueDateOrdered(x, tail);
      InsertByDueDatePermutes(x, tail);
      var rest := InsertByDueDate(x, tail);
      LexLeTotal(DueDate(x), DueDate(head));
      LexLeReflexive(DueDate(x));
      forall k | 0 <= k < |rest| ensures ListedBefore(head, rest[k]) {
        var z := rest[k];
        assert z in multiset(rest);
        if z != x {
          assert z in multiset(tail);
          var m :| 0 <= m < |tail| && tail[m] == z;
          assert sorted[m + 1] == z;
        }
      }
      PrependInListingOrder(head, rest);
    }
  }

  /**
   * Sorting an id-descending (newest first) scan by due date is a
   * permutation of it in listing order: the sort is stable, so ties keep
   * the scan's newest-first order.
   */
  lemma {:induction false} SortByDueDateOrdered(rows: seq<Stored<Deadline>>)
    requires IdsDescending(rows)
    ensures multiset(SortByDueDate(rows)) == multiset(rows)
    ensures InListingOrder(SortByDueDate(rows))
  {
    if rows != [] {
      var tail := rows[1..];
      assert IdsDescending(tail) by {
        forall i, j | 0 <= i < j < |tail| ensures tail[i].id > tail[j].id {
          assert tail[i] == rows[i + 1] && tail[j] == rows[j + 1];
        }
      }
      SortByDueDateOrdered(tail);
      var sortedTail := SortByDueDate(tail);
      forall k | 0 <= k < |sortedTail| ensures rows[0].id > sortedTail[k].id {
        assert sortedTail[k] in multiset(tail);
        var m :| 0 <= m < |tail| && tail[m] == sortedTail[k];
        assert rows[m + 1] == tail[m];
      }
      InsertByDueDateOrdered(rows[0], sortedTail);
      InsertByDueDatePermutes(rows[0], sortedTail);
      assert rows == [rows[0]] + tail;
    }
  }

  // ---------------------------------------------------------------------
  // getUserDeadlines
  // ---------------------------------------------------------------------

  function OwnerOfDeadline(d: Deadline): UserId
  {
    d.userId
  }

  /**
   * The caller's deadlines: the `by_user` scan newest first, then sorted
   * by due date. No caller, no deadlines.
   */
  function GetUserDeadlines(deadlines: map<DeadlineId, Deadline>, bound: nat, caller: Option<UserId>): (rows: seq<Stored<Deadline>>)
  {
    match caller
    case None => []
    case Some(user) => SortByDueDate(ScanByUser(deadlines, OwnerOfDeadline, user, bound))
  }

  /**
   * The listing holds exactly the caller's deadlines, each once and as
   * stored, ascending by due date with the newest first among equal dates;
   * it is empty when nobody is signed in.
   */
  lemma GetUserDeadlinesSpec(deadlines: map<DeadlineId, Deadline>, bound: nat, caller: Option<UserId>)
    requires IdsBelow(deadlines, bound)
    ensures var rows := GetUserDeadlines(deadlines, bound, caller);
      && (caller.None? ==> rows == [])
      && (caller.Some? ==> IdsOf(rows) == set id | id in deadlines && deadlines[id].userId == caller.value)
      && (forall k :: 0 <= k < |rows| ==>
            rows[k].id in deadlines && rows[k].value == deadlines[rows[k].id] && Some(rows[k].value.userId) == caller)
      && InListingOrder(rows)
      && (forall i, j :: 0 <= i < j < |rows| ==> rows[i].id != rows[j].id)
  {
    if caller.Some? {
      var scan := ScanByUser(deadlines, OwnerOfDeadline, caller.value, bound);
      SortByDueDateOrdered(scan);
      var rows := SortByDueDate(scan);
      PermutationKeepsRows(scan, rows);
      forall k | 0 <= k < |rows|
        ensures rows[k].id in deadlines && rows[k].value == deadlines[rows[k].id] && rows[k].value.userId == caller.value
      {
        var m :| 0 <= m < |scan| && scan[m] == rows[k];
      }
    }
  }

  // ---------------------------------------------------------------------
  // Mutations
  // ---------------------------------------------------------------------

  /**
   * The guard shared by toggle and delete: the caller must be signed in
   * and must own an existing deadline `id`; a missing deadline and another
   * user's deadline give the same error.
   */
  function OwnedDeadline(deadlines: map<DeadlineId, Deadline>, caller: Option<UserId>, id: DeadlineId): (r: Result<Deadline, Error>)
    ensures caller.None? <==> r == Err(NotAuthenticated)
    ensures r == Err(DeadlineNotFound) <==> caller.Some? && (id !in deadlines || deadlines[id].userId != caller.value)
    ensures r.Ok? <==> caller.Some? && id in deadlines && deadlines[id].userId == caller.value
    ensures r.Ok? ==> id in deadlines && r.value == deadlines[id] && Some(r.value.userId) == caller
  {
    if caller.None? then Err(NotAuthenticated)
    else if id !in deadlines || deadlines[id].userId != caller.value then Err(DeadlineNotFound)
    else Ok(deadlines[id])
  }

  /** The deadline with its completion flag flipped and nothing else changed. */
  function Toggled(d: Deadline): (t: Deadline)
    ensures t.completed != d.completed
    ensures t.(completed := d.completed) == d
  {
    d.(completed := !d.completed)
  }

  lemma ToggledTwice(d: Deadline)
    ensures Toggled(Toggled(d)) == d
  {
  }

  method ToggleDeadlineCompletion(db: Database, caller: Option<UserId>, deadlineId: DeadlineId) returns (r: Result<(), Error>)
    requires db.Valid()
    modifies db
    ensures db.Valid()
    ensures r.Err? <==> OwnedDeadline(old(db.deadlines), caller, deadlineId).Err?
    ensures r.Err? ==> r.error == OwnedDeadline(old(db.deadlines), caller, deadlineId).error && unchanged(db)
    ensures r.Ok? ==> db.deadlines == old(db.deadlines)[deadlineId := Toggled(old(db.deadlines)[deadlineId])]
    ensures db.documents == old(db.documents) && db.nextId == old(db.nextId) && db.scheduled == old(db.scheduled)
  {
    var guard := OwnedDeadline(db.deadlines, caller, deadlineId);
    if guard.Err? {
      return Err(guard.error);
    }
    db.PatchDeadline(deadlineId, Toggled(guard.value));
    r := Ok(());
  }

  /** Two toggles by the same caller leave the store as it was. */
  method ToggleTwiceRestores(db: Database, caller: Option<UserId>, deadlineId: DeadlineId)
    requires db.Valid()
    modifies db
    ensures db.Valid()
    ensures db.deadlines == old(db.deadlines) && db.documents == old(db.documents)
    ensures db.nextId == old(db.nextId) && db.scheduled == old(db.scheduled)
  {
    var first := ToggleDeadlineCompletion(db, caller, deadlineId);
    var second := ToggleDeadlineCompletion(db, caller, deadlineId);
    if first.Ok? {
      ToggledTwice(old(db.deadlines)[deadlineId]);
      assert db.deadlines == old(db.deadlines)[deadlineId := Toggled(Toggled(old(db.deadlines)[deadlineId]))];
    }
  }

  /** The record a custom deadline is created with. */
  function CustomDeadline(user: UserId, title: string, description: string, dueDate: string, importance: Importance): (d: Deadline)
    ensures d.userId == user && d.documentId.None?
    ensures d.title == title && d.description == description && d.dueDate == dueDate && d.importance == importance
    ensures !d.completed && !d.reminderSent
  {
    Deadline(user, None, title, description, dueDate, importance, false, false)
  }

  method CreateDeadline(db: Database, caller: Option<UserId>, title: string, description: string, dueDate: string, importance: Importance)
    returns (r: Result<DeadlineId, Error>)
    requires db.Valid()
    modifies db
    ensures db.Valid()
    ensures caller.None? <==> r.Err?
    ensures r.Err? ==> r.error == NotAuthenticated && unchanged(db)
    ensures r.Ok? ==>
      && r.value == old(db.nextId) && r.value !in old(db.deadlines)
      && db.deadlines == old(db.deadlines)[r.value := CustomDeadline(caller.value, title, description, dueDate, importance)]
      && |db.deadlines| == |old(db.deadlines)| + 1
      && db.nextId == old(db.nextId) + 1
    ensures db.documents == old(db.documents) && db.scheduled == old(db.scheduled)
  {
    if caller.None? {
      return Err(NotAuthenticated);
    }
    var id := db.InsertDeadline(CustomDeadline(caller.value, title, description, dueDate, importance));
    r := Ok(id);
  }

  method DeleteDeadline(db: Database, caller: Option<UserId>, deadlineId: DeadlineId) returns (r: Result<(), Error>)
    requires db.Valid()
    modifies db
    ensures db.Valid()
    ensures r.Err? <==> OwnedDeadline(old(db.deadlines), caller, deadlineId).Err?
    ensures r.Err? ==> r.error == OwnedDeadline(old(db.deadlines), caller, deadlineId).error && unchanged(db)
    ensures r.Ok? ==> db.deadlines == old(db.deadlines) - {deadlineId} && |db.deadlines| == |old(db.deadlines)| - 1
    ensures db.documents == old(db.documents) && db.nextId == old(db.nextId) && db.scheduled == old(db.scheduled)
  {
    var guard := OwnedDeadline(db.deadlines, caller, deadlineId);
    if guard.Err? {
      return Err(guard.error);
    }
    db.DeleteDeadline(deadlineId);
    r := Ok(());
  }
}
