/**
 * Soft deletion (backend/utils/models.py): deleting marks a row with
 * `is_deleted` and a timestamp instead of removing it; the default manager
 * hides marked rows, `all_objects` and `all_with_deleted` show every row and
 * `deleted_only` shows only the marked ones; restoring clears both fields;
 * hard deletion removes rows. The table is one store of soft-deletable rows
 * keyed by primary key; a clock reading is passed in as `now`.
 */
module SoftDelete {
  import opened Common

  datatype Record = Record(id: nat, isDeleted: bool, deletedAt: Option<int>)

  predicate UniqueIds(rows: seq<Record>)
  {
    forall i, j :: 0 <= i < j < |rows| ==> rows[i].id != rows[j].id
  }

  /** The keys listed in `s`. */
  function KeySet(s: seq<nat>): (r: set<nat>)
    ensures forall x :: x in r <==> x in s
  {
    set x | x in s
  }

  /** The rows whose key is in `ids` marked deleted at `now`; every other row as it was. */
  function MarkDeleted(rows: seq<Record>, ids: set<nat>, now: int): (r: seq<Record>)
    ensures |r| == |rows|
    ensures forall k :: 0 <= k < |rows| ==>
              r[k] == if rows[k].id in ids then Record(rows[k].id, true, Some(now)) else rows[k]
  {
    if |rows| == 0 then []
    else [if rows[0].id in ids then Record(rows[0].id, true, Some(now)) else rows[0]] + MarkDeleted(rows[1..], ids, now)
  }

  /** The rows whose key is in `ids` with both deletion fields cleared; every other row as it was. */
  function MarkRestored(rows: seq<Record>, ids: set<nat>): (r: seq<Record>)
    ensures |r| == |rows|
    ensures forall k :: 0 <= k < |rows| ==>
              r[k] == if rows[k].id in ids then Record(rows[k].id, false, None) else rows[k]
  {
    if |rows| == 0 then []
    else [if rows[0].id in ids then Record(rows[0].id, false, None) else rows[0]] + MarkRestored(rows[1..], ids)
  }

  /** The rows whose key is not in `ids`, in order. */
  function Removed(rows: seq<Record>, ids: set<nat>): (r: seq<Record>)
    ensures forall x :: x in r <==> x in rows && x.id !in ids
  {
    Filter(rows, (x: Record) => x.id !in ids)
  }

  /** The default manager: rows not marked deleted. */
  function Live(rows: seq<Record>): (r: seq<Record>)
    ensures forall x :: x in r <==> x in rows && !x.isDeleted
  {
    Filter(rows, (x: Record) => !x.isDeleted)
  }

  /** `deleted_only`: rows marked deleted. */
  function DeletedOnly(rows: seq<Record>): (r: seq<Record>)
    ensures forall x :: x in r <==> x in rows && x.isDeleted
  {
    Filter(rows, (x: Record) => x.isDeleted)
  }

  class Table {
    var rows: seq<Record>

    constructor (initial: seq<Record>)
      ensures rows == initial
    {
      rows := initial;
    }

    /** `objects`: what every ordinary query sees. */
    function Objects(): (r: seq<Record>)
      reads this
      ensures forall x :: x in r <==> x in rows && !x.isDeleted
    {
      Live(rows)
    }

    /** `all_objects` (and `objects.all_with_deleted()`): every row. */
    function AllObjects(): (r: seq<Record>)
      reads this
      ensures r == rows
    {
      rows
    }

    /**
     * Instance `delete`: mark this row, save it, then soft-delete each object
     * the related-objects hook returns, one after another (the hook returns
     * none unless a model overrides it).
     */
    method Delete(id: nat, related: seq<nat>, now: int)
      modifies this
      ensures rows == MarkDeleted(old(rows), {id} + KeySet(related), now)
    {
      rows := MarkDeleted(rows, {id}, now);
      var i := 0;
      while i < |related|
        invariant 0 <= i <= |related|
        invariant rows == MarkDeleted(old(rows), {id} + KeySet(related[..i]), now)
      {
        ghost var done := {id} + KeySet(related[..i]);
        assert related[..i + 1] == related[..i] + [related[i]];
        assert {id} + KeySet(related[..i + 1]) == done + {related[i]};
        MarkDeletedTwice(old(rows), done, {related[i]}, now);
        rows := MarkDeleted(rows, {related[i]}, now);
        i := i + 1;
      }
      assert related[..|related|] == related;
    }

    /** Instance `restore`: clear both fields and save. */
    method Restore(id: nat)
      modifies this
      ensures rows == MarkRestored(old(rows), {id})
    {
      rows := MarkRestored(rows, {id});
    }

    /** Instance `hard_delete`: the row is really removed. */
    method HardDelete(id: nat)
      modifies this
      ensures rows == Removed(old(rows), {id})
    {
      rows := Removed(rows, {id});
    }

    /** Queryset `delete`: one update marking every selected row; returns the number of rows matched. */
    method QuerySetDelete(ids: set<nat>, now: int) returns (n: nat)
      modifies this
      ensures rows == MarkDeleted(old(rows), ids, now)
      ensures n == |Filter(old(rows), (x: Record) => x.id in ids)|
    {
      n := |Filter(rows, (x: Record) => x.id in ids)|;
      rows := MarkDeleted(rows, ids, now);
    }

    /** Queryset `restore`: one update clearing both fields on every selected row. */
    method QuerySetRestore(ids: set<nat>) returns (n: nat)
      modifies this
      ensures rows == MarkRestored(old(rows), ids)
      ensures n == |Filter(old(rows), (x: Record) => x.id in ids)|
    {
      n := |Filter(rows, (x: Record) => x.id in ids)|;
      rows := MarkRestored(rows, ids);
    }

    /** Queryset `hard_delete`: the selected rows are removed. */
    method QuerySetHardDelete(ids: set<nat>)
      modifies this
      ensures rows == Removed(old(rows), ids)
    {
      rows := Removed(rows, ids);
    }
  }

  // ---------------------------------------------------------------------------
  // Properties of the specification functions

  /** Marking in two steps at the same instant is marking the union at once. */
  lemma MarkDeletedTwice(rows: seq<Record>, a: set<nat>, b: set<nat>, now: int)
    ensures MarkDeleted(MarkDeleted(rows, a, now), b, now) == MarkDeleted(rows, a + b, now)
  {
    var l := MarkDeleted(MarkDeleted(rows, a, now), b, now);
    var r := MarkDeleted(rows, a + b, now);
    assert |l| == |r|;
    forall k | 0 <= k < |rows| ensures l[k] == r[k] {
    }
  }

  /** A soft delete keeps every row and never changes a key or the order. */
  lemma SoftDeleteKeepsRows(rows: seq<Record>, ids: set<nat>, now: int)
    ensures |MarkDeleted(rows, ids, now)| == |rows|
    ensures forall k :: 0 <= k < |rows| ==> MarkDeleted(rows, ids, now)[k].id == rows[k].id
    ensures UniqueIds(rows) ==> UniqueIds(MarkDeleted(rows, ids, now))
  {
  }

  /**
   * After a delete, a selected row is hidden from the default manager but
   * still present among all rows, marked, with the deletion time.
   */
  lemma DeletedIsHiddenButKept(rows: seq<Record>, ids: set<nat>, now: int, k: nat)
    requires UniqueIds(rows)
    requires k < |rows| && rows[k].id in ids
    ensures Record(rows[k].id, true, Some(now)) in DeletedOnly(MarkDeleted(rows, ids, now))
    ensures forall x :: x in Live(MarkDeleted(rows, ids, now)) ==> x.id != rows[k].id
  {
    var after := MarkDeleted(rows, ids, now);
    assert after[k] == Record(rows[k].id, true, Some(now));
    forall x | x in Live(after) ensures x.id != rows[k].id {
      var j :| 0 <= j < |after| && after[j] == x;
      if j < k { assert rows[j].id != rows[k].id; }
      else if j > k { assert rows[k].id != rows[j].id; }
    }
  }

  /** Restoring what was deleted makes the rows live again, exactly as a plain restore would. */
  lemma RestoreUndoesDelete(rows: seq<Record>, ids: set<nat>, now: int)
    ensures MarkRestored(MarkDeleted(rows, ids, now), ids) == MarkRestored(rows, ids)
    ensures forall k :: 0 <= k < |rows| && rows[k].id in ids ==>
              MarkRestored(MarkDeleted(rows, ids, now), ids)[k] in Live(MarkRestored(MarkDeleted(rows, ids, now), ids))
  {
    var l := MarkRestored(MarkDeleted(rows, ids, now), ids);
    var r := MarkRestored(rows, ids);
    forall k | 0 <= k < |rows| ensures l[k] == r[k] {
    }
  }

  /** Live rows and deleted rows split the table: together they account for every row. */
  lemma {:induction false} LiveAndDeletedPartition(rows: seq<Record>)
    ensures |Live(rows)| + |DeletedOnly(rows)| == |rows|
  {
    if |rows| > 0 {
      LiveAndDeletedPartition(rows[1..]);
    }
  }

  /** Deleting never adds a live row: the default manager can only shrink. */
  lemma {:induction false} DeleteShrinksLive(rows: seq<Record>, ids: set<nat>, now: int)
    ensures |Live(MarkDeleted(rows, ids, now))| <= |Live(rows)|
  {
    if |rows| > 0 {
      DeleteShrinksLive(rows[1..], ids, now);
      assert MarkDeleted(rows, ids, now)[1..] == MarkDeleted(rows[1..], ids, now);
    }
  }
}
