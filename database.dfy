/** The SQLite database as the server actions see it: one sequence of rows per table, in
    rowid order (the order a table scan returns), the `settings` key/value table as a map,
    the column set of `assets` (which a migration extends), and the AUTOINCREMENT counter
    of every table. Row timestamps are milliseconds since the epoch. */
module Database {
  import opened Wrappers
  import opened Types
  import opened Calendar

  datatype CategoryRow = CategoryRow(
    id: int,
    name: string,
    slug: string,
    icon: Option<string>,
    targetAllocation: real,   // a percentage, 0..100
    sortOrder: int)

  datatype AssetRow = AssetRow(
    id: int,
    categoryId: int,
    ticker: string,
    name: Option<string>,
    quantity: real,
    price: real,
    targetAllocation: real,   // a percentage, 0..100
    notes: Option<string>,
    lastPriceUpdate: Option<int>,
    priceSource: Option<string>,
    assetType: Option<AssetType>)

  datatype SnapshotRow = SnapshotRow(
    id: int,
    date: string,
    totalValue: real,
    totalInvested: real,
    notes: Option<string>)

  datatype SnapshotCategoryRow = SnapshotCategoryRow(
    id: int,
    snapshotId: int,
    categoryId: int,
    value: real,
    allocationPct: real)

  datatype Frequency = Weekly | Monthly

  datatype DcaPlanRow = DcaPlanRow(
    id: int,
    name: string,
    assetId: Option<int>,
    frequency: Frequency,
    amount: real,
    startDate: DateText,
    endDate: DateText,
    notes: Option<string>)

  datatype DcaEntryRow = DcaEntryRow(
    id: int,
    planId: int,
    scheduledDate: CalendarDate,
    amount: real,
    completed: int,
    completedAt: Option<int>,
    notes: Option<string>)

  function CategoryId(r: CategoryRow): int { r.id }
  function AssetId(r: AssetRow): int { r.id }
  function SnapshotId(r: SnapshotRow): int { r.id }
  function SnapshotCategoryId(r: SnapshotCategoryRow): int { r.id }
  function DcaPlanId(r: DcaPlanRow): int { r.id }
  function DcaEntryId(r: DcaEntryRow): int { r.id }

  /** Ids handed out by AUTOINCREMENT: positive, rising in rowid order, at most the counter. */
  ghost predicate IdsIssued<R>(rows: seq<R>, idOf: R -> int, counter: int) {
    && 0 <= counter
    && (forall i :: 0 <= i < |rows| ==> 0 < idOf(rows[i]) <= counter)
    && (forall i, j :: 0 <= i < j < |rows| ==> idOf(rows[i]) < idOf(rows[j]))
  }

  /** `SELECT .. WHERE id = ?` with `.get`: the first row with that id, if any. */
  function FindRow<R>(rows: seq<R>, idOf: R -> int, id: int): (r: Option<R>)
    ensures r.None? <==> forall i :: 0 <= i < |rows| ==> idOf(rows[i]) != id
    ensures r.Some? ==> idOf(r.value) == id && exists i :: 0 <= i < |rows| && rows[i] == r.value && FirstWithId(rows, idOf, id, i)
  {
    if rows == [] then None
    else if idOf(rows[0]) == id then (assert FirstWithId(rows, idOf, id, 0); Some(rows[0]))
    else
      var r := FindRow(rows[1..], idOf, id);
      assert r.Some? ==> exists i :: 0 <= i < |rows| && rows[i] == r.value && FirstWithId(rows, idOf, id, i) by {
        if r.Some? {
          var i :| 0 <= i < |rows[1..]| && rows[1..][i] == r.value && FirstWithId(rows[1..], idOf, id, i);
          forall j | 0 <= j < i + 1 ensures idOf(rows[j]) != id {
            if j > 0 { assert rows[j] == rows[1..][j - 1]; }
          }
          assert FirstWithId(rows, idOf, id, i + 1);
        }
      }
      r
  }

  /** Row `i` is the first row with that id. */
  predicate FirstWithId<R>(rows: seq<R>, idOf: R -> int, id: int, i: int)
    requires 0 <= i < |rows|
  {
    idOf(rows[i]) == id && forall j :: 0 <= j < i ==> idOf(rows[j]) != id
  }

  /** With distinct ids, the row found is the one that carries the id. */
  lemma {:induction false} FindRowUnique<R>(rows: seq<R>, idOf: R -> int, counter: int, k: int)
    requires IdsIssued(rows, idOf, counter) && 0 <= k < |rows|
    ensures FindRow(rows, idOf, idOf(rows[k])) == Some(rows[k])
  {
    if k > 0 {
      assert idOf(rows[0]) < idOf(rows[k]);
      assert IdsIssued(rows[1..], idOf, counter) by {
        forall i, j | 0 <= i < j < |rows[1..]| ensures idOf(rows[1..][i]) < idOf(rows[1..][j]) {
          assert rows[1..][i] == rows[i + 1] && rows[1..][j] == rows[j + 1];
        }
      }
      FindRowUnique(rows[1..], idOf, counter, k - 1);
    }
  }

  /** `UPDATE .. WHERE id = ?`: every row with that id is rewritten by `f`. */
  function UpdateRows<R>(rows: seq<R>, idOf: R -> int, id: int, f: R -> R): (r: seq<R>)
    ensures |r| == |rows|
    ensures forall i :: 0 <= i < |rows| ==> r[i] == if idOf(rows[i]) == id then f(rows[i]) else rows[i]
  {
    seq(|rows|, i requires 0 <= i < |rows| => if idOf(rows[i]) == id then f(rows[i]) else rows[i])
  }

  /** `DELETE .. WHERE NOT keep(row)`: the rows to keep, in their order. */
  function Filter<R>(rows: seq<R>, keep: R -> bool): (r: seq<R>)
    ensures |r| <= |rows|
  {
    if rows == [] then [] else (if keep(rows[0]) then [rows[0]] else []) + Filter(rows[1..], keep)
  }

  /** A row survives the deletion exactly when it was in the table and is kept. */
  lemma {:induction false} FilterMembers<R>(rows: seq<R>, keep: R -> bool, x: R)
    ensures x in Filter(rows, keep) <==> x in rows && keep(x)
  {
    if rows != [] {
      FilterMembers(rows[1..], keep, x);
      assert x in rows <==> x == rows[0] || x in rows[1..];
    }
  }

  lemma TailIssued<R>(rows: seq<R>, idOf: R -> int, counter: int)
    requires IdsIssued(rows, idOf, counter) && rows != []
    ensures IdsIssued(rows[1..], idOf, counter)
    ensures forall x :: x in rows[1..] ==> idOf(rows[0]) < idOf(x)
  {
    var tail := rows[1..];
    forall i | 0 <= i < |tail| ensures tail[i] == rows[i + 1] { }
  }

  /** Deleting keeps the order of what remains, so the ids stay issued. */
  lemma {:induction false} FilterKeepsIssuedIds<R>(rows: seq<R>, idOf: R -> int, keep: R -> bool, counter: int)
    requires IdsIssued(rows, idOf, counter)
    ensures IdsIssued(Filter(rows, keep), idOf, counter)
  {
    if rows != [] {
      var tail := rows[1..];
      TailIssued(rows, idOf, counter);
      FilterKeepsIssuedIds(tail, idOf, keep, counter);
      var rest := Filter(tail, keep);
      if keep(rows[0]) {
        var r := [rows[0]] + rest;
        assert Filter(rows, keep) == r;
        forall j | 0 <= j < |rest| ensures idOf(rows[0]) < idOf(rest[j]) {
          FilterMembers(tail, keep, rest[j]);
        }
        forall i | 0 <= i < |r| ensures r[i] == if i == 0 then rows[0] else rest[i - 1] { }
      } else {
        assert Filter(rows, keep) == rest;
      }
    }
  }

  /** Rewriting rows in place without touching their ids keeps the ids as issued. */
  lemma SameIdsKeepIssued<R>(rows: seq<R>, changed: seq<R>, idOf: R -> int, counter: int)
    requires IdsIssued(rows, idOf, counter)
    requires |changed| == |rows| && forall i :: 0 <= i < |rows| ==> idOf(changed[i]) == idOf(rows[i])
    ensures IdsIssued(changed, idOf, counter)
  {
  }

  /** Appending a row with the next AUTOINCREMENT id keeps the ids issued. */
  lemma AppendKeepsIssuedIds<R>(rows: seq<R>, idOf: R -> int, counter: int, row: R)
    requires IdsIssued(rows, idOf, counter) && idOf(row) == counter + 1
    ensures IdsIssued(rows + [row], idOf, counter + 1)
  {
    var r := rows + [row];
    forall i | 0 <= i < |r| ensures 0 < idOf(r[i]) <= counter + 1 {
      if i < |rows| { assert r[i] == rows[i]; } else { assert r[i] == row; }
    }
    forall i, j | 0 <= i < j < |r| ensures idOf(r[i]) < idOf(r[j]) {
      assert r[i] == rows[i];
      if j < |rows| { assert r[j] == rows[j]; } else { assert r[j] == row; }
    }
  }

  /** `getSetting(key)`: the stored value, or undefined when the key is absent. */
  function GetSetting(settings: map<string, string>, key: string): (r: Option<string>)
    ensures r.Some? <==> key in settings
  {
    if key in settings then Some(settings[key]) else None
  }

  /** The columns `CREATE TABLE assets` declares; a migration adds the price columns. */
  const BaseAssetColumns: set<string> := {
    "id", "category_id", "ticker", "name", "quantity", "price", "target_allocation",
    "notes", "created_at", "updated_at"
  }

  class Db {
    var categories: seq<CategoryRow>
    var assets: seq<AssetRow>
    var snapshots: seq<SnapshotRow>
    var snapshotCategories: seq<SnapshotCategoryRow>
    var dcaPlans: seq<DcaPlanRow>
    var dcaEntries: seq<DcaEntryRow>
    var settings: map<string, string>
    var assetColumns: set<string>
    // AUTOINCREMENT counters: the largest id each table has ever issued
    var categorySeq: int
    var assetSeq: int
    var snapshotSeq: int
    var snapshotCategorySeq: int
    var dcaPlanSeq: int
    var dcaEntrySeq: int

    ghost predicate Valid()
      reads this
    {
      && IdsIssued(categories, CategoryId, categorySeq)
      && IdsIssued(assets, AssetId, assetSeq)
      && IdsIssued(snapshots, SnapshotId, snapshotSeq)
      && IdsIssued(snapshotCategories, SnapshotCategoryId, snapshotCategorySeq)
      && IdsIssued(dcaPlans, DcaPlanId, dcaPlanSeq)
      && IdsIssued(dcaEntries, DcaEntryId, dcaEntrySeq)
    }

    /** A database file just created: every table exists and is empty. */
    constructor ()
      ensures categories == [] && assets == [] && snapshots == [] && snapshotCategories == []
      ensures dcaPlans == [] && dcaEntries == [] && settings == map[]
      ensures assetColumns == BaseAssetColumns
      ensures Valid()
    {
      categories, assets, snapshots, snapshotCategories := [], [], [], [];
      dcaPlans, dcaEntries, settings := [], [], map[];
      assetColumns := BaseAssetColumns;
      categorySeq, assetSeq, snapshotSeq, snapshotCategorySeq, dcaPlanSeq, dcaEntrySeq := 0, 0, 0, 0, 0, 0;
    }
  }
}
