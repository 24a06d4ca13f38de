/** Reading snapshots: the newest ones first with their evolution, and lookup by id. */
module SnapshotsQueries {
  import opened Wrappers
  import opened JsText
  import opened Types
  import opened Database
  import opened Sorting

  /** The derived fields both queries add to a row: the gain, and the gain as a fraction of
      the invested amount (0 when nothing positive was invested). */
  function Evolution(row: SnapshotRow): (s: SnapshotWithEvolution)
    ensures (s.id, s.date, s.totalValue, s.totalInvested, s.notes)
         == (row.id, row.date, row.totalValue, row.totalInvested, row.notes)
    ensures s.totalInvested + s.evolutionValue == s.totalValue
    ensures s.totalInvested > 0.0 ==> s.evolutionPct * s.totalInvested == s.evolutionValue
    ensures s.totalInvested <= 0.0 ==> s.evolutionPct == 0.0
  {
    var pct := if row.totalInvested > 0.0 then (row.totalValue - row.totalInvested) / row.totalInvested else 0.0;
    SnapshotWithEvolution(row.id, row.date, row.totalValue, row.totalInvested, row.notes,
                          pct, row.totalValue - row.totalInvested)
  }

  /** A gain shows as a positive percentage and a loss as a negative one. */
  lemma EvolutionSign(row: SnapshotRow)
    requires row.totalInvested > 0.0
    ensures Evolution(row).evolutionPct > 0.0 <==> row.totalValue > row.totalInvested
    ensures Evolution(row).evolutionPct < 0.0 <==> row.totalValue < row.totalInvested
  {
    var pct := Evolution(row).evolutionPct;
    assert pct * row.totalInvested == row.totalValue - row.totalInvested;
  }

  /** `ORDER BY date DESC` */
  predicate NewerFirst(a: SnapshotRow, b: SnapshotRow) { StrLe(b.date, a.date) }

  lemma NewerFirstIsTotal()
    ensures TotalPreorder(NewerFirst)
  {
    forall a: SnapshotRow, b: SnapshotRow ensures NewerFirst(a, b) || NewerFirst(b, a) {
      StrLeTotal(a.date, b.date);
    }
    forall a: SnapshotRow, b: SnapshotRow, c: SnapshotRow | NewerFirst(a, b) && NewerFirst(b, c)
      ensures NewerFirst(a, c)
    {
      StrLeTransitive(c.date, b.date, a.date);
    }
  }

  /** `LIMIT ?`: SQLite reads a negative limit as no limit. */
  function Limited(n: nat, limit: int): (r: nat)
    ensures r <= n
  {
    if limit < 0 || limit > n then n else limit
  }

  /** The rows `SELECT * FROM snapshots ORDER BY date DESC LIMIT ?` returns. */
  function NewestRows(snapshots: seq<SnapshotRow>, limit: int): seq<SnapshotRow> {
    SortByPermutes(snapshots, NewerFirst);
    SortBy(snapshots, NewerFirst)[..Limited(|snapshots|, limit)]
  }

  function Evolutions(rows: seq<SnapshotRow>): (r: seq<SnapshotWithEvolution>)
    ensures |r| == |rows| && forall i :: 0 <= i < |rows| ==> r[i] == Evolution(rows[i])
  {
    seq(|rows|, i requires 0 <= i < |rows| => Evolution(rows[i]))
  }

  /** `getSnapshots(limit)` (the page passes 50 or none) */
  function GetSnapshots(snapshots: seq<SnapshotRow>, limit: int): (r: seq<SnapshotWithEvolution>)
    ensures |r| == Limited(|snapshots|, limit)
    ensures limit >= 0 ==> |r| <= limit
    ensures forall i, j :: 0 <= i < j < |r| ==> StrLe(r[j].date, r[i].date)
    ensures forall i :: 0 <= i < |r| ==> exists k :: 0 <= k < |snapshots| && r[i] == Evolution(snapshots[k])
  {
    var sorted := SortBy(snapshots, NewerFirst);
    SortByPermutes(snapshots, NewerFirst);
    NewerFirstIsTotal();
    SortBySorted(snapshots, NewerFirst);
    var rows := NewestRows(snapshots, limit);
    forall i | 0 <= i < |rows| ensures exists k :: 0 <= k < |snapshots| && rows[i] == snapshots[k] {
      assert rows[i] == sorted[i];
      assert sorted[i] in multiset(snapshots);
    }
    Evolutions(rows)
  }

  /** The snapshots left out by the limit are none newer than those returned. */
  lemma LeftOutAreOlder(snapshots: seq<SnapshotRow>, limit: int, k: int, i: int)
    requires 0 <= k < |snapshots| && snapshots[k] !in NewestRows(snapshots, limit)
    requires 0 <= i < |NewestRows(snapshots, limit)|
    ensures StrLe(snapshots[k].date, NewestRows(snapshots, limit)[i].date)
  {
    var sorted := SortBy(snapshots, NewerFirst);
    SortByPermutes(snapshots, NewerFirst);
    NewerFirstIsTotal();
    SortBySorted(snapshots, NewerFirst);
    assert snapshots[k] in multiset(sorted);
    var j :| 0 <= j < |sorted| && sorted[j] == snapshots[k];
    var taken := Limited(|snapshots|, limit);
    assert forall m :: 0 <= m < taken ==> NewestRows(snapshots, limit)[m] == sorted[m];
    assert NewestRows(snapshots, limit)[i] == sorted[i];
  }

  /** `getSnapshotById`: the snapshot with that id, or null when there is none. */
  function GetSnapshotById(snapshots: seq<SnapshotRow>, id: int): (r: Option<SnapshotWithEvolution>)
    ensures r.None? <==> forall i :: 0 <= i < |snapshots| ==> snapshots[i].id != id
    ensures r.Some? ==> exists i :: 0 <= i < |snapshots| && r.value == Evolution(snapshots[i]) && snapshots[i].id == id
  {
    match FindRow(snapshots, SnapshotId, id)
    case None => None
    case Some(row) => Some(Evolution(row))
  }

  /** Both queries derive the same fields from the same row: a snapshot the listing returns
      is exactly what the lookup by its id returns. */
  lemma ListingAgreesWithLookup(snapshots: seq<SnapshotRow>, counter: int, limit: int, i: int)
    requires IdsIssued(snapshots, SnapshotId, counter)
    requires 0 <= i < |GetSnapshots(snapshots, limit)|
    ensures GetSnapshotById(snapshots, GetSnapshots(snapshots, limit)[i].id) == Some(GetSnapshots(snapshots, limit)[i])
  {
    var s := GetSnapshots(snapshots, limit)[i];
    var k :| 0 <= k < |snapshots| && s == Evolution(snapshots[k]);
    FindRowUnique(snapshots, SnapshotId, counter, k);
  }
}
