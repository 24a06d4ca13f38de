/** Recording the portfolio at a date, with its per-category breakdown, and removing a record. */
module SnapshotsActions {
  import opened Wrappers
  import opened Types
  import opened Database
  import opened Sorting
  import opened Calculations
  import opened Forms
  import opened CategoriesQueries
  import AssetsQueries

  const DateTaken := "UNIQUE constraint failed: snapshots.date"

  /** `!date`: the field was left empty (or not sent). */
  const DateMissing: set<string> := {"date"}

  function StatsValue(c: CategoryWithStats): real { c.totalValue }

  /** `categories.reduce((sum, c) => sum + c.totalValue, 0)` */
  function PortfolioValue(stats: seq<CategoryWithStats>): real {
    Sum(Map(stats, StatsValue))
  }

  /** `totalInvested || 0`, where `parsed` is what `parseFloat` gave (`None` for NaN). */
  function Invested(parsed: Option<real>): (r: real)
    ensures parsed.None? ==> r == 0.0
    ensures parsed.Some? ==> r == parsed.value
  {
    match parsed
    case None => 0.0
    case Some(v) => v
  }

  predicate DateInUse(snapshots: seq<SnapshotRow>, date: string) {
    exists i :: 0 <= i < |snapshots| && snapshots[i].date == date
  }

  /** The breakdown rows `insertCat.run` adds, one per category, with the next ids. */
  function BreakdownRows(firstId: int, snapshotId: int, stats: seq<CategoryWithStats>): (r: seq<SnapshotCategoryRow>)
    ensures |r| == |stats|
    ensures forall i :: 0 <= i < |r| ==>
      r[i] == SnapshotCategoryRow(firstId + i, snapshotId, stats[i].category.id, stats[i].totalValue, stats[i].currentAllocation)
  {
    seq(|stats|, i requires 0 <= i < |stats| =>
      SnapshotCategoryRow(firstId + i, snapshotId, stats[i].category.id, stats[i].totalValue, stats[i].currentAllocation))
  }

  lemma AppendBreakdownKeepsIds(rows: seq<SnapshotCategoryRow>, counter: int, snapshotId: int, stats: seq<CategoryWithStats>)
    requires IdsIssued(rows, SnapshotCategoryId, counter)
    ensures IdsIssued(rows + BreakdownRows(counter + 1, snapshotId, stats), SnapshotCategoryId, counter + |stats|)
  {
    var r := rows + BreakdownRows(counter + 1, snapshotId, stats);
    forall i | 0 <= i < |r| ensures 0 < SnapshotCategoryId(r[i]) <= counter + |stats| {
      if i < |rows| { assert r[i] == rows[i]; }
    }
    forall i, j | 0 <= i < j < |r| ensures SnapshotCategoryId(r[i]) < SnapshotCategoryId(r[j]) {
      if j < |rows| { assert r[i] == rows[i] && r[j] == rows[j]; }
      else if i < |rows| { assert r[i] == rows[i]; }
    }
  }

  /** The `for (const cat of categories)` loop: one breakdown row per listed category. */
  method InsertBreakdown(db: Db, snapshotId: int, stats: seq<CategoryWithStats>)
    requires IdsIssued(db.snapshotCategories, SnapshotCategoryId, db.snapshotCategorySeq)
    modifies db`snapshotCategories, db`snapshotCategorySeq
    ensures IdsIssued(db.snapshotCategories, SnapshotCategoryId, db.snapshotCategorySeq)
    ensures db.snapshotCategories == old(db.snapshotCategories) + BreakdownRows(old(db.snapshotCategorySeq) + 1, snapshotId, stats)
    ensures db.snapshotCategorySeq == old(db.snapshotCategorySeq) + |stats|
  {
    var rows := BreakdownRows(db.snapshotCategorySeq + 1, snapshotId, stats);
    AppendBreakdownKeepsIds(db.snapshotCategories, db.snapshotCategorySeq, snapshotId, stats);
    ghost var before := db.snapshotCategories;
    ghost var counter := db.snapshotCategorySeq;
    var k := 0;
    while k < |stats|
      invariant 0 <= k <= |stats|
      invariant db.snapshotCategories == before + rows[..k] && db.snapshotCategorySeq == counter + k
    {
      var cat := stats[k];
      db.snapshotCategories := db.snapshotCategories
        + [SnapshotCategoryRow(db.snapshotCategorySeq + 1, snapshotId, cat.category.id, cat.totalValue, cat.currentAllocation)];
      db.snapshotCategorySeq := db.snapshotCategorySeq + 1;
      assert rows[..k + 1] == rows[..k] + [rows[k]];
      k := k + 1;
    }
    assert rows[..k] == rows;
  }

  /** The two inserts of `createSnapshot`, for the categories as listed when it runs. The
      second cannot fail: both keys it writes exist. */
  method Record(db: Db, date: string, invested: Option<real>, notes: string, stats: seq<CategoryWithStats>)
    returns (r: ActionResult<()>)
    requires db.Valid()
    modifies db`snapshots, db`snapshotSeq, db`snapshotCategories, db`snapshotCategorySeq
    ensures db.Valid()
    ensures DateInUse(old(db.snapshots), date) ==> r == Thrown(DateTaken) && unchanged(db)
    ensures !DateInUse(old(db.snapshots), date) ==>
      && r == Success(())
      && db.snapshotSeq == old(db.snapshotSeq) + 1
      && db.snapshots == old(db.snapshots) + [SnapshotRow(db.snapshotSeq, date, PortfolioValue(stats), Invested(invested), OrNull(notes))]
      && db.snapshotCategories == old(db.snapshotCategories) + BreakdownRows(old(db.snapshotCategorySeq) + 1, db.snapshotSeq, stats)
      && db.snapshotCategorySeq == old(db.snapshotCategorySeq) + |stats|
  {
    var totalValue := PortfolioValue(stats);
    if DateInUse(db.snapshots, date) {
      return Thrown(DateTaken);
    }
    var row := SnapshotRow(db.snapshotSeq + 1, date, totalValue, Invested(invested), OrNull(notes));
    AppendKeepsIssuedIds(db.snapshots, SnapshotId, db.snapshotSeq, row);
    db.snapshotSeq := db.snapshotSeq + 1;
    db.snapshots := db.snapshots + [row];
    InsertBreakdown(db, db.snapshotSeq, stats);
    return Success(());
  }

  /** `createSnapshot`: an empty date is refused, a date already recorded makes the insert
      throw, and otherwise the current totals are stored with one breakdown row per category. */
  method CreateSnapshot(db: Db, date: string, invested: Option<real>, notes: string) returns (r: ActionResult<()>)
    requires db.Valid()
    modifies db`snapshots, db`snapshotSeq, db`snapshotCategories, db`snapshotCategorySeq
    ensures db.Valid()
    ensures date == "" ==> r == Invalid(DateMissing) && unchanged(db)
    ensures date != "" && DateInUse(old(db.snapshots), date) ==> r == Thrown(DateTaken) && unchanged(db)
    ensures date != "" && !DateInUse(old(db.snapshots), date) ==>
      var stats := GetCategoriesWithStats(db.categories, db.assets);
      && r == Success(())
      && db.snapshotSeq == old(db.snapshotSeq) + 1
      && db.snapshots == old(db.snapshots) + [SnapshotRow(db.snapshotSeq, date, PortfolioValue(stats), Invested(invested), OrNull(notes))]
      && db.snapshotCategories == old(db.snapshotCategories) + BreakdownRows(old(db.snapshotCategorySeq) + 1, db.snapshotSeq, stats)
      && db.snapshotCategorySeq == old(db.snapshotCategorySeq) + |stats|
  {
    if date == "" {
      return Invalid(DateMissing);
    }
    var categories := GetCategoriesWithStats(db.categories, db.assets);
    r := Record(db, date, invested, notes, categories);
  }

  // ---------------------------------------------------------------------------
  // What a recorded snapshot holds

  /** The stored total is the market value of every asset, when each asset belongs to an
      existing category (as the assets' foreign key guarantees). */
  lemma StoredTotalIsAssetValue(categories: seq<CategoryRow>, counter: int, assets: seq<AssetRow>)
    requires IdsIssued(categories, CategoryId, counter)
    requires AssetsCategorised(categories, assets)
    ensures PortfolioValue(GetCategoriesWithStats(categories, assets)) == Sum(AssetsQueries.Values(assets))
  {
    var rows := StatsRows(categories, assets);
    assert Map(GetCategoriesWithStats(categories, assets), StatsValue) == Totals(rows);
    PortfolioTotalIsAssetValue(categories, counter, assets);
  }

  /** The stored total is the sum of the breakdown's values. */
  lemma BreakdownAddsUpToTotal(firstId: int, snapshotId: int, stats: seq<CategoryWithStats>)
    ensures Sum(Map(BreakdownRows(firstId, snapshotId, stats), BreakdownValue)) == PortfolioValue(stats)
  {
    assert Map(BreakdownRows(firstId, snapshotId, stats), BreakdownValue) == Map(stats, StatsValue);
  }

  function BreakdownValue(row: SnapshotCategoryRow): real { row.value }
  function BreakdownCategory(row: SnapshotCategoryRow): int { row.categoryId }
  function BreakdownShare(row: SnapshotCategoryRow): real { row.allocationPct }

  /** The breakdown has exactly one row for each category. */
  lemma BreakdownCoversCategories(firstId: int, snapshotId: int, categories: seq<CategoryRow>, assets: seq<AssetRow>)
    ensures multiset(Map(BreakdownRows(firstId, snapshotId, GetCategoriesWithStats(categories, assets)), BreakdownCategory))
         == multiset(Map(categories, CategoryId))
  {
    var stats := GetCategoriesWithStats(categories, assets);
    assert Map(BreakdownRows(firstId, snapshotId, stats), BreakdownCategory) == Map(stats, StatsCategoryId);
    StatsCoverCategories(categories, assets);
  }

  /** With a positive total the breakdown's shares add up to one. */
  lemma BreakdownSharesSumToOne(firstId: int, snapshotId: int, categories: seq<CategoryRow>, assets: seq<AssetRow>)
    requires Sum(Totals(StatsRows(categories, assets))) > 0.0
    ensures Sum(Map(BreakdownRows(firstId, snapshotId, GetCategoriesWithStats(categories, assets)), BreakdownShare)) == 1.0
  {
    var stats := GetCategoriesWithStats(categories, assets);
    assert Map(BreakdownRows(firstId, snapshotId, stats), BreakdownShare) == Allocations(stats);
    CategoriesQueries.SharesSumToOne(categories, assets);
  }

  // ---------------------------------------------------------------------------
  // Deletion

  function OtherSnapshot(id: int): SnapshotRow -> bool { (s: SnapshotRow) => s.id != id }
  function OtherSnapshotsRow(id: int): SnapshotCategoryRow -> bool { (c: SnapshotCategoryRow) => c.snapshotId != id }

  /** `deleteSnapshot`: the snapshot goes, and `ON DELETE CASCADE` takes its breakdown with it. */
  function DeleteSnapshotStep(snapshots: seq<SnapshotRow>, breakdown: seq<SnapshotCategoryRow>, id: int)
    : (seq<SnapshotRow>, seq<SnapshotCategoryRow>)
  {
    (Filter(snapshots, OtherSnapshot(id)), Filter(breakdown, OtherSnapshotsRow(id)))
  }

  /** After the delete exactly the other snapshots and their breakdown rows remain. */
  lemma DeleteSnapshotRemovesOnlyIt(snapshots: seq<SnapshotRow>, breakdown: seq<SnapshotCategoryRow>, id: int,
                                    s: SnapshotRow, c: SnapshotCategoryRow)
    ensures s in DeleteSnapshotStep(snapshots, breakdown, id).0 <==> s in snapshots && s.id != id
    ensures c in DeleteSnapshotStep(snapshots, breakdown, id).1 <==> c in breakdown && c.snapshotId != id
  {
    FilterMembers(snapshots, OtherSnapshot(id), s);
    FilterMembers(breakdown, OtherSnapshotsRow(id), c);
  }

  method DeleteSnapshot(db: Db, id: int) returns (r: ActionResult<()>)
    requires db.Valid()
    modifies db`snapshots, db`snapshotCategories
    ensures db.Valid()
    ensures r == Success(()) && (db.snapshots, db.snapshotCategories) == DeleteSnapshotStep(old(db.snapshots), old(db.snapshotCategories), id)
  {
    FilterKeepsIssuedIds(db.snapshots, SnapshotId, OtherSnapshot(id), db.snapshotSeq);
    FilterKeepsIssuedIds(db.snapshotCategories, SnapshotCategoryId, OtherSnapshotsRow(id), db.snapshotCategorySeq);
    db.snapshots, db.snapshotCategories := Filter(db.snapshots, OtherSnapshot(id)), Filter(db.snapshotCategories, OtherSnapshotsRow(id));
    return Success(());
  }
}
