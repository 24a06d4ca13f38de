/** Reading assets: the row-to-view mapping, lookup by id, the full listing by ticker, and
    a category's assets with their value and share of the category. */
module AssetsQueries {
  import opened Wrappers
  import opened JsText
  import opened Types
  import opened Database
  import opened Sorting
  import opened Calculations

  /** `mapRow`: the stored percentage target becomes a fraction; every other field passes. */
  function MapRow(row: AssetRow): (a: Asset)
    ensures a.targetAllocation * 100.0 == row.targetAllocation
  {
    Asset(row.id, row.categoryId, row.ticker, row.name, row.quantity, row.price,
          row.targetAllocation / 100.0, row.notes, row.lastPriceUpdate, row.priceSource, row.assetType)
  }

  /** The row an asset view is read from. */
  function StoredRow(a: Asset): AssetRow {
    AssetRow(a.id, a.categoryId, a.ticker, a.name, a.quantity, a.price,
             a.targetAllocation * 100.0, a.notes, a.lastPriceUpdate, a.priceSource, a.assetType)
  }

  /** The mapping loses nothing: the row is recovered from its view and the view from its row. */
  lemma MapRowRoundTrip(row: AssetRow, a: Asset)
    ensures StoredRow(MapRow(row)) == row
    ensures MapRow(StoredRow(a)) == a
  {
  }

  /** `ORDER BY ticker` */
  predicate TickerLe(a: AssetRow, b: AssetRow) { StrLe(a.ticker, b.ticker) }

  lemma TickerOrderIsTotal()
    ensures TotalPreorder(TickerLe)
  {
    forall a: AssetRow, b: AssetRow ensures TickerLe(a, b) || TickerLe(b, a) {
      StrLeTotal(a.ticker, b.ticker);
    }
    forall a: AssetRow, b: AssetRow, c: AssetRow | TickerLe(a, b) && TickerLe(b, c) ensures TickerLe(a, c) {
      StrLeTransitive(a.ticker, b.ticker, c.ticker);
    }
  }

  function ByTicker(rows: seq<AssetRow>): seq<AssetRow> { SortBy(rows, TickerLe) }

  /** Listing by ticker rearranges the rows, in ticker order. */
  lemma ByTickerSorts(rows: seq<AssetRow>)
    ensures multiset(ByTicker(rows)) == multiset(rows) && |ByTicker(rows)| == |rows|
    ensures forall i, j :: 0 <= i < j < |rows| ==> StrLe(ByTicker(rows)[i].ticker, ByTicker(rows)[j].ticker)
  {
    SortByPermutes(rows, TickerLe);
    TickerOrderIsTotal();
    SortBySorted(rows, TickerLe);
  }

  /** `getAllAssets`: every asset, in ticker order. */
  function GetAllAssets(assets: seq<AssetRow>): (r: seq<Asset>)
    ensures |r| == |assets|
    ensures forall i, j :: 0 <= i < j < |r| ==> StrLe(r[i].ticker, r[j].ticker)
    ensures forall i :: 0 <= i < |r| ==> exists k :: 0 <= k < |assets| && r[i] == MapRow(assets[k])
    ensures forall k :: 0 <= k < |assets| ==> MapRow(assets[k]) in r
  {
    ByTickerSorts(assets);
    var rows := ByTicker(assets);
    assert forall i :: 0 <= i < |rows| ==> rows[i] in multiset(assets);
    assert forall k :: 0 <= k < |assets| ==> assets[k] in multiset(rows);
    Map(rows, MapRow)
  }

  /** `getAssetById`: the asset with that id, or null when there is none. */
  function GetAssetById(assets: seq<AssetRow>, id: int): (r: Option<Asset>)
    ensures r.None? <==> forall i :: 0 <= i < |assets| ==> assets[i].id != id
    ensures r.Some? ==> r.value.id == id && exists i :: 0 <= i < |assets| && r.value == MapRow(assets[i])
    ensures r.Some? ==> exists i :: 0 <= i < |assets| && r.value == MapRow(assets[i]) && FirstWithId(assets, AssetId, id, i)
  {
    match FindRow(assets, AssetId, id)
    case None => None
    case Some(row) => Some(MapRow(row))
  }

  /** With AUTOINCREMENT ids, looking an asset up by its id finds exactly the assets the
      listing shows. */
  lemma LookupAgreesWithListing(assets: seq<AssetRow>, counter: int, a: Asset)
    requires IdsIssued(assets, AssetId, counter)
    ensures GetAssetById(assets, a.id) == Some(a) <==> a in GetAllAssets(assets)
  {
    var listed := GetAllAssets(assets);
    if a in listed {
      var i :| 0 <= i < |listed| && listed[i] == a;
      var k :| 0 <= k < |assets| && a == MapRow(assets[k]);
      FindRowUnique(assets, AssetId, counter, k);
    }
  }

  /** The rows `WHERE category_id = ?`. */
  function InCategory(categoryId: int): AssetRow -> bool {
    (r: AssetRow) => r.categoryId == categoryId
  }

  function CategoryRows(assets: seq<AssetRow>, categoryId: int): seq<AssetRow> {
    ByTicker(Filter(assets, InCategory(categoryId)))
  }

  function Values(rows: seq<AssetRow>): (r: seq<real>)
    ensures |r| == |rows| && forall i :: 0 <= i < |rows| ==> r[i] == AssetValue(rows[i].quantity, rows[i].price)
  {
    seq(|rows|, i requires 0 <= i < |rows| => AssetValue(rows[i].quantity, rows[i].price))
  }

  /** `rows.reduce((sum, r) => sum + r.quantity * r.price, 0)` over the category's rows. */
  function CategoryTotal(assets: seq<AssetRow>, categoryId: int): real {
    Sum(Values(CategoryRows(assets, categoryId)))
  }

  /** `categoryTotal > 0 ? totalValue / categoryTotal : 0`: the part of a positive total that
      `value` makes up, and 0 for a total that is not positive. */
  function Share(value: real, total: real): (r: real)
    ensures total > 0.0 ==> r * total == value
    ensures total <= 0.0 ==> r == 0.0
  {
    if total > 0.0 then value / total else 0.0
  }

  /** One row with its value, its share of the category total, and the gap between that share
      and its target. */
  function WithStats(row: AssetRow, categoryTotal: real): AssetWithStats {
    var asset := MapRow(row);
    var totalValue := row.quantity * row.price;
    var currentAllocation := Share(totalValue, categoryTotal);
    AssetWithStats(asset, totalValue, currentAllocation, currentAllocation - asset.targetAllocation)
  }

  /** The category's rows are the filtered rows in ticker order, each in that category. */
  lemma CategoryRowsFacts(assets: seq<AssetRow>, categoryId: int)
    ensures |CategoryRows(assets, categoryId)| == |Filter(assets, InCategory(categoryId))|
    ensures forall i, j :: 0 <= i < j < |CategoryRows(assets, categoryId)| ==>
              StrLe(CategoryRows(assets, categoryId)[i].ticker, CategoryRows(assets, categoryId)[j].ticker)
    ensures forall i :: 0 <= i < |CategoryRows(assets, categoryId)| ==>
              CategoryRows(assets, categoryId)[i].categoryId == categoryId && CategoryRows(assets, categoryId)[i] in assets
    ensures forall k :: 0 <= k < |assets| && assets[k].categoryId == categoryId ==> assets[k] in CategoryRows(assets, categoryId)
  {
    var rows := CategoryRows(assets, categoryId);
    var filtered := Filter(assets, InCategory(categoryId));
    ByTickerSorts(filtered);
    forall i | 0 <= i < |rows| ensures rows[i].categoryId == categoryId && rows[i] in assets {
      assert rows[i] in multiset(filtered);
      FilterMembers(assets, InCategory(categoryId), rows[i]);
    }
    forall k | 0 <= k < |assets| && assets[k].categoryId == categoryId ensures assets[k] in rows {
      FilterMembers(assets, InCategory(categoryId), assets[k]);
      assert assets[k] in multiset(rows);
    }
  }

  /** `getAssetsByCategory`: the category's assets in ticker order, each with its value, its
      share of the category's total value (0 unless that total is positive) and the gap
      between the share and its target. */
  function GetAssetsByCategory(assets: seq<AssetRow>, categoryId: int): (r: seq<AssetWithStats>)
    ensures |r| == |Filter(assets, InCategory(categoryId))|
    ensures forall i, j :: 0 <= i < j < |r| ==> StrLe(r[i].asset.ticker, r[j].asset.ticker)
    ensures forall i :: 0 <= i < |r| ==> r[i].asset.categoryId == categoryId
    ensures |r| == |CategoryRows(assets, categoryId)|
    ensures forall i :: 0 <= i < |r| ==> r[i].asset == MapRow(CategoryRows(assets, categoryId)[i])
    ensures forall i :: 0 <= i < |r| ==> exists k :: 0 <= k < |assets| && r[i].asset == MapRow(assets[k])
    ensures forall k :: 0 <= k < |assets| && assets[k].categoryId == categoryId ==>
              exists i :: 0 <= i < |r| && r[i].asset == MapRow(assets[k])
    ensures forall i :: 0 <= i < |r| ==> r[i].totalValue == AssetValue(r[i].asset.quantity, r[i].asset.price)
    ensures forall i :: 0 <= i < |r| ==> r[i].currentAllocation == Share(r[i].totalValue, CategoryTotal(assets, categoryId))
    ensures forall i :: 0 <= i < |r| ==> r[i].allocationDiff == AllocationDiff(r[i].currentAllocation, r[i].asset.targetAllocation)
  {
    var rows := CategoryRows(assets, categoryId);
    var total := CategoryTotal(assets, categoryId);
    var listing := seq(|rows|, i requires 0 <= i < |rows| => WithStats(rows[i], total));
    ListingStats(rows, total, listing);
    ListingMembers(assets, categoryId, listing);
    listing
  }

  /** Each row's view against one total: its value, its share of the total (0 unless the total
      is positive) and the gap between that share and its target. */
  lemma ListingStats(rows: seq<AssetRow>, total: real, r: seq<AssetWithStats>)
    requires |r| == |rows| && forall i :: 0 <= i < |r| ==> r[i] == WithStats(rows[i], total)
    ensures forall i :: 0 <= i < |r| ==> r[i].asset == MapRow(rows[i])
    ensures forall i :: 0 <= i < |r| ==> r[i].totalValue == AssetValue(r[i].asset.quantity, r[i].asset.price)
    ensures forall i :: 0 <= i < |r| ==> r[i].currentAllocation == Share(r[i].totalValue, total)
    ensures forall i :: 0 <= i < |r| ==> r[i].allocationDiff == AllocationDiff(r[i].currentAllocation, r[i].asset.targetAllocation)
  {
  }

  /** The listing holds a view of every row in the category and of nothing else. */
  lemma ListingMembers(assets: seq<AssetRow>, categoryId: int, r: seq<AssetWithStats>)
    requires |r| == |CategoryRows(assets, categoryId)|
    requires forall i :: 0 <= i < |r| ==> r[i].asset == MapRow(CategoryRows(assets, categoryId)[i])
    ensures |r| == |Filter(assets, InCategory(categoryId))|
    ensures forall i, j :: 0 <= i < j < |r| ==> StrLe(r[i].asset.ticker, r[j].asset.ticker)
    ensures forall i :: 0 <= i < |r| ==> r[i].asset.categoryId == categoryId
    ensures forall i :: 0 <= i < |r| ==> exists k :: 0 <= k < |assets| && r[i].asset == MapRow(assets[k])
    ensures forall k :: 0 <= k < |assets| && assets[k].categoryId == categoryId ==>
              exists i :: 0 <= i < |r| && r[i].asset == MapRow(assets[k])
  {
    var rows := CategoryRows(assets, categoryId);
    CategoryRowsFacts(assets, categoryId);
    forall i | 0 <= i < |r| ensures exists k :: 0 <= k < |assets| && r[i].asset == MapRow(assets[k]) {
      var k :| 0 <= k < |assets| && assets[k] == rows[i];
    }
    forall k | 0 <= k < |assets| && assets[k].categoryId == categoryId
      ensures exists i :: 0 <= i < |r| && r[i].asset == MapRow(assets[k])
    {
      var i :| 0 <= i < |rows| && rows[i] == assets[k];
      assert r[i].asset == MapRow(assets[k]);
    }
  }

  function Allocations(r: seq<AssetWithStats>): seq<real> {
    seq(|r|, i requires 0 <= i < |r| => r[i].currentAllocation)
  }

  /** When the category holds a positive value, its assets' shares add up to one. */
  lemma CategorySharesSumToOne(assets: seq<AssetRow>, categoryId: int)
    requires CategoryTotal(assets, categoryId) > 0.0
    ensures Sum(Allocations(GetAssetsByCategory(assets, categoryId))) == 1.0
  {
    var rows := CategoryRows(assets, categoryId);
    var values := Values(rows);
    var r := GetAssetsByCategory(assets, categoryId);
    var shares, divided := Allocations(r), DivideAll(values, Sum(values));
    forall i | 0 <= i < |shares| ensures shares[i] == divided[i] {
      assert r[i].asset == MapRow(rows[i]);
    }
    assert shares == divided;
    SharesSumToOne(values);
  }

  /** The view's share agrees with `calculateAllocation` whenever the category total is not
      negative (both give 0 for a zero total); a negative total gives a share of 0. */
  lemma ShareMatchesAllocation(assets: seq<AssetRow>, categoryId: int, i: int)
    requires 0 <= i < |GetAssetsByCategory(assets, categoryId)|
    ensures var r := GetAssetsByCategory(assets, categoryId)[i];
      var total := CategoryTotal(assets, categoryId);
      && (total >= 0.0 ==> r.currentAllocation == Allocation(r.totalValue, total))
      && (total <= 0.0 ==> r.currentAllocation == 0.0)
  {
  }
}
