/** Reading categories: the row-to-view mapping, the listing in display order, lookup by id,
    and the per-category totals with each category's share of the portfolio. */
module CategoriesQueries {
  import opened Wrappers
  import opened JsText
  import opened Types
  import opened Database
  import opened Sorting
  import opened Calculations
  import AssetsQueries

  /** `mapRow`: the stored percentage target becomes a fraction; every other field passes. */
  function MapRow(row: CategoryRow): (c: Category)
    ensures c.targetAllocation * 100.0 == row.targetAllocation
    ensures (c.id, c.name, c.slug, c.icon, c.sortOrder) == (row.id, row.name, row.slug, row.icon, row.sortOrder)
  {
    Category(row.id, row.name, row.slug, row.icon, row.targetAllocation / 100.0, row.sortOrder)
  }

  /** `ORDER BY sort_order, name` */
  predicate DisplayLe(sortA: int, nameA: string, sortB: int, nameB: string) {
    sortA < sortB || (sortA == sortB && StrLe(nameA, nameB))
  }

  predicate CategoryLe(a: CategoryRow, b: CategoryRow) { DisplayLe(a.sortOrder, a.name, b.sortOrder, b.name) }

  lemma CategoryOrderIsTotal()
    ensures TotalPreorder(CategoryLe)
  {
    forall a: CategoryRow, b: CategoryRow ensures CategoryLe(a, b) || CategoryLe(b, a) {
      StrLeTotal(a.name, b.name);
    }
    forall a: CategoryRow, b: CategoryRow, c: CategoryRow | CategoryLe(a, b) && CategoryLe(b, c)
      ensures CategoryLe(a, c)
    {
      if a.sortOrder == b.sortOrder == c.sortOrder {
        StrLeTransitive(a.name, b.name, c.name);
      }
    }
  }

  /** `getCategories`: every category, in display order. */
  function GetCategories(categories: seq<CategoryRow>): (r: seq<Category>)
    ensures |r| == |categories|
    ensures forall i, j :: 0 <= i < j < |r| ==> DisplayLe(r[i].sortOrder, r[i].name, r[j].sortOrder, r[j].name)
    ensures forall i :: 0 <= i < |r| ==> exists k :: 0 <= k < |categories| && r[i] == MapRow(categories[k])
    ensures forall k :: 0 <= k < |categories| ==> MapRow(categories[k]) in r
  {
    var rows := SortBy(categories, CategoryLe);
    SortByPermutes(categories, CategoryLe);
    CategoryOrderIsTotal();
    SortBySorted(categories, CategoryLe);
    assert forall i :: 0 <= i < |rows| ==> rows[i] in multiset(categories);
    assert forall k :: 0 <= k < |categories| ==> categories[k] in multiset(rows);
    Map(rows, MapRow)
  }

  /** `getCategoryById`: the category with that id, or null when there is none. */
  function GetCategoryById(categories: seq<CategoryRow>, id: int): (r: Option<Category>)
    ensures r.None? <==> forall i :: 0 <= i < |categories| ==> categories[i].id != id
    ensures r.Some? ==> r.value.id == id && exists i :: 0 <= i < |categories| && r.value == MapRow(categories[i])
    ensures r.Some? ==> exists i :: 0 <= i < |categories| && r.value == MapRow(categories[i]) && FirstWithId(categories, CategoryId, id, i)
  {
    match FindRow(categories, CategoryId, id)
    case None => None
    case Some(row) => Some(MapRow(row))
  }

  /** With AUTOINCREMENT ids, looking a category up by its id finds exactly the categories
      the listing shows. */
  lemma LookupAgreesWithListing(categories: seq<CategoryRow>, counter: int, c: Category)
    requires IdsIssued(categories, CategoryId, counter)
    ensures GetCategoryById(categories, c.id) == Some(c) <==> c in GetCategories(categories)
  {
    var listed := GetCategories(categories);
    if c in listed {
      var i :| 0 <= i < |listed| && listed[i] == c;
      var k :| 0 <= k < |categories| && c == MapRow(categories[k]);
      FindRowUnique(categories, CategoryId, counter, k);
    }
  }

  /** A row of the grouped query: the category, `COALESCE(SUM(a.quantity * a.price), 0)` and
      `COUNT(a.id)` over its assets. */
  datatype StatsRow = StatsRow(row: CategoryRow, totalValue: real, assetCount: nat)

  function CategoryAssets(assets: seq<AssetRow>, categoryId: int): seq<AssetRow> {
    Filter(assets, AssetsQueries.InCategory(categoryId))
  }

  function StatsOf(assets: seq<AssetRow>, c: CategoryRow): StatsRow {
    var mine := CategoryAssets(assets, c.id);
    StatsRow(c, Sum(AssetsQueries.Values(mine)), |mine|)
  }

  predicate StatsLe(a: StatsRow, b: StatsRow) { CategoryLe(a.row, b.row) }

  lemma StatsOrderIsTotal()
    ensures TotalPreorder(StatsLe)
  {
    CategoryOrderIsTotal();
    forall a: StatsRow, b: StatsRow ensures StatsLe(a, b) || StatsLe(b, a) {
      assert CategoryLe(a.row, b.row) || CategoryLe(b.row, a.row);
    }
    forall a: StatsRow, b: StatsRow, c: StatsRow | StatsLe(a, b) && StatsLe(b, c) ensures StatsLe(a, c) {
      assert CategoryLe(a.row, b.row) && CategoryLe(b.row, c.row);
    }
  }

  /** The grouped query's rows, in table order. */
  function GroupedRows(categories: seq<CategoryRow>, assets: seq<AssetRow>): (r: seq<StatsRow>)
    ensures |r| == |categories| && forall i :: 0 <= i < |r| ==> r[i] == StatsOf(assets, categories[i])
  {
    seq(|categories|, i requires 0 <= i < |categories| => StatsOf(assets, categories[i]))
  }

  /** The grouped query's rows, in display order. */
  function StatsRows(categories: seq<CategoryRow>, assets: seq<AssetRow>): seq<StatsRow> {
    SortBy(GroupedRows(categories, assets), StatsLe)
  }

  function Totals(rows: seq<StatsRow>): (r: seq<real>)
    ensures |r| == |rows| && forall i :: 0 <= i < |rows| ==> r[i] == rows[i].totalValue
  {
    seq(|rows|, i requires 0 <= i < |rows| => rows[i].totalValue)
  }

  /** One category with its total, its share of the portfolio (0 unless the portfolio total
      is positive), the gap to its target and its asset count. */
  function WithStats(s: StatsRow, portfolioTotal: real): CategoryWithStats {
    var cat := MapRow(s.row);
    var currentAllocation := if portfolioTotal > 0.0 then s.totalValue / portfolioTotal else 0.0;
    CategoryWithStats(cat, s.totalValue, currentAllocation, currentAllocation - cat.targetAllocation, s.assetCount)
  }

  /** The part of `getCategoriesWithStats` after the query, on the query's rows. */
  function WithAllocations(rows: seq<StatsRow>): (r: seq<CategoryWithStats>)
    ensures |r| == |rows|
    ensures forall i :: 0 <= i < |r| ==>
      && r[i].category == MapRow(rows[i].row)
      && r[i].totalValue == rows[i].totalValue
      && r[i].assetCount == rows[i].assetCount
      && r[i].allocationDiff == AllocationDiff(r[i].currentAllocation, r[i].category.targetAllocation)
      && (Sum(Totals(rows)) > 0.0 ==> r[i].currentAllocation == Allocation(rows[i].totalValue, Sum(Totals(rows))))
      && (Sum(Totals(rows)) <= 0.0 ==> r[i].currentAllocation == 0.0)
  {
    var portfolioTotal := Sum(Totals(rows));
    seq(|rows|, i requires 0 <= i < |rows| => WithStats(rows[i], portfolioTotal))
  }

  function Allocations(r: seq<CategoryWithStats>): seq<real> {
    seq(|r|, i requires 0 <= i < |r| => r[i].currentAllocation)
  }


  /** `getCategoriesWithStats`: one element per category, in display order, each carrying
      the value and count of that category's assets. */
  function GetCategoriesWithStats(categories: seq<CategoryRow>, assets: seq<AssetRow>): (r: seq<CategoryWithStats>)
    ensures |r| == |categories|
    ensures forall i, j :: 0 <= i < j < |r| ==>
      DisplayLe(r[i].category.sortOrder, r[i].category.name, r[j].category.sortOrder, r[j].category.name)
    ensures forall i :: 0 <= i < |r| ==> exists k :: (
      && 0 <= k < |categories|
      && r[i].category == MapRow(categories[k])
      && r[i].totalValue == Sum(AssetsQueries.Values(CategoryAssets(assets, categories[k].id)))
      && r[i].assetCount == |CategoryAssets(assets, categories[k].id)|)
  {
    StatsRowsSorted(categories, assets);
    WithAllocations(StatsRows(categories, assets))
  }

  /** The grouped rows in display order are the categories' stats rearranged. */
  lemma StatsRowsSorted(categories: seq<CategoryRow>, assets: seq<AssetRow>)
    ensures |StatsRows(categories, assets)| == |categories|
    ensures SortedBy(StatsRows(categories, assets), StatsLe)
    ensures forall i :: 0 <= i < |categories| ==>
      exists k :: 0 <= k < |categories| && StatsRows(categories, assets)[i] == StatsOf(assets, categories[k])
  {
    var unsorted := GroupedRows(categories, assets);
    var rows := StatsRows(categories, assets);
    SortByPermutes(unsorted, StatsLe);
    StatsOrderIsTotal();
    SortBySorted(unsorted, StatsLe);
    forall i | 0 <= i < |rows| ensures exists k :: 0 <= k < |categories| && rows[i] == StatsOf(assets, categories[k]) {
      assert rows[i] in multiset(unsorted);
      var k :| 0 <= k < |unsorted| && unsorted[k] == rows[i];
    }
  }

  /** With a positive portfolio total the categories' shares add up to one. */
  lemma SharesSumToOne(categories: seq<CategoryRow>, assets: seq<AssetRow>)
    requires Sum(Totals(StatsRows(categories, assets))) > 0.0
    ensures Sum(Allocations(GetCategoriesWithStats(categories, assets))) == 1.0
  {
    var totals := Totals(StatsRows(categories, assets));
    assert Allocations(GetCategoriesWithStats(categories, assets)) == DivideAll(totals, Sum(totals));
    Calculations.SharesSumToOne(totals);
  }
  function StatsRowId(s: StatsRow): int { s.row.id }
  function StatsRowTotal(s: StatsRow): real { s.totalValue }
  function StatsCategoryId(c: CategoryWithStats): int { c.category.id }

  /** Every category is listed with its stats exactly once. */
  lemma StatsCoverCategories(categories: seq<CategoryRow>, assets: seq<AssetRow>)
    ensures multiset(Map(GetCategoriesWithStats(categories, assets), StatsCategoryId)) == multiset(Map(categories, CategoryId))
  {
    var unsorted := GroupedRows(categories, assets);
    SortByMapPermutes(unsorted, StatsLe, StatsRowId);
    assert Map(GetCategoriesWithStats(categories, assets), StatsCategoryId) == Map(StatsRows(categories, assets), StatsRowId);
    assert Map(unsorted, StatsRowId) == Map(categories, CategoryId);
  }

  /** The market value of one category's assets. */
  function CategoryValue(assets: seq<AssetRow>, categoryId: int): real {
    Sum(AssetsQueries.Values(CategoryAssets(assets, categoryId)))
  }

  function CategoryValues(categories: seq<CategoryRow>, assets: seq<AssetRow>): (r: seq<real>)
    ensures |r| == |categories| && forall i :: 0 <= i < |r| ==> r[i] == CategoryValue(assets, categories[i].id)
  {
    seq(|categories|, i requires 0 <= i < |categories| => CategoryValue(assets, categories[i].id))
  }

  /** What `FOREIGN KEY (category_id) REFERENCES categories(id)` keeps true. */
  ghost predicate AssetsCategorised(categories: seq<CategoryRow>, assets: seq<AssetRow>) {
    forall i :: 0 <= i < |assets| ==> assets[i].categoryId in Map(categories, CategoryId)
  }

  lemma CategoryValueCons(a: AssetRow, rest: seq<AssetRow>, categoryId: int)
    ensures CategoryValue([a] + rest, categoryId)
         == (if a.categoryId == categoryId then AssetValue(a.quantity, a.price) else 0.0) + CategoryValue(rest, categoryId)
  {
    var assets := [a] + rest;
    assert assets[1..] == rest;
    var head := if a.categoryId == categoryId then [a] else [];
    assert CategoryAssets(assets, categoryId) == head + CategoryAssets(rest, categoryId);
    assert AssetsQueries.Values(head + CategoryAssets(rest, categoryId))
        == AssetsQueries.Values(head) + AssetsQueries.Values(CategoryAssets(rest, categoryId));
    SumConcat(AssetsQueries.Values(head), AssetsQueries.Values(CategoryAssets(rest, categoryId)));
    if a.categoryId == categoryId {
      SumCons(AssetValue(a.quantity, a.price), []);
    }
  }

  lemma CategoryIdsDistinct(categories: seq<CategoryRow>, counter: int)
    requires IdsIssued(categories, CategoryId, counter)
    ensures forall i, j :: 0 <= i < j < |categories| ==> Map(categories, CategoryId)[i] != Map(categories, CategoryId)[j]
  {
  }

  /** One more asset adds its value to the categories' values when its category is listed. */
  lemma CategoryValuesCons(categories: seq<CategoryRow>, counter: int, a: AssetRow, rest: seq<AssetRow>)
    requires IdsIssued(categories, CategoryId, counter)
    ensures Sum(CategoryValues(categories, [a] + rest))
         == (if a.categoryId in Map(categories, CategoryId) then AssetValue(a.quantity, a.price) else 0.0)
          + Sum(CategoryValues(categories, rest))
  {
    var keys := Map(categories, CategoryId);
    var v := AssetValue(a.quantity, a.price);
    var hit := seq(|categories|, i requires 0 <= i < |categories| => if keys[i] == a.categoryId then v else 0.0);
    forall i | 0 <= i < |categories|
      ensures CategoryValues(categories, [a] + rest)[i] == hit[i] + CategoryValues(categories, rest)[i]
    {
      CategoryValueCons(a, rest, categories[i].id);
    }
    SumPointwise(hit, CategoryValues(categories, rest), CategoryValues(categories, [a] + rest));
    CategoryIdsDistinct(categories, counter);
    SumIndicator(hit, keys, a.categoryId, v);
  }

  lemma NoAssetsNoValue(categories: seq<CategoryRow>, counter: int)
    requires IdsIssued(categories, CategoryId, counter)
    ensures Sum(CategoryValues(categories, [])) == 0.0
  {
    CategoryIdsDistinct(categories, counter);
    SumIndicator(CategoryValues(categories, []), Map(categories, CategoryId), 0, 0.0);
  }

  lemma ValuesCons(a: AssetRow, rest: seq<AssetRow>)
    ensures Sum(AssetsQueries.Values([a] + rest)) == AssetValue(a.quantity, a.price) + Sum(AssetsQueries.Values(rest))
  {
    assert AssetsQueries.Values([a] + rest) == [AssetValue(a.quantity, a.price)] + AssetsQueries.Values(rest);
    SumCons(AssetValue(a.quantity, a.price), AssetsQueries.Values(rest));
  }

  /** With every asset filed under one existing category, the categories' values add up to the
      value of all assets. */
  lemma {:induction false} CategoryValuesPartition(categories: seq<CategoryRow>, counter: int, assets: seq<AssetRow>)
    requires IdsIssued(categories, CategoryId, counter)
    requires AssetsCategorised(categories, assets)
    ensures Sum(CategoryValues(categories, assets)) == Sum(AssetsQueries.Values(assets))
    decreases |assets|
  {
    if assets == [] {
      NoAssetsNoValue(categories, counter);
    } else {
      var a, rest := assets[0], assets[1..];
      assert assets == [a] + rest;
      CategoryValuesCons(categories, counter, a, rest);
      assert AssetsCategorised(categories, rest) by {
        forall i | 0 <= i < |rest| ensures rest[i].categoryId in Map(categories, CategoryId) {
          assert rest[i] == assets[i + 1];
        }
      }
      CategoryValuesPartition(categories, counter, rest);
      ValuesCons(a, rest);
    }
  }

  /** The portfolio total `getCategoriesWithStats` divides by is the value of every asset. */
  lemma PortfolioTotalIsAssetValue(categories: seq<CategoryRow>, counter: int, assets: seq<AssetRow>)
    requires IdsIssued(categories, CategoryId, counter)
    requires AssetsCategorised(categories, assets)
    ensures Sum(Totals(StatsRows(categories, assets))) == Sum(AssetsQueries.Values(assets))
  {
    var unsorted := GroupedRows(categories, assets);
    SortByMapPermutes(unsorted, StatsLe, StatsRowTotal);
    assert Totals(StatsRows(categories, assets)) == Map(StatsRows(categories, assets), StatsRowTotal);
    assert Map(unsorted, StatsRowTotal) == CategoryValues(categories, assets);
    SumPermutation(Totals(StatsRows(categories, assets)), CategoryValues(categories, assets));
    CategoryValuesPartition(categories, counter, assets);
  }
}
