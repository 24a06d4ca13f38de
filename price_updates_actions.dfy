/** Refreshing stored prices: one asset (classify it if its type is unset, fetch, write the
    price fields together) and every asset in ticker order with a pause between calls. */
module PriceUpdatesActions {
  import opened Wrappers
  import opened Types
  import opened Database
  import opened AssetTypeDetector
  import opened PriceApi
  import opened AssetsQueries

  /** `getSetting('alpha_vantage_api_key') || ''` */
  function ApiKey(settings: map<string, string>): (key: string)
    ensures "alpha_vantage_api_key" !in settings ==> key == ""
    ensures "alpha_vantage_api_key" in settings ==> key == settings["alpha_vantage_api_key"]
  {
    GetSetting(settings, "alpha_vantage_api_key").GetOr("")
  }

  /** The type the price is fetched for: the stored one, or the one the ticker's shape gives. */
  function ResolvedType(a: Asset): AssetType {
    if a.assetType.Some? then a.assetType.value else DetectAssetType(a.ticker)
  }

  function SetType(t: AssetType): AssetRow -> AssetRow {
    (r: AssetRow) => r.(assetType := Some(t))
  }

  function SetPrice(d: PriceData): AssetRow -> AssetRow {
    (r: AssetRow) => r.(price := d.price, lastPriceUpdate := Some(d.timestamp), priceSource := Some(d.source))
  }

  /** Rows that agree on everything but the type and price columns. */
  predicate SameHoldings(a: AssetRow, b: AssetRow) {
    a.id == b.id && a.categoryId == b.categoryId && a.ticker == b.ticker && a.name == b.name
    && a.quantity == b.quantity && a.targetAllocation == b.targetAllocation && a.notes == b.notes
  }

  predicate SamePrice(a: AssetRow, b: AssetRow) {
    a.price == b.price && a.lastPriceUpdate == b.lastPriceUpdate && a.priceSource == b.priceSource
  }

  /** The table after one update, with the rate-limit map and the clock. */
  datatype UpdateState = UpdateState(result: PriceUpdateResult, assets: seq<AssetRow>, limits: map<string, int>, clock: int)

  /** `updateAssetPrice(id)`: what it returns and what it leaves behind. */
  function UpdateAssetPriceStep(assets: seq<AssetRow>, settings: map<string, string>, limits: map<string, int>,
                                id: int, now: int, ex: Exchange): (r: UpdateState)
    ensures |r.assets| == |assets| && r.clock >= now
  {
    match GetAssetById(assets, id)
    case None => UpdateState(NotUpdated("unknown", "Asset not found"), assets, limits, now)
    case Some(asset) =>
      var f := FetchPriceStep(limits, asset.ticker, ResolvedType(asset), ApiKey(settings), now, ex);
      UpdateState(Report(asset, f.result), Recorded(Classified(assets, asset, id), id, f.result), f.limits, f.clock)
  }

  /** The table once an untyped asset has its detected type stored. */
  function Classified(assets: seq<AssetRow>, asset: Asset, id: int): seq<AssetRow> {
    if asset.assetType.None? then UpdateRows(assets, AssetId, id, SetType(ResolvedType(asset))) else assets
  }

  /** The table once a fetched price is written; unchanged after a failed fetch. */
  function Recorded(typed: seq<AssetRow>, id: int, fetched: PriceResult): seq<AssetRow> {
    if fetched.Priced? then UpdateRows(typed, AssetId, id, SetPrice(fetched.data)) else typed
  }

  /** What the action returns for a found asset. */
  function Report(asset: Asset, fetched: PriceResult): PriceUpdateResult {
    match fetched
    case PriceApiError(e, _, _) => NotUpdated(asset.ticker, e)
    case Priced(d) => Updated(asset.ticker, asset.price, d.price, d.source)
  }

  // ---------------------------------------------------------------------------
  // Properties of one update

  /** An unknown id is reported as such and nothing is written or waited for. */
  lemma UnknownAssetWritesNothing(assets: seq<AssetRow>, settings: map<string, string>, limits: map<string, int>,
                                  id: int, now: int, ex: Exchange)
    requires forall i :: 0 <= i < |assets| ==> assets[i].id != id
    ensures UpdateAssetPriceStep(assets, settings, limits, id, now, ex)
      == UpdateState(NotUpdated("unknown", "Asset not found"), assets, limits, now)
  {
  }

  /** Classifying and then recording any fetch outcome rewrites only rows with that id, and
      never their holdings. */
  lemma RecordedTouchesOnly(assets: seq<AssetRow>, asset: Asset, id: int, fetched: PriceResult)
    ensures var u := Recorded(Classified(assets, asset, id), id, fetched);
      && |u| == |assets|
      && (forall i :: 0 <= i < |assets| ==> SameHoldings(u[i], assets[i]))
      && (forall i :: 0 <= i < |assets| && assets[i].id != id ==> u[i] == assets[i])
  {
    var typed := Classified(assets, asset, id);
    assert forall i :: 0 <= i < |assets| ==>
      SameHoldings(typed[i], assets[i]) && (assets[i].id != id ==> typed[i] == assets[i]);
    var u := Recorded(typed, id, fetched);
    assert forall i :: 0 <= i < |assets| ==>
      SameHoldings(u[i], typed[i]) && (typed[i].id != id ==> u[i] == typed[i]);
  }

  /** Only the row with that id can change, and never in its holdings: id, category, ticker,
      name, quantity, target and notes stay as they were. */
  lemma UpdateTouchesOnlyThatAsset(assets: seq<AssetRow>, settings: map<string, string>, limits: map<string, int>,
                                   id: int, now: int, ex: Exchange)
    ensures var r := UpdateAssetPriceStep(assets, settings, limits, id, now, ex);
      && (forall i :: 0 <= i < |assets| ==> SameHoldings(r.assets[i], assets[i]))
      && (forall i :: 0 <= i < |assets| && assets[i].id != id ==> r.assets[i] == assets[i])
  {
    var found := GetAssetById(assets, id);
    if found.Some? {
      var f := FetchPriceStep(limits, found.value.ticker, ResolvedType(found.value), ApiKey(settings), now, ex);
      RecordedTouchesOnly(assets, found.value, id, f.result);
    }
  }

  /** The result names the asset's ticker. */
  lemma UpdateReportsTicker(assets: seq<AssetRow>, settings: map<string, string>, limits: map<string, int>,
                            id: int, now: int, ex: Exchange)
    requires GetAssetById(assets, id).Some?
    ensures UpdateAssetPriceStep(assets, settings, limits, id, now, ex).result.ticker
      == GetAssetById(assets, id).value.ticker
  {
  }

  /** An asset without a type gets the detected type stored, whether or not the fetch succeeds. */
  lemma UntypedAssetIsClassified(assets: seq<AssetRow>, settings: map<string, string>, limits: map<string, int>,
                                 id: int, now: int, ex: Exchange)
    requires GetAssetById(assets, id).Some? && GetAssetById(assets, id).value.assetType.None?
    ensures var r := UpdateAssetPriceStep(assets, settings, limits, id, now, ex);
      forall i :: 0 <= i < |assets| && assets[i].id == id ==>
        r.assets[i].assetType == Some(DetectAssetType(GetAssetById(assets, id).value.ticker))
  {
  }

  /** A stored type is used as it is and never rewritten. */
  lemma StoredTypeIsKept(assets: seq<AssetRow>, settings: map<string, string>, limits: map<string, int>,
                         id: int, now: int, ex: Exchange)
    requires GetAssetById(assets, id).Some? && GetAssetById(assets, id).value.assetType.Some?
    ensures var r := UpdateAssetPriceStep(assets, settings, limits, id, now, ex);
      forall i :: 0 <= i < |assets| ==> r.assets[i].assetType == assets[i].assetType
  {
  }

  /** Recording a failed fetch keeps every price, timestamp and source. */
  lemma RecordedFailureKeepsPrices(assets: seq<AssetRow>, asset: Asset, id: int, fetched: PriceResult)
    requires fetched.PriceApiError?
    ensures var u := Recorded(Classified(assets, asset, id), id, fetched);
      |u| == |assets| && forall i :: 0 <= i < |assets| ==> SamePrice(u[i], assets[i])
  {
    var typed := Classified(assets, asset, id);
    assert forall i :: 0 <= i < |assets| ==> SamePrice(typed[i], assets[i]);
  }

  /** Recording a fetched price writes price, time and source into every row with that id. */
  lemma RecordedSuccessWrites(assets: seq<AssetRow>, asset: Asset, id: int, d: PriceData)
    ensures var u := Recorded(Classified(assets, asset, id), id, Priced(d));
      |u| == |assets| && forall i :: 0 <= i < |assets| && assets[i].id == id ==>
        u[i].price == d.price && u[i].lastPriceUpdate == Some(d.timestamp) && u[i].priceSource == Some(d.source)
  {
    var typed := Classified(assets, asset, id);
    assert forall i :: 0 <= i < |assets| ==> typed[i].id == assets[i].id;
  }

  /** A failed fetch leaves every price, timestamp and source as it was. */
  lemma FailureKeepsPrices(assets: seq<AssetRow>, settings: map<string, string>, limits: map<string, int>,
                           id: int, now: int, ex: Exchange)
    requires UpdateAssetPriceStep(assets, settings, limits, id, now, ex).result.NotUpdated?
    ensures var r := UpdateAssetPriceStep(assets, settings, limits, id, now, ex);
      forall i :: 0 <= i < |assets| ==> SamePrice(r.assets[i], assets[i])
  {
    var found := GetAssetById(assets, id);
    if found.Some? {
      var f := FetchPriceStep(limits, found.value.ticker, ResolvedType(found.value), ApiKey(settings), now, ex);
      RecordedFailureKeepsPrices(assets, found.value, id, f.result);
    }
  }

  /** A successful fetch writes the provider's price, its time and its source together, and
      reports the price the asset had before. */
  lemma SuccessWritesPriceFields(assets: seq<AssetRow>, settings: map<string, string>, limits: map<string, int>,
                                 id: int, now: int, ex: Exchange)
    requires UpdateAssetPriceStep(assets, settings, limits, id, now, ex).result.Updated?
    ensures var r := UpdateAssetPriceStep(assets, settings, limits, id, now, ex);
      && GetAssetById(assets, id).Some?
      && r.result.oldPrice == GetAssetById(assets, id).value.price
      && r.result.source == ProviderName(ResolvedType(GetAssetById(assets, id).value))
      && (var f := FetchPriceStep(limits, GetAssetById(assets, id).value.ticker, ResolvedType(GetAssetById(assets, id).value),
                                  ApiKey(settings), now, ex);
          f.result.Priced? && r.result.newPrice == f.result.data.price)
      && forall i :: 0 <= i < |assets| && assets[i].id == id ==>
           r.assets[i].price == r.result.newPrice && r.assets[i].lastPriceUpdate == Some(r.clock)
           && r.assets[i].priceSource == Some(r.result.source)
  {
    var found := GetAssetById(assets, id);
    var f := FetchPriceStep(limits, found.value.ticker, ResolvedType(found.value), ApiKey(settings), now, ex);
    RecordedSuccessWrites(assets, found.value, id, f.result.data);
  }

  /** Without a stored key, a US share is refused by the router's key check. */
  lemma MissingKeyRefusesUsStock(assets: seq<AssetRow>, settings: map<string, string>, limits: map<string, int>,
                                 id: int, now: int, ex: Exchange)
    requires "alpha_vantage_api_key" !in settings
    requires GetAssetById(assets, id).Some? && ResolvedType(GetAssetById(assets, id).value) == UsStock
    ensures UpdateAssetPriceStep(assets, settings, limits, id, now, ex).result
      == NotUpdated(GetAssetById(assets, id).value.ticker, AlphaKeyMissing)
  {
  }

  function CountWhere(results: seq<PriceUpdateResult>, success: bool): (n: nat)
    ensures n <= |results|
  {
    if results == [] then 0
    else (if results[0].Success() == success then 1 else 0) + CountWhere(results[1..], success)
  }

  /** The inputs the bulk run consumes: one network exchange per asset, and how late each
      500 ms pause ends. */
  datatype Environment = Environment(exchange: nat -> Exchange, pauseLag: nat -> nat)

  datatype BulkState = BulkState(results: seq<PriceUpdateResult>, assets: seq<AssetRow>, limits: map<string, int>, clock: int)

  /** One update as the loop calls it: the table, the rate limits, the id, the clock and the
      exchange in; the new state out. */
  type Updater = (seq<AssetRow>, map<string, int>, int, int, Exchange) -> UpdateState

  /** `updateAssetPrice` with the settings it reads. */
  function UpdateWith(settings: map<string, string>): Updater {
    (assets: seq<AssetRow>, limits: map<string, int>, id: int, now: int, ex: Exchange) =>
      UpdateAssetPriceStep(assets, settings, limits, id, now, ex)
  }

  /** An update keeps the table's length and never turns the clock back. */
  ghost predicate Shaped(step: Updater) {
    forall assets, limits, id, now, ex ::
      |step(assets, limits, id, now, ex).assets| == |assets| && step(assets, limits, id, now, ex).clock >= now
  }

  /** An update changes no row's holdings. */
  ghost predicate KeepsHoldings(step: Updater)
    requires Shaped(step)
  {
    forall assets, limits, id, now, ex, i :: 0 <= i < |assets| ==>
      SameHoldings(step(assets, limits, id, now, ex).assets[i], assets[i])
  }

  lemma UpdateWithKeepsHoldings(settings: map<string, string>)
    ensures Shaped(UpdateWith(settings)) && KeepsHoldings(UpdateWith(settings))
  {
    forall assets, limits, id, now, ex
      ensures var r := UpdateWith(settings)(assets, limits, id, now, ex);
        |r.assets| == |assets| && r.clock >= now && forall i :: 0 <= i < |assets| ==> SameHoldings(r.assets[i], assets[i])
    {
      UpdateTouchesOnlyThatAsset(assets, settings, limits, id, now, ex);
    }
  }

  /** An update of a stored asset reports that asset's ticker. */
  ghost predicate ReportsTicker(step: Updater) {
    forall assets, limits, id, now, ex :: GetAssetById(assets, id).Some? ==>
      step(assets, limits, id, now, ex).result.ticker == GetAssetById(assets, id).value.ticker
  }

  lemma UpdateWithReportsTicker(settings: map<string, string>)
    ensures ReportsTicker(UpdateWith(settings))
  {
    forall assets, limits, id, now, ex | GetAssetById(assets, id).Some?
      ensures UpdateWith(settings)(assets, limits, id, now, ex).result.ticker == GetAssetById(assets, id).value.ticker
    {
      UpdateReportsTicker(assets, settings, limits, id, now, ex);
    }
  }

  /** The state after the loop has handled the first `n` assets of `listing`. */
  function BulkRun(step: Updater, listing: seq<Asset>, assets0: seq<AssetRow>,
                   limits0: map<string, int>, clock0: int, env: Environment, n: nat): (r: BulkState)
    requires Shaped(step) && n <= |listing|
    ensures |r.results| == n && |r.assets| == |assets0|
    ensures r.clock >= clock0 + 500 * n
  {
    if n == 0 then BulkState([], assets0, limits0, clock0)
    else
      var prev := BulkRun(step, listing, assets0, limits0, clock0, env, n - 1);
      var s := step(prev.assets, prev.limits, listing[n - 1].id, prev.clock, env.exchange(n - 1));
      BulkState(prev.results + [s.result], s.assets, s.limits, s.clock + 500 + env.pauseLag(n - 1))
  }

  /** Iteration `n`: the `n`-th listed asset updated from the state the earlier ones left. */
  function Attempt(step: Updater, listing: seq<Asset>, assets0: seq<AssetRow>,
                   limits0: map<string, int>, clock0: int, env: Environment, n: nat): UpdateState
    requires Shaped(step) && n < |listing|
  {
    var prev := BulkRun(step, listing, assets0, limits0, clock0, env, n);
    step(prev.assets, prev.limits, listing[n].id, prev.clock, env.exchange(n))
  }

  /** One more iteration appends the result of iteration `n` and moves on from its state. */
  lemma BulkRunNext(step: Updater, listing: seq<Asset>, assets0: seq<AssetRow>,
                    limits0: map<string, int>, clock0: int, env: Environment, n: nat)
    requires Shaped(step) && n < |listing|
    ensures var prev := BulkRun(step, listing, assets0, limits0, clock0, env, n);
      var s := Attempt(step, listing, assets0, limits0, clock0, env, n);
      BulkRun(step, listing, assets0, limits0, clock0, env, n + 1)
        == BulkState(prev.results + [s.result], s.assets, s.limits, s.clock + 500 + env.pauseLag(n))
  {
  }

  datatype BulkOutcome = BulkOutcome(bulk: BulkPriceUpdateResult, assets: seq<AssetRow>, limits: map<string, int>, clock: int)

  /** `updateAllAssetPrices`: every asset of the listing once, then the counts. */
  function UpdateAllAssetPricesStep(assets: seq<AssetRow>, settings: map<string, string>, limits: map<string, int>,
                                    now: int, env: Environment): (r: BulkOutcome)
    ensures r.bulk.total == |assets| == |r.bulk.results|
    ensures r.bulk.successful == CountWhere(r.bulk.results, true)
    ensures r.bulk.failed == CountWhere(r.bulk.results, false)
  {
    UpdateWithKeepsHoldings(settings);
    var listing := GetAllAssets(assets);
    var s := BulkRun(UpdateWith(settings), listing, assets, limits, now, env, |listing|);
    BulkOutcome(BulkPriceUpdateResult(|listing|, CountWhere(s.results, true), CountWhere(s.results, false), s.results),
                s.assets, s.limits, s.clock)
  }

  // ---------------------------------------------------------------------------
  // Properties of the bulk run

  /** Every result is either a success or a failure. */
  lemma {:induction false} CountsAddUp(results: seq<PriceUpdateResult>)
    ensures CountWhere(results, true) + CountWhere(results, false) == |results|
  {
    if results != [] { CountsAddUp(results[1..]); }
  }

  /** The ids stay as AUTOINCREMENT issued them across an update. */
  lemma UpdateKeepsIdsIssued(assets: seq<AssetRow>, settings: map<string, string>, limits: map<string, int>,
                             id: int, now: int, ex: Exchange, counter: int)
    requires IdsIssued(assets, AssetId, counter)
    ensures IdsIssued(UpdateAssetPriceStep(assets, settings, limits, id, now, ex).assets, AssetId, counter)
  {
    UpdateTouchesOnlyThatAsset(assets, settings, limits, id, now, ex);
    var after := UpdateAssetPriceStep(assets, settings, limits, id, now, ex).assets;
    assert forall i :: 0 <= i < |assets| ==> AssetId(after[i]) == AssetId(assets[i]);
    SameIdsKeepIssued(assets, after, AssetId, counter);
  }

  /** The loop never changes what is held, only type and price columns. */
  lemma {:induction false} BulkRunKeepsHoldings(step: Updater, listing: seq<Asset>, assets0: seq<AssetRow>,
                                                limits0: map<string, int>, clock0: int, env: Environment, n: nat)
    requires Shaped(step) && KeepsHoldings(step) && n <= |listing|
    ensures var r := BulkRun(step, listing, assets0, limits0, clock0, env, n);
      forall k :: 0 <= k < |assets0| ==> SameHoldings(r.assets[k], assets0[k])
  {
    if n > 0 {
      BulkRunKeepsHoldings(step, listing, assets0, limits0, clock0, env, n - 1);
    }
  }

  /** Every asset listed is one of the table's rows. */
  ghost predicate DrawnFrom(listing: seq<Asset>, assets: seq<AssetRow>) {
    forall i :: 0 <= i < |listing| ==> exists k :: 0 <= k < |assets| && listing[i] == MapRow(assets[k])
  }

  /** After any number of iterations a row of the table is still found by its id, with the
      ticker it had. */
  lemma BulkRunFinds(step: Updater, listing: seq<Asset>, assets0: seq<AssetRow>,
                     limits0: map<string, int>, clock0: int, env: Environment, n: nat, counter: int, k: int)
    requires Shaped(step) && KeepsHoldings(step) && n <= |listing|
    requires IdsIssued(assets0, AssetId, counter) && 0 <= k < |assets0|
    ensures var table := BulkRun(step, listing, assets0, limits0, clock0, env, n).assets;
      GetAssetById(table, assets0[k].id).Some? && GetAssetById(table, assets0[k].id).value.ticker == assets0[k].ticker
  {
    var table := BulkRun(step, listing, assets0, limits0, clock0, env, n).assets;
    BulkRunKeepsHoldings(step, listing, assets0, limits0, clock0, env, n);
    assert forall i :: 0 <= i < |assets0| ==> AssetId(table[i]) == AssetId(assets0[i]);
    SameIdsKeepIssued(assets0, table, AssetId, counter);
    FindRowUnique(table, AssetId, counter, k);
    assert GetAssetById(table, assets0[k].id) == Some(MapRow(table[k]));
  }

  /** One more result that names the next ticker keeps the results in listing order. */
  lemma AppendFollowsListing(results: seq<PriceUpdateResult>, next: PriceUpdateResult, listing: seq<Asset>, n: nat)
    requires 0 < n <= |listing| && |results| == n - 1
    requires forall i :: 0 <= i < n - 1 ==> results[i].ticker == listing[i].ticker
    requires next.ticker == listing[n - 1].ticker
    ensures forall i :: 0 <= i < n ==> (results + [next])[i].ticker == listing[i].ticker
  {
  }

  /** Each iteration's result names the ticker the listing shows at that position. */
  ghost predicate ReportsNext(step: Updater, listing: seq<Asset>, assets0: seq<AssetRow>,
                              limits0: map<string, int>, clock0: int, env: Environment)
    requires Shaped(step)
  {
    forall n: nat {:trigger Attempt(step, listing, assets0, limits0, clock0, env, n)} :: n < |listing| ==>
      Attempt(step, listing, assets0, limits0, clock0, env, n).result.ticker == listing[n].ticker
  }

  /** With ids as AUTOINCREMENT issues them and a listing drawn from the table, every
      iteration finds its asset and so reports its ticker. */
  lemma ListedAssetsReported(step: Updater, listing: seq<Asset>, assets0: seq<AssetRow>,
                             limits0: map<string, int>, clock0: int, env: Environment, counter: int)
    requires Shaped(step) && KeepsHoldings(step) && ReportsTicker(step)
    requires IdsIssued(assets0, AssetId, counter) && DrawnFrom(listing, assets0)
    ensures ReportsNext(step, listing, assets0, limits0, clock0, env)
  {
    forall n: nat | n < |listing|
      ensures Attempt(step, listing, assets0, limits0, clock0, env, n).result.ticker == listing[n].ticker
    {
      var k :| 0 <= k < |assets0| && listing[n] == MapRow(assets0[k]);
      BulkRunFinds(step, listing, assets0, limits0, clock0, env, n, counter, k);
      var prev := BulkRun(step, listing, assets0, limits0, clock0, env, n);
      assert listing[n].id == assets0[k].id && listing[n].ticker == assets0[k].ticker;
      assert GetAssetById(prev.assets, listing[n].id).Some?;
    }
  }

  /** Result `i` names the ticker of the `i`-th asset listed. */
  lemma {:induction false} BulkRunReportsListing(step: Updater, listing: seq<Asset>, assets0: seq<AssetRow>,
                                                 limits0: map<string, int>, clock0: int, env: Environment, n: nat)
    requires Shaped(step) && n <= |listing|
    requires ReportsNext(step, listing, assets0, limits0, clock0, env)
    ensures forall i :: 0 <= i < n ==>
      BulkRun(step, listing, assets0, limits0, clock0, env, n).results[i].ticker == listing[i].ticker
  {
    if n > 0 {
      BulkRunReportsListing(step, listing, assets0, limits0, clock0, env, n - 1);
      BulkRunNext(step, listing, assets0, limits0, clock0, env, n - 1);
      var prev := BulkRun(step, listing, assets0, limits0, clock0, env, n - 1);
      AppendFollowsListing(prev.results, Attempt(step, listing, assets0, limits0, clock0, env, n - 1).result, listing, n);
    }
  }

  /** The bulk run reports one result per asset, in the listing's ticker order, each naming
      the asset it was for; a failure does not end the loop early. */
  lemma BulkResultsFollowListing(assets: seq<AssetRow>, settings: map<string, string>, limits: map<string, int>,
                                 now: int, env: Environment, counter: int)
    requires IdsIssued(assets, AssetId, counter)
    ensures var r := UpdateAllAssetPricesStep(assets, settings, limits, now, env);
      var listing := GetAllAssets(assets);
      |r.bulk.results| == |listing| && forall i :: 0 <= i < |listing| ==> r.bulk.results[i].ticker == listing[i].ticker
  {
    UpdateWithKeepsHoldings(settings);
    UpdateWithReportsTicker(settings);
    var listing := GetAllAssets(assets);
    ListedAssetsReported(UpdateWith(settings), listing, assets, limits, now, env, counter);
    BulkRunReportsListing(UpdateWith(settings), listing, assets, limits, now, env, |listing|);
  }

  // ---------------------------------------------------------------------------
  // The actions over the database

  method UpdateAssetPrice(db: Db, svc: PriceService, id: int, now: int, ex: Exchange)
    returns (result: PriceUpdateResult, after: int)
    modifies db`assets, svc
    ensures UpdateState(result, db.assets, svc.rateLimits, after)
      == UpdateAssetPriceStep(old(db.assets), db.settings, old(svc.rateLimits), id, now, ex)
  {
    var found := GetAssetById(db.assets, id);
    if found.None? {
      return NotUpdated("unknown", "Asset not found"), now;
    }
    var asset := found.value;
    var assetType := asset.assetType;
    var t: AssetType;
    if assetType.None? {
      t := DetectAssetType(asset.ticker);
      db.assets := UpdateRows(db.assets, AssetId, id, SetType(t));
    } else {
      t := assetType.value;
    }
    var apiKey := ApiKey(db.settings);
    var fetched;
    fetched, after := svc.FetchPrice(asset.ticker, t, apiKey, now, ex);
    if fetched.PriceApiError? {
      return NotUpdated(asset.ticker, fetched.error), after;
    }
    var d := fetched.data;
    db.assets := UpdateRows(db.assets, AssetId, id, SetPrice(d));
    result := Updated(asset.ticker, asset.price, d.price, d.source);
  }

  /** Iteration `n` with the update the loop performs. */
  lemma AttemptIsUpdate(settings: map<string, string>, listing: seq<Asset>, assets0: seq<AssetRow>,
                        limits0: map<string, int>, clock0: int, env: Environment, n: nat)
    requires Shaped(UpdateWith(settings)) && n < |listing|
    ensures var prev := BulkRun(UpdateWith(settings), listing, assets0, limits0, clock0, env, n);
      Attempt(UpdateWith(settings), listing, assets0, limits0, clock0, env, n)
        == UpdateAssetPriceStep(prev.assets, settings, prev.limits, listing[n].id, prev.clock, env.exchange(n))
  {
  }

  /** The body of the loop of `updateAllAssetPrices`: update the next asset, record its
      result, pause. */
  method UpdateNext(db: Db, svc: PriceService, listing: seq<Asset>, ghost assets0: seq<AssetRow>,
                    ghost limits0: map<string, int>, now: int, env: Environment, i: nat,
                    results: seq<PriceUpdateResult>, clock: int)
    returns (nextResults: seq<PriceUpdateResult>, nextClock: int)
    requires Shaped(UpdateWith(db.settings)) && i < |listing|
    requires BulkRun(UpdateWith(db.settings), listing, assets0, limits0, now, env, i)
      == BulkState(results, db.assets, svc.rateLimits, clock)
    modifies db`assets, svc
    ensures BulkRun(UpdateWith(db.settings), listing, assets0, limits0, now, env, i + 1)
      == BulkState(nextResults, db.assets, svc.rateLimits, nextClock)
  {
    BulkRunNext(UpdateWith(db.settings), listing, assets0, limits0, now, env, i);
    AttemptIsUpdate(db.settings, listing, assets0, limits0, now, env, i);
    var result, after := UpdateAssetPrice(db, svc, listing[i].id, clock, env.exchange(i));
    nextResults := results + [result];
    nextClock := after + 500 + env.pauseLag(i);
  }

  method UpdateAllAssetPrices(db: Db, svc: PriceService, now: int, env: Environment)
    returns (bulk: BulkPriceUpdateResult, after: int)
    modifies db`assets, svc
    ensures BulkOutcome(bulk, db.assets, svc.rateLimits, after)
      == UpdateAllAssetPricesStep(old(db.assets), db.settings, old(svc.rateLimits), now, env)
  {
    var listing := GetAllAssets(db.assets);
    var results: seq<PriceUpdateResult> := [];
    var clock := now;
    var i := 0;
    UpdateWithKeepsHoldings(db.settings);
    while i < |listing|
      invariant 0 <= i <= |listing|
      invariant BulkRun(UpdateWith(db.settings), listing, old(db.assets), old(svc.rateLimits), now, env, i)
        == BulkState(results, db.assets, svc.rateLimits, clock)
    {
      results, clock := UpdateNext(db, svc, listing, old(db.assets), old(svc.rateLimits), now, env, i, results, clock);
      i := i + 1;
    }
    var successful := CountWhere(results, true);
    var failed := CountWhere(results, false);
    bulk := BulkPriceUpdateResult(|listing|, successful, failed, results);
    after := clock;
  }
}
