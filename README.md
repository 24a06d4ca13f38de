# Investment Wizard — a Dafny model of its bookkeeping core

Investment Wizard is a personal portfolio tracker: a Next.js application over one SQLite
file. Its state consists of:

- the user's asset categories, each with a target allocation;
- the assets in each category (ticker, quantity, price, target);
- dated snapshots of the portfolio's value, each with a per-category breakdown;
- dollar-cost-averaging (DCA) plans and their scheduled entries;
- key/value settings.

Server actions write that state. Queries read it back with derived figures: values,
shares of a total, gaps to the target, and gain since the invested amount.

The centre of the application is the price-update pipeline:

1. A ticker is classified by its shape as a B3 share, a B3 real-estate fund (FII), a
   crypto currency or a US share.
2. A quote is fetched from the provider for that class: Brapi, Alpha Vantage or
   CoinGecko. Each provider sits behind its own in-memory rate limiter.
3. It is written into the asset row, one asset at a time or for every asset in
   ticker order.
4. Staleness queries and a one-shot dashboard hook decide when to trigger a refresh.

The model states this behaviour in Dafny as follows.

**Tables**
- Each table is a sequence of rows in rowid order, as SQLite scans it.
- The AUTOINCREMENT counters and the settings map are fields of one `Database.Db`
  object.
- `Db.Valid()` is the invariant the counters keep. Every id is positive, ids rise in
  rowid order, and no id exceeds its table's counter.

**Actions**
- Each server action is a method on `Db`.
- It is proved equal to a pure step function on the tables it touches.
- The properties the application relies on are lemmas about those step functions.

**Queries**
- Queries are pure functions over the tables.
- `ORDER BY` is a stable insertion sort (module `Sorting`).
- Money and shares are exact reals.
- Clock values are integer milliseconds, passed in as `now` and handed back as `after`.

**Network**
- A network call is an `Exchange` value:
  - the timer's lateness when a rate-limit sleep ends;
  - the latency of the request;
  - the reply: a thrown network error, or an HTTP status with a parsed JSON body or a
    JSON syntax error.
- The rate limiter is the class `PriceApi.PriceService`, whose `rateLimits` map its
  methods update in place.

## Model

| member | source | states |
|---|---|---|
| AssetTypeDetector.DetectFiiIff | src/lib/services/asset-type-detector.ts:16-21 | a ticker is a fund exactly when its normal form ends in four capital letters and "11"; every such ticker also fits the share pattern, so only the test order makes it a fund |
| AssetTypeDetector.DetectCryptoIff | src/lib/services/asset-type-detector.ts:26-34 | a ticker is crypto exactly when its normal form is one of the 30 listed symbols (no listed symbol is B3-shaped, so the earlier tests never take one) |
| AssetTypeDetector.DetectUsStockIff | src/lib/services/asset-type-detector.ts:37 | a ticker is a US share exactly when its normal form is neither B3-shaped nor listed |
| AssetTypeDetector.DetectIgnoresCase | src/lib/services/asset-type-detector.ts:13 | lower-casing or upper-casing the ticker first does not change its class |
| AssetTypeDetector.DetectIgnoresSurroundingSpace | src/lib/services/asset-type-detector.ts:13 | trimming the ticker first does not change its class |
| AssetTypeDetector.FiiSuffix | src/lib/services/asset-type-detector.ts:16-18 | any text ending in four letters of either case and "11" is a fund, whatever precedes it (the pattern is not anchored at the start) |
| AssetTypeDetector.StockDigitSuffix | src/lib/services/asset-type-detector.ts:21-23 | any text ending in four letters and a digit 3..9 is a B3 share |
| AssetTypeDetector.StockTensSuffix | src/lib/services/asset-type-detector.ts:21-23 | any text ending in four letters and "10" or "12" is a B3 share |
| AssetTypeDetector.CryptoSymbolsAreLetters | src/lib/services/asset-type-detector.ts:26-34 | every listed crypto symbol consists of capital letters only |
| AssetTypeDetector.DocumentedFiiExamples | src/lib/services/asset-type-detector.ts:7 | MXRF11 and HGLG11 are funds |
| AssetTypeDetector.DocumentedStockExamples | src/lib/services/asset-type-detector.ts:8 | PETR4 and VALE3 are B3 shares |
| AssetTypeDetector.DocumentedCryptoExample | src/lib/services/asset-type-detector.ts:9 | BTC is crypto |
| AssetTypeDetector.DocumentedUsExample | src/lib/services/asset-type-detector.ts:10 | AAPL is a US share |
| PriceApi.PriceService.constructor | src/lib/services/price-api.ts:16 | the rate-limit map starts empty |
| PriceApi.PriceService.CheckRateLimit | src/lib/services/price-api.ts:21-31 | allowed exactly when at least `limitMs` have passed since the last call (an unseen source counts as 0); an allowed call stamps `now`, a refused one leaves the map unchanged |
| PriceApi.WaitEnd | src/lib/services/price-api.ts:36-44 | the wait ends at once when the limit has passed, otherwise at last call + limit plus the timer's lateness; never before `now` nor before last call + limit |
| PriceApi.PriceService.WaitForRateLimit | src/lib/services/price-api.ts:36-46 | resumes at `WaitEnd` and stamps that time for the source only; other sources unchanged |
| PriceApi.NumberValue | src/lib/services/price-api.ts:64 | a value is read as a price exactly when `typeof` gives "number" |
| PriceApi.FetchBrapi | src/lib/services/price-api.ts:52-73 | stamps the limiter at least 1000 ms after the previous Brapi call; a network error, a non-OK status ("Brapi API error: status") and a body that is not JSON fail with their message; a null body fails with the TypeError of reading `results`; otherwise the price is the numeric `regularMarketPrice` of the first result, with source "Brapi" and the arrival time, and without one the error is "No price data available for" the ticker |
| PriceApi.BrapiReadsFirstResult | src/lib/services/price-api.ts:61-72 | with an OK JSON answer, Brapi succeeds exactly when the first result is an object with a numeric `regularMarketPrice`, and with that price; the error is "No price data" exactly when the body is not null and has no such quote |
| PriceApi.BrapiUsualAnswer | src/lib/services/price-api.ts:61-72 | Brapi's usual answer, `{results: [{regularMarketPrice: p, ..}, ..]}`, yields exactly `p` |
| PriceApi.NullBodyIsTypeError | src/lib/services/price-api.ts:61-62 | a JSON `null` body fails with the TypeError that reading `results` of null throws |
| PriceApi.PriceService.FetchBrapiPrice | src/lib/services/price-api.ts:52-73 | result, new rate-limit map and clock are those of `FetchBrapi` |
| PriceApi.FetchAlphaVantage | src/lib/services/price-api.ts:79-113 | an empty key fails with the exact configuration message, before any wait or request; otherwise stamps the limiter at least 12000 ms on; network error, non-OK status and unparsable body reported; a null body fails with the TypeError of reading `Global Quote`; otherwise, in this order: a truthy `05. price` gives its `parseFloat` from "Alpha Vantage", a truthy `Note` the rate-limit message, a truthy `Error Message` "Alpha Vantage error: " and the message, and anything else "No price data" |
| PriceApi.AlphaBranchOrder | src/lib/services/price-api.ts:94-112 | with a key and an OK JSON answer: success exactly when `Global Quote` has a truthy `05. price`; the rate-limit message exactly when it has none and `Note` is truthy; an "Alpha Vantage error: " message exactly when neither and `Error Message` is truthy; "No price data" exactly when the body is not null and has none of the three |
| PriceApi.PriceService.FetchAlphaVantagePrice | src/lib/services/price-api.ts:79-113 | result, new rate-limit map and clock are those of `FetchAlphaVantage` |
| PriceApi.FetchCoinGecko | src/lib/services/price-api.ts:119-181 | takes a rate-limit slot first, so an unknown ticker still stamps the limiter; a ticker whose upper case is not a coin-map key fails as an unknown coin without a request; for a known coin a network error, non-OK status and unparsable body are reported, a null body fails with the TypeError of reading the coin id, and otherwise the price is a numeric `data[coinId].brl` from "CoinGecko", else "No price data" |
| PriceApi.CoinGeckoReadsBrl | src/lib/services/price-api.ts:169-180 | with a known coin and an OK JSON answer, success exactly when `data[coinId]` is an object with a numeric `brl`, and with that price; "No price data" exactly when the body is not null and has no such price |
| PriceApi.CoinMapCoversCryptoSymbols | src/lib/services/price-api.ts:123-154 | the coin map's keys are exactly the classifier's crypto symbols |
| PriceApi.CryptoHasCoinId | src/lib/services/price-api.ts:156 | for a ticker without surrounding white space, being classified crypto is the same as having a coin id |
| PriceApi.PriceService.FetchCoinGeckoPrice | src/lib/services/price-api.ts:119-181 | result, new rate-limit map and clock are those of `FetchCoinGecko` |
| PriceApi.FetchPriceStep | src/lib/services/price-api.ts:187-214 | never throws: every failure is an error object carrying the input ticker and type; B3 classes go to Brapi, US shares to Alpha Vantage, crypto to CoinGecko, and that provider's entry is stamped at least its limit later (except a US share without a key, which touches nothing) |
| PriceApi.PriceService.FetchPrice | src/lib/services/price-api.ts:187-214 | result, new rate-limit map and clock are those of `FetchPriceStep` |
| PriceApi.SuccessiveCallsSpaced | src/lib/services/price-api.ts:36-46 | two successive fetches through the same provider are stamped at least its limit apart; two US-share fetches without a key change neither the limiter nor the clock |
| PriceApi.UsStockNeedsKey | src/lib/services/price-api.ts:80-82 | without a key a US share yields the key-missing error with the limiter and clock unchanged |
| PriceApi.HttpErrorNamed | src/lib/services/price-api.ts:57-59 | a non-OK status is reported as "<provider> API error: <status>" for the asset's ticker and type |
| PriceApi.PaddedCryptoTickerIsCrypto | src/lib/services/asset-type-detector.ts:13 | " BTC" is classified as crypto, because the classifier trims |
| PriceApi.PaddedCryptoTickerIsUnknownCoin | src/lib/services/price-api.ts:156-159 | the CoinGecko lookup does not trim, so " BTC" fails as an unknown cryptocurrency |
| PriceUpdatesActions.ApiKey | src/lib/actions/price-updates.ts:35 | a missing key setting is passed on as the empty string |
| PriceUpdatesActions.UpdateAssetPriceStep | src/lib/actions/price-updates.ts:14-69 | the table keeps its length and the clock never runs back |
| PriceUpdatesActions.UnknownAssetWritesNothing | src/lib/actions/price-updates.ts:17-23 | an unknown id reports ticker "unknown" with "Asset not found"; table, limiter and clock unchanged |
| PriceUpdatesActions.UpdateTouchesOnlyThatAsset | src/lib/actions/price-updates.ts:28-57 | only rows with that id change, and never in id, category, ticker, name, quantity, target or notes |
| PriceUpdatesActions.UpdateReportsTicker | src/lib/actions/price-updates.ts:38-68 | a found asset's result names its ticker |
| PriceUpdatesActions.UntypedAssetIsClassified | src/lib/actions/price-updates.ts:28-32 | an asset without a type has the detected type stored, whether or not the fetch then succeeds |
| PriceUpdatesActions.StoredTypeIsKept | src/lib/actions/price-updates.ts:28-29 | a stored type is used for the fetch and never rewritten |
| PriceUpdatesActions.FailureKeepsPrices | src/lib/actions/price-updates.ts:38-44 | a failed fetch reports the ticker and the error, and leaves every price, timestamp and source as it was |
| PriceUpdatesActions.SuccessWritesPriceFields | src/lib/actions/price-updates.ts:47-68 | a successful fetch writes price, timestamp and source together; the new price reported and stored is the price the provider returned, and the old price is the row's before the update |
| PriceUpdatesActions.MissingKeyRefusesUsStock | src/lib/actions/price-updates.ts:35-43 | with no stored key a US share fails with the key-missing message |
| PriceUpdatesActions.UpdateAssetPrice | src/lib/actions/price-updates.ts:14-69 | result, asset table, rate limits and clock are those of `UpdateAssetPriceStep` |
| PriceUpdatesActions.UpdateKeepsIdsIssued | src/lib/actions/price-updates.ts:28-57 | an update keeps the ids as AUTOINCREMENT issued them |
| PriceUpdatesActions.BulkRun | src/lib/actions/price-updates.ts:79-85 | after `n` iterations there are `n` results, the table keeps its length, and the clock advanced by at least 500 ms per iteration |
| PriceUpdatesActions.BulkRunNext | src/lib/actions/price-updates.ts:80-81 | each iteration appends the result of updating the next listed asset from the state the earlier ones left |
| PriceUpdatesActions.BulkRunKeepsHoldings | src/lib/actions/price-updates.ts:79-85 | the loop changes no row's holdings |
| PriceUpdatesActions.BulkRunFinds | src/lib/actions/price-updates.ts:80 | after any number of iterations every original row is still found by its id, with its ticker |
| PriceUpdatesActions.ListedAssetsReported | src/lib/actions/price-updates.ts:76-81 | with AUTOINCREMENT ids, every iteration finds its listed asset and reports its ticker (a failure does not stop the loop) |
| PriceUpdatesActions.BulkRunReportsListing | src/lib/actions/price-updates.ts:79-85 | result `i` names the ticker of the `i`-th listed asset |
| PriceUpdatesActions.UpdateAllAssetPricesStep | src/lib/actions/price-updates.ts:75-99 | total equals the number of assets and of results; successful and failed are the counts of each outcome |
| PriceUpdatesActions.CountsAddUp | src/lib/actions/price-updates.ts:87-88 | successful + failed equals the number of results |
| PriceUpdatesActions.BulkResultsFollowListing | src/lib/actions/price-updates.ts:76-85 | one result per asset, in `getAllAssets` order, each naming that asset's ticker |
| PriceUpdatesActions.AttemptIsUpdate | src/lib/actions/price-updates.ts:80 | iteration `n` is `updateAssetPrice` of the `n`-th listed id on the state before it |
| PriceUpdatesActions.UpdateNext | src/lib/actions/price-updates.ts:80-84 | one loop body moves the database, limiter and clock from `BulkRun` at `i` to `BulkRun` at `i + 1` |
| PriceUpdatesActions.UpdateAllAssetPrices | src/lib/actions/price-updates.ts:75-99 | result, asset table, rate limits and clock are those of `UpdateAllAssetPricesStep` |
| PriceUpdatesQueries.DefaultThreshold | src/lib/queries/price-updates.ts:20 | without a stored (or with an empty) interval the threshold is 15 minutes |
| PriceUpdatesQueries.GetPriceUpdateStatus | src/lib/queries/price-updates.ts:14-41 | a missing asset or null timestamp gives needsUpdate with no last update and no minutes; otherwise minutes are elapsed ms / 60000 and needsUpdate holds exactly when elapsed ≥ threshold·60000 (inclusive) |
| PriceUpdatesQueries.MinutesCompare | src/lib/queries/price-updates.ts:33-36 | comparing elapsed minutes with the threshold equals comparing milliseconds with threshold·60000 |
| PriceUpdatesQueries.StaleIds | src/lib/queries/price-updates.ts:51-61 | an id is listed exactly when some row with it has no timestamp or one strictly before the cut-off |
| PriceUpdatesQueries.GetStaleAssets | src/lib/queries/price-updates.ts:46-62 | a NaN threshold or a cut-off outside the `Date` range throws "Invalid time value"; otherwise exactly the ids whose timestamp is null or strictly earlier than now − threshold·60000 |
| PriceUpdatesQueries.StaleIdsIncreasing | src/lib/queries/price-updates.ts:51-61 | with AUTOINCREMENT ids the stale ids come out strictly increasing, hence without repeats |
| PriceUpdatesQueries.GetLastGlobalPriceUpdate | src/lib/queries/price-updates.ts:67-82 | null exactly when no asset has a timestamp; otherwise a timestamp some asset has, and no asset's is later |
| AutoPriceUpdate.EffectStep | src/hooks/use-auto-price-update.ts:21-38 | a run fires only when enabled and not yet run; the flag afterwards is set exactly when it was set or the run fired |
| AutoPriceUpdate.Fires | src/hooks/use-auto-price-update.ts:19-38 | one firing decision per evaluation of the effect |
| AutoPriceUpdate.AutoUpdateHook.constructor | src/hooks/use-auto-price-update.ts:19 | the flag starts false |
| AutoPriceUpdate.AutoUpdateHook.Effect | src/hooks/use-auto-price-update.ts:21-38 | whether it fires and the new flag are those of `EffectStep` |
| AutoPriceUpdate.NothingAfterRun | src/hooks/use-auto-price-update.ts:22 | once the flag is set nothing fires |
| AutoPriceUpdate.FiresAtMostOnce | src/hooks/use-auto-price-update.ts:19-31 | a hook fires at most once over any sequence of evaluations |
| AutoPriceUpdate.DisabledNeverFires | src/hooks/use-auto-price-update.ts:22-24 | a disabled hook never fires |
| AutoPriceUpdate.FirstStaleRunFires | src/hooks/use-auto-price-update.ts:26-31 | evaluations that do not fire leave the hook armed: the first enabled, stale one fires (including one with no prior update) |
| AutoPriceUpdate.StrictUnlikeStatus | src/hooks/use-auto-price-update.ts:28 | exactly `interval` minutes after the last update the status query says an update is needed but the hook does not fire |
| AutoPriceUpdate.FiringMeansEveryAssetStale | src/hooks/use-auto-price-update.ts:26-28 | when the hook fires on the latest global update, every asset is listed as stale by the staleness query |
| DcaPlans.Next | src/lib/actions/dca-plans.ts:25-29 | each step of the schedule is strictly later |
| Calendar.AddWeek | src/lib/actions/dca-plans.ts:26 | a valid day, strictly later |
| Calendar.AddMonth | src/lib/actions/dca-plans.ts:28 | a valid day, strictly later (a day the next month lacks rolls over as `setMonth` does) |
| DcaPlans.NthIncreasing | src/lib/actions/dca-plans.ts:25-29 | later steps reach strictly later days |
| DcaPlans.GenerateEntries | src/lib/actions/dca-plans.ts:7-34 | the result is the schedule: the days the steps reach with the plan amount, stopping at 200, at 52 without an end date, or at the first day past a readable end |
| DcaPlans.ScheduleUnique | src/lib/actions/dca-plans.ts:7-34 | two lists that both meet the schedule are equal |
| DcaPlans.NoEndGivesDefault | src/lib/actions/dca-plans.ts:18 | without an end date exactly 52 entries |
| DcaPlans.UnreadableEndGivesCap | src/lib/actions/dca-plans.ts:10-17 | an end date `new Date` cannot read never stops the loop, so the cap of 200 does |
| DcaPlans.EndDateBoundsEntries | src/lib/actions/dca-plans.ts:16-17 | every entry is on or before the end, the loop stops only at the cap or past the end, and a start after the end gives no entries |
| DcaPlans.FirstEntryIsStart | src/lib/actions/dca-plans.ts:11-23 | the first entry is the start day with the plan amount |
| DcaPlans.EntriesIncrease | src/lib/actions/dca-plans.ts:25-29 | entry days strictly increase, each one step after the one before |
| DcaPlans.PlanErrors | src/lib/validators/dca-plan.ts:3-11 | exactly the fields `dcaPlanSchema` rejects: name length outside 1..100, a non-positive asset id, a non-positive amount, a blank start date, notes over 500 |
| DcaPlans.EntryRows | src/lib/actions/dca-plans.ts:70-79 | one entry row per scheduled entry, with consecutive ids, the plan id, date and amount, not completed |
| DcaPlans.InsertEntries | src/lib/actions/dca-plans.ts:75-81 | appends exactly `EntryRows` and advances the counter by their number, keeping ids issued |
| DcaPlans.InsertPlan | src/lib/actions/dca-plans.ts:54-67 | appends the plan row with the next id and returns that id |
| DcaPlans.InsertSchedule | src/lib/actions/dca-plans.ts:67-81 | the entries table grows by the plan's generated schedule |
| DcaPlans.StorePlan | src/lib/actions/dca-plans.ts:52-84 | inserts the plan row with the next id; with a readable start its schedule follows and the plan id is returned, while an unreadable start throws "Invalid time value" after the plan insert, with no entries |
| DcaPlans.CreateDcaPlan | src/lib/actions/dca-plans.ts:36-85 | a validation failure returns the failing fields and changes nothing; an unknown asset id fails the foreign key with nothing inserted; otherwise the plan row is inserted, then its schedule (or the `toISOString` error for an unreadable start, leaving the plan without entries) |
| DcaPlans.Flip | src/lib/actions/dca-plans.ts:92 | the new value is 0 or 1, and 1 exactly when the old one was not 1 |
| DcaPlans.FlipTwice | src/lib/actions/dca-plans.ts:92 | flipping twice restores the value exactly when it was 0 or 1 |
| DcaPlans.ToggleStep | src/lib/actions/dca-plans.ts:87-100 | an id no entry has fails with "Entry not found"; otherwise the table keeps its length |
| DcaPlans.ToggleFlipsOneEntry | src/lib/actions/dca-plans.ts:92-96 | the entry flips, `completed_at` is set exactly when it becomes 1, and every other row is unchanged |
| DcaPlans.ToggleKeepsIds | src/lib/actions/dca-plans.ts:95-96 | toggling keeps the ids issued |
| DcaPlans.ToggleTwiceRestores | src/lib/actions/dca-plans.ts:92-96 | toggling twice restores the entry's `completed` value when it was 0 or 1 |
| DcaPlans.ToggleDcaEntry | src/lib/actions/dca-plans.ts:87-100 | an unknown id returns the error and changes nothing; otherwise the entries are those of `ToggleStep` |
| DcaPlans.DeletePlanRemovesOnlyIt | src/lib/actions/dca-plans.ts:104 | exactly the other plans, and the other plans' entries (cascade), remain |
| DcaPlans.DeleteDcaPlan | src/lib/actions/dca-plans.ts:102-107 | succeeds, and plans and entries are those of the delete step |
| Slugs.Lower | src/lib/actions/categories.ts:9 | lower-casing keeps the length |
| Slugs.Decompose | src/lib/actions/categories.ts:10 | each character decomposes into one or two |
| Slugs.StripMarks | src/lib/actions/categories.ts:11 | no combining mark remains |
| Slugs.Collapse | src/lib/actions/categories.ts:12 | the output uses only a-z, 0-9 and dashes, never two dashes in a row, is empty exactly when the input is, and keeps a leading letter or digit |
| Slugs.TrimDashesMakesSlug | src/lib/actions/categories.ts:13 | trimming the edge dashes of collapsed text leaves a slug |
| Slugs.SlugifyMakesSlug | src/lib/actions/categories.ts:7-14 | the slug uses only a-z, 0-9 and '-', has no two dashes in a row, and does not start or end with '-' |
| Slugs.SlugifyKeepsSlug | src/lib/actions/categories.ts:7-14 | a slug is its own slug |
| Slugs.SlugifyIdempotent | src/lib/actions/categories.ts:7-14 | slugify(slugify(x)) == slugify(x) |
| Slugs.SlugifyKeepsAlnums | src/lib/actions/categories.ts:9-12 | the letters and digits of the slug are those of the lower-cased name with accents removed, in order |
| Slugs.SeparatorsGiveEmptySlug | src/lib/actions/categories.ts:7-14 | a name gets the empty slug exactly when, lower-cased and with accents taken off, it has no letter `a-z` and no digit |
| CategoriesActions.CategoryErrors | src/lib/validators/category.ts:3-8 | exactly the fields `categorySchema` rejects: name length outside 1..100, an icon over 10, a target outside 0..100 |
| CategoriesActions.CreateCategoryStep | src/lib/actions/categories.ts:16-47 | a validation failure changes nothing; a slug in use throws the UNIQUE error and changes nothing; otherwise exactly one row with the next id is appended |
| CategoriesActions.UpdateCategoryStep | src/lib/actions/categories.ts:49-81 | a validation failure reports its fields and changes nothing; an id no row has succeeds and changes nothing; the UNIQUE slug error is thrown exactly when the form is valid, the row exists and another row has the new slug, and then nothing changes; on success the row with that id is rewritten from the form |
| CategoriesActions.CreateStoresSlug | src/lib/actions/categories.ts:30-41 | a created category stores the slug of its name |
| CategoriesActions.UpdateStoresSlug | src/lib/actions/categories.ts:63-75 | an edited category stores its new name, the slug of that name, its icon (null when empty), target and sort order; other rows stay as they were |
| CategoriesActions.CreateKeepsSlugsDistinct | src/lib/actions/categories.ts:32-41 | creating keeps the slugs distinct |
| CategoriesActions.UpdateKeepsSlugsDistinct | src/lib/actions/categories.ts:65-75 | editing keeps the slugs distinct |
| CategoriesActions.EditKeepsIds | src/lib/actions/categories.ts:65-75 | editing keeps the ids issued |
| CategoriesActions.CreateCategory | src/lib/actions/categories.ts:16-47 | result, table and counter are those of `CreateCategoryStep`, and the database stays valid |
| CategoriesActions.UpdateCategory | src/lib/actions/categories.ts:49-81 | result and table are those of `UpdateCategoryStep`, and the database stays valid |
| CategoriesActions.DetachAll | src/lib/db/schema.ts:55 | a plan naming one of the removed assets keeps every field but its asset, which becomes null; every other plan is unchanged |
| CategoriesActions.DeleteCategoryStep | src/lib/actions/categories.ts:83-90 | an id no row has succeeds and changes nothing; the delete throws the FOREIGN KEY error exactly when the category exists and a snapshot breakdown still names it, and then changes nothing; it never reports a validation or refusal |
| CategoriesActions.DeleteCascades | src/lib/actions/categories.ts:85 | afterwards the category and its assets are gone, every other category and asset remains, a plan that named a removed asset has a null asset and is otherwise unchanged, and every other plan is exactly as it was |
| CategoriesActions.DeleteKeepsIds | src/lib/actions/categories.ts:85 | the delete keeps the ids of every table it rewrites issued |
| CategoriesActions.DeleteCategory | src/lib/actions/categories.ts:83-90 | result and tables are those of `DeleteCategoryStep`, and the database stays valid |
| AssetsActions.AssetErrors | src/lib/validators/asset.ts:3-11 | exactly the fields `assetSchema` rejects: a non-positive category, ticker length outside 1..20, name over 100, a negative quantity or price, a target outside 0..100, notes over 500 |
| AssetsActions.WriteCheck | src/lib/actions/assets.ts:18-35 | a write may go ahead exactly when the form is valid, no other row has the (category, upper-cased ticker) pair and the category exists; an invalid form reports its fields, a taken pair throws the UNIQUE error, and otherwise a missing category throws the FOREIGN KEY error |
| AssetsActions.CreateAssetStep | src/lib/actions/assets.ts:7-40 | succeeds exactly when the checks pass, then appends one row with the next id; otherwise table and counter unchanged |
| AssetsActions.UpdateAssetStep | src/lib/actions/assets.ts:42-77 | an invalid form reports its fields and changes nothing; an id no row has succeeds and changes nothing; for an existing row a taken (category, ticker) pair throws the UNIQUE error and, failing that, a missing category the FOREIGN KEY error, each leaving the table as it was; on success the row with that id is rewritten from the form |
| AssetsActions.CreateStoresUpperTicker | src/lib/actions/assets.ts:29 | a created asset stores the ticker upper-cased, with no type, timestamp or source |
| AssetsActions.UpdateTouchesOnlyThatRow | src/lib/actions/assets.ts:59-72 | an edit rewrites only rows with that id, storing the category, the ticker upper-cased, name and notes (null when empty), quantity, price and target, and keeping type, timestamp and source |
| AssetsActions.EditKeepingPairSucceeds | src/lib/actions/assets.ts:59-72 | editing a row while keeping its own (category, ticker) pair is not a conflict |
| AssetsActions.DetachPlans | src/lib/db/schema.ts:55 | a plan naming the deleted asset keeps every field but its asset, which becomes null; every other plan is unchanged |
| AssetsActions.DeleteAssetStep | src/lib/actions/assets.ts:79-85 | an id no row has changes nothing |
| AssetsActions.DeleteRemovesOnlyIt | src/lib/actions/assets.ts:81 | exactly the other assets remain; when the asset existed, a plan that named it has a null asset and is otherwise unchanged, and every other plan is exactly as it was; an absent id leaves the plans as they were |
| AssetsActions.DeleteKeepsIds | src/lib/actions/assets.ts:81 | the delete keeps asset and plan ids issued |
| AssetsActions.EditKeepsIds | src/lib/actions/assets.ts:59-72 | an edit keeps the asset ids issued |
| AssetsActions.CreateAsset | src/lib/actions/assets.ts:7-40 | result, table and counter are those of `CreateAssetStep` |
| AssetsActions.UpdateAsset | src/lib/actions/assets.ts:42-77 | result and table are those of `UpdateAssetStep` |
| AssetsActions.DeleteAsset | src/lib/actions/assets.ts:79-85 | succeeds, with assets and plans those of `DeleteAssetStep` |
| AssetsQueries.MapRow | src/lib/queries/assets.ts:20-36 | the view's target is the stored percentage / 100 |
| AssetsQueries.MapRowRoundTrip | src/lib/queries/assets.ts:20-36 | the mapping loses nothing: the row is recovered from its view and the view from its row |
| AssetsQueries.GetAllAssets | src/lib/queries/assets.ts:65-69 | every asset exactly once (one view per row, each drawn from a row), in ticker order |
| AssetsQueries.GetAssetById | src/lib/queries/assets.ts:59-63 | null exactly when no row has the id; otherwise the view of the first row with that id |
| AssetsQueries.LookupAgreesWithListing | src/lib/queries/assets.ts:59-69 | with AUTOINCREMENT ids, `getAssetById(a.id)` returns `a` exactly when `getAllAssets` lists `a` |
| AssetsQueries.Values | src/lib/queries/assets.ts:44-48 | each row's value is quantity × price |
| AssetsQueries.GetAssetsByCategory | src/lib/queries/assets.ts:38-57 | the i-th element is the view of the i-th row of the category in ticker order; every row of the category has a view and nothing else does; value is quantity × price, share is value over the category total when that total is positive and 0 otherwise, and gap = share − target |
| AssetsQueries.Share | src/lib/queries/assets.ts:49 | times a positive total the share gives back the value; a total that is not positive gives 0 |
| AssetsQueries.CategorySharesSumToOne | src/lib/queries/assets.ts:44-49 | with a positive category total the assets' shares add up to 1 |
| AssetsQueries.ShareMatchesAllocation | src/lib/queries/assets.ts:44-49 | for every listed asset, whenever the category total is not negative (zero included) the share is `calculateAllocation` of its value; a total that is not positive gives 0 |
| CategoriesQueries.MapRow | src/lib/queries/categories.ts:15-26 | the view's target is the stored percentage / 100; id, name, slug, icon and order pass through |
| CategoriesQueries.GetCategories | src/lib/queries/categories.ts:28-32 | the view of every category and nothing else, one per row, in (sort order, name) order |
| CategoriesQueries.GetCategoryById | src/lib/queries/categories.ts:34-38 | null exactly when no row has the id; otherwise the view of the first row with that id |
| CategoriesQueries.LookupAgreesWithListing | src/lib/queries/categories.ts:28-38 | with AUTOINCREMENT ids, `getCategoryById(c.id)` returns `c` exactly when `getCategories` lists `c` |
| CategoriesQueries.WithAllocations | src/lib/queries/categories.ts:54-66 | one element per row in order; share 0 unless the portfolio total is positive, else value / total; gap = share − target; asset count passed through |
| CategoriesQueries.GetCategoriesWithStats | src/lib/queries/categories.ts:40-67 | one element per category in display order, each carrying that category's own grouped value and asset count |
| CategoriesQueries.SharesSumToOne | src/lib/queries/categories.ts:54-58 | with a positive portfolio total the categories' shares add up to 1 |
| CategoriesQueries.StatsCoverCategories | src/lib/queries/categories.ts:43-52 | every category is listed exactly once |
| CategoriesQueries.PortfolioTotalIsAssetValue | src/lib/queries/categories.ts:43-54 | when every asset belongs to a listed category, the portfolio total is the value of all assets |
| Calculations.Allocation | src/lib/utils/calculations.ts:7-10 | 0 for a zero total, otherwise the share times the total is the value |
| Calculations.AllocationDiff | src/lib/utils/calculations.ts:12-14 | gap + target == current |
| Calculations.AllocationDiffAntisymmetric | src/lib/utils/calculations.ts:12-14 | swapping current and target negates the gap |
| Calculations.CategoryDiffColor | src/lib/utils/calculations.ts:16-19 | muted exactly when abs(diff) < 0.005, emerald exactly when diff ≥ 0.005, red exactly when diff ≤ −0.005 |
| Calculations.ShareInUnitInterval | src/lib/utils/calculations.ts:7-10 | with non-negative values and their positive sum as total, every share lies in [0, 1] |
| Calculations.SharesSumToOne | src/lib/utils/calculations.ts:7-10 | shares of a non-zero total that is their sum add up to 1 |
| Calculations.TotalTargetAdditive | src/lib/utils/calculations.ts:21-23 | the total target of no categories is 0, and of a concatenation the sum of its parts |
| SnapshotsQueries.Evolution | src/lib/queries/snapshots.ts:19-28 | invested + gain == value; with a positive invested amount pct × invested == gain, otherwise pct is 0 |
| SnapshotsQueries.EvolutionSign | src/lib/queries/snapshots.ts:26 | a gain shows as a positive percentage and a loss as a negative one |
| SnapshotsQueries.GetSnapshots | src/lib/queries/snapshots.ts:13-29 | at most `limit` rows (all for a negative limit), newest date first, each the evolution of a stored row |
| SnapshotsQueries.LeftOutAreOlder | src/lib/queries/snapshots.ts:16 | no snapshot left out by the limit is newer than one returned |
| SnapshotsQueries.GetSnapshotById | src/lib/queries/snapshots.ts:31-45 | null exactly when the id is absent; otherwise the evolution of the row with that id |
| SnapshotsQueries.ListingAgreesWithLookup | src/lib/queries/snapshots.ts:19-44 | a snapshot the listing returns is exactly what the lookup by its id returns |
| SnapshotsActions.Invested | src/lib/actions/snapshots.ts:9-21 | NaN is stored as 0, a number as itself |
| SnapshotsActions.BreakdownRows | src/lib/actions/snapshots.ts:30-32 | one breakdown row per category, with that category's value and share |
| SnapshotsActions.InsertBreakdown | src/lib/actions/snapshots.ts:30-32 | appends exactly `BreakdownRows`, keeping ids issued |
| SnapshotsActions.CreateSnapshot | src/lib/actions/snapshots.ts:7-37 | an empty date is refused and a date already recorded throws, both changing nothing; otherwise one snapshot with the portfolio value and invested amount, and its breakdown |
| SnapshotsActions.StoredTotalIsAssetValue | src/lib/actions/snapshots.ts:15-16 | the stored total is the value of every asset when each belongs to a listed category |
| SnapshotsActions.BreakdownAddsUpToTotal | src/lib/actions/snapshots.ts:16-32 | the breakdown's values add up to the stored total |
| SnapshotsActions.BreakdownCoversCategories | src/lib/actions/snapshots.ts:30-32 | the breakdown has exactly one row per category |
| SnapshotsActions.BreakdownSharesSumToOne | src/lib/actions/snapshots.ts:30-32 | with a positive total the breakdown's shares add up to 1 |
| SnapshotsActions.DeleteSnapshotRemovesOnlyIt | src/lib/actions/snapshots.ts:41 | exactly the other snapshots and their breakdown rows remain (cascade) |
| SnapshotsActions.DeleteSnapshot | src/lib/actions/snapshots.ts:39-45 | succeeds, with snapshots and breakdown those of the delete step |
| SettingsActions.Stored | src/lib/actions/settings.ts:9 | a null value is stored as the empty string |
| SettingsActions.Upsert | src/lib/actions/settings.ts:11-14 | the key maps to the value whether or not it existed; keys are the old ones plus it; every other key unchanged |
| SettingsActions.UpsertIdempotent | src/lib/actions/settings.ts:11-14 | repeating the same upsert changes nothing more |
| SettingsActions.UpsertsCompose | src/lib/actions/settings.ts:11-14 | the later of two upserts to a key wins; upserts to different keys commute |
| SettingsActions.UpdateSetting | src/lib/actions/settings.ts:6-19 | the settings become the upsert of the stored value |
| Schema.Insert | src/lib/db/schema.ts:88 | an insert fails with the primary-key error exactly when the key is present, changing nothing; otherwise it adds the pair |
| Schema.AddColumn | src/lib/db/schema.ts:98-100 | adding a column fails exactly when it is present; otherwise it adds it |
| Schema.MigrateNeverOverwrites | src/lib/db/schema.ts:86-110 | no stored value is changed and no column dropped |
| Schema.MigrateWritesOnlyDefaults | src/lib/db/schema.ts:86-110 | whatever is written is one of the defaults or one of the three price columns |
| Schema.FreshSeedCurrency | src/lib/db/schema.ts:86-90 | without currency and dollar rate, currency=BRL and dollar_rate=5.08 are inserted |
| Schema.FreshAddPriceColumns | src/lib/db/schema.ts:93-102 | without the price columns all three are added |
| Schema.FreshSeedPriceSettings | src/lib/db/schema.ts:105-110 | without the three keys, the empty API key, interval 15 and auto-update true are inserted |
| Schema.FreshStoreGetsDefaults | src/lib/db/schema.ts:86-110 | a store with none of the seeded keys and columns gets all of them |
| Schema.NewDatabaseGetsDefaults | src/lib/db/schema.ts:4-110 | a new database is seeded with the defaults and gains the price columns |
| Schema.GuardsSkipSeeding | src/lib/db/schema.ts:86-110 | each step is skipped when its guard key or column is present |
| Schema.MigrateIdempotent | src/lib/db/schema.ts:86-110 | after a successful run a second run changes nothing |
| Schema.OrphanDollarRateFails | src/lib/db/schema.ts:86-90 | a dollar rate without a currency makes the second insert throw, after the currency insert took effect |
| Schema.InsertSetting | src/lib/db/schema.ts:88 | settings and error are those of `Insert` |
| Schema.AddAssetColumn | src/lib/db/schema.ts:98-100 | columns and error are those of `AddColumn` |
| Schema.RunMigrations | src/lib/db/schema.ts:85-110 | settings, columns and the error are those of `Migrate` |
| Database.FindRow | src/lib/queries/assets.ts:61 | nothing exactly when no row has the id; otherwise the first row with that id |
| Database.FindRowUnique | src/lib/db/schema.ts:22 | with AUTOINCREMENT ids, the row found for a row's id is that row |
| Database.UpdateRows | src/lib/actions/assets.ts:59-72 | every row with the id is rewritten, every other row kept, length unchanged |
| Database.FilterMembers | src/lib/actions/assets.ts:81 | a row survives a delete exactly when it was there and is not deleted |
| Database.Db.constructor | src/lib/db/schema.ts:4-83 | every table starts empty, with the base asset columns, and the database is valid |
| Forms.OrNull | src/lib/actions/assets.ts:11-15 | an empty field reads as null, anything else as itself |
| Sorting.SortByPermutes | src/lib/queries/assets.ts:67 | sorting rearranges the rows without adding or dropping any |
| Sorting.SortBySorted | src/lib/queries/assets.ts:67 | sorting by a total preorder yields rows in that order |

## Left out

- Network I/O, `Date.now()`, `new Date()` and `setTimeout` are not modelled. A network call is an `Exchange` value and the clock is an integer parameter. The 500 ms pause of the bulk loop advances that clock by 500.
- Timestamps are integers, not ISO strings, and are compared as integers. For years 0 to 9999 the ISO text order is the time order, which is what the `last_price_update < ?` and `ORDER BY last_price_update DESC` comparisons rely on. As an integer, a timestamp is never the empty string, so `|| null` on an empty timestamp string cannot arise.
- GetStaleAssets: compares the cut-off as an integer, so it agrees with the source only for cut-offs in years 0 to 9999 (at most 253402300799999 ms). Outside that range, `toISOString()` starts with `+` or `-`. Both sort before a digit, so the source lists no timestamped asset there. The model lists every asset stamped before the cut-off. Such a cut-off needs a threshold setting of many millions of minutes, or a negative one.
- Asynchrony is left out. The pipeline awaits every call, so the model runs the calls one after another. The bulk update started by the hook runs detached, and its rejection is only logged by `.catch`. Neither that rejection nor `console.error` is modelled.
- Zod is left out: its messages, `flatten()` and `z.coerce`. A form arrives with its numbers already coerced. A validation failure is reported as the set of rejected field names.
- `parseFloat` is read as `[sign] digits [. digits]` after leading white space. Anything else is NaN (`None`).
- ParseFloat: reads no exponent and no `Infinity`. "1e3" reads as 1, where JavaScript gives 1000. "Infinity" reads as NaN, where JavaScript gives `Infinity`. This affects `totalInvested` in `createSnapshot` and Alpha Vantage's `05. price`.
- ParseInt: reads base 10 only. A radix-less `parseInt` reads a text starting with "0x" or "0X" as hexadecimal, so an update-interval setting of "0x10" is 16 minutes in the source and 0 in the model.
- ParseFloatOf: reads a `05. price` that `parseFloat` cannot read (such as "N/A") as 0. In the source it is NaN, and this is what the source does with it:
  - NaN passes `fetchAlphaVantage`'s truthiness test on the field and is returned as the price.
  - `updateAssetPrice` binds it in the UPDATE. SQLite stores a bound NaN as NULL, so `price REAL NOT NULL` makes the statement throw "NOT NULL constraint failed: assets.price".
  - `updateAssetPrice` rejects. `updateAllAssetPrices` has no try, so it stops at that asset.

  The model stores price 0, reports success and goes on with the next asset. Its reals have no NaN, and modelling the rejection would give every step of the bulk loop an abort path.
- FetchAlphaVantage: succeeds with price 0 for a `05. price` that `parseFloat` cannot read, where the source returns NaN (see ParseFloatOf).
- UpdateAssetPriceStep: writes and reports price 0 for such a quote, where the source throws the NOT NULL error (see ParseFloatOf).
- UpdateAllAssetPrices: goes on after such a quote, where the source's loop stops with the rejection (see ParseFloatOf).
- Numbers render as integers where they appear in a message, such as HTTP status codes.
- Floating point is left out: money, shares and percentages are exact reals.
- DCA dates are proleptic Gregorian calendar days. DateText is an abstraction: the form's date text is `Blank`, `Unparseable`, or an ISO day. Time zones and daylight saving are left out.
- `slugify` models lower-casing and NFD only for ASCII and the Latin-1 letters. The rest of Unicode case mapping and decomposition is not modelled.
- `toUpperCase` and `toLowerCase` map only the ASCII letters in `JsText.ToUpper` and `JsText.ToLower`. The model uses them for the classifier's normal form, the CoinGecko coin-map lookup and the upper-cased ticker `createAsset` and `updateAsset` store. JavaScript applies full Unicode case mapping: 'ç' upper-cases to 'Ç', 'ß' to "SS" (which lengthens the text after the 1 to 20 length check), and the Kelvin sign U+212A lower-cases to 'k'.
- DetectIgnoresCase: holds of the source only for tickers whose letters are ASCII. Under full Unicode mapping, `detect("LIN\u212A")` is a US share but `detect(toLowerCase("LIN\u212A"))`, that is `detect("link")`, is crypto.
- Some form rules cannot fail in the model because the Dafny types rule out the bad input: `frequency` is the datatype `Frequency` (zod's `enum`), and `sortOrder`, `assetId` and `categoryId` are integers (zod's `.int()`). Only the rules a typed value can still break (positive, minimum and maximum, length) are modelled as rejections.
- String lengths count code points, not UTF-16 units.
- Rows that tie under `ORDER BY` keep their rowid order. SQLite does not promise any tie order.
- `created_at` and `updated_at` (`datetime('now')`) are not modelled. Neither is `revalidatePath`.
- The `CREATE TABLE` statements are not executed. Their constraints appear as:
  - the table types;
  - the AUTOINCREMENT invariant;
  - the UNIQUE and FOREIGN KEY checks of the actions;
  - the delete cascades.
- `src/lib/queries/settings.ts` (`getSetting`) is not part of this model; settings are a map that is read directly.
- The rules actions and queries, `queries/dca-plans.ts`, `queries/dashboard.ts`, `db/index.ts`, `utils/currency.ts` and all pages and components are not part of this model.
- `getSnapshots`' default limit of 50 is not modelled; the limit is the caller's argument.
- The `default: Unknown asset type` branch of `fetchPrice` is not modelled. `AssetType` has exactly the four classes, so that branch cannot be reached. `error instanceof Error` always holds for the errors the adapters throw.
- PriceUpdatesActions.BulkRun: states the loop generically, over any update function that keeps the table's length and does not turn the clock back. Its properties are proved for that class, then applied to `updateAssetPrice`.
- DcaPlans.StorePlan: requires a start date that is not blank, which validation guarantees before it is called; `CreateDcaPlan` handles the blank case.
