/** The application's shared record types, as the query layer hands them to callers. */
module Types {
  import opened Wrappers

  /** The four asset classes a ticker is routed by. */
  datatype AssetType = B3Stock | B3Fii | UsStock | Crypto

  /** An asset as the queries return it: the stored row with the target allocation read as a
      fraction (the table stores a percentage). Timestamps are milliseconds since the epoch. */
  datatype Asset = Asset(
    id: int,
    categoryId: int,
    ticker: string,
    name: Option<string>,
    quantity: real,
    price: real,
    targetAllocation: real,
    notes: Option<string>,
    lastPriceUpdate: Option<int>,
    priceSource: Option<string>,
    assetType: Option<AssetType>)

  datatype AssetWithStats = AssetWithStats(
    asset: Asset,
    totalValue: real,
    currentAllocation: real,
    allocationDiff: real)

  datatype Category = Category(
    id: int,
    name: string,
    slug: string,
    icon: Option<string>,
    targetAllocation: real,
    sortOrder: int)

  datatype CategoryWithStats = CategoryWithStats(
    category: Category,
    totalValue: real,
    currentAllocation: real,
    allocationDiff: real,
    assetCount: int)

  datatype SnapshotWithEvolution = SnapshotWithEvolution(
    id: int,
    date: string,
    totalValue: real,
    totalInvested: real,
    notes: Option<string>,
    evolutionPct: real,
    evolutionValue: real)

  /** The outcome of refreshing one asset's price: `success: true` with the old and new price
      and the provider's name, or `success: false` with an error text. */
  datatype PriceUpdateResult =
    | Updated(ticker: string, oldPrice: real, newPrice: real, source: string)
    | NotUpdated(ticker: string, error: string)
  {
    predicate Success() { Updated? }
  }

  datatype BulkPriceUpdateResult = BulkPriceUpdateResult(
    total: nat,
    successful: nat,
    failed: nat,
    results: seq<PriceUpdateResult>)
}
