/** Fetching a quote from the provider for an asset class, behind a per-provider rate limit.
    Time is an explicit clock in milliseconds; each network round trip is an `Exchange`
    supplied by the caller: how late the rate-limit timer fires, how long the request
    takes, and what the server answers. */
module PriceApi {
  import opened Wrappers
  import opened JsText
  import opened Types
  import opened AssetTypeDetector

  // ---------------------------------------------------------------------------
  // Responses

  datatype Json =
    | JNull
    | JBool(b: bool)
    | JNum(n: real)
    | JStr(s: string)
    | JArr(items: seq<Json>)
    | JObj(fields: map<string, Json>)

  /** What `response.json()` yields: a value, or the message of the SyntaxError it throws. */
  datatype Body = Parsed(value: Json) | Unparsable(message: string)

  /** What `fetch` yields: the message of the error it throws, or a response. */
  datatype Reply = NetworkFailure(message: string) | Http(ok: bool, status: nat, body: Body)

  datatype Exchange = Exchange(timerLag: nat, latency: nat, reply: Reply)

  /** The server answered with a success status and a JSON body. */
  predicate AnsweredOk(ex: Exchange) {
    ex.reply.Http? && ex.reply.ok && ex.reply.body.Parsed?
  }

  /** JavaScript truthiness; `None` is `undefined`. JSON has no NaN. */
  predicate Truthy(v: Option<Json>) {
    match v
    case None => false
    case Some(JNull) => false
    case Some(JBool(b)) => b
    case Some(JNum(n)) => n != 0.0
    case Some(JStr(s)) => s != ""
    case Some(_) => true
  }

  /** `v[key]` on a value that is not null. Only objects have the (non-numeric) keys read here. */
  function Member(v: Json, key: string): Option<Json> {
    if v.JObj? && key in v.fields then Some(v.fields[key]) else None
  }

  const TypeErrorStart := "Cannot read properties of null (reading '"

  /** The message of the TypeError that reading `key` of null throws. */
  function NullRead(key: string): (m: string)
    ensures TypeErrorStart <= m
  {
    TypeErrorStart + key + "')"
  }

  /** `v[key]` where `v` may be null: reading a property of null throws a TypeError. */
  function ReadProp(v: Json, key: string): Result<Option<Json>, string> {
    if v.JNull? then Err(NullRead(key))
    else Ok(Member(v, key))
  }

  /** `v?.[key]` */
  function OptMember(v: Option<Json>, key: string): Option<Json> {
    if v.None? || v.value.JNull? then None else Member(v.value, key)
  }

  /** `v?.[0]`: the first element of an array, the first character of a string, or key "0". */
  function OptIndex0(v: Option<Json>): Option<Json> {
    match v
    case Some(JArr(items)) => if items != [] then Some(items[0]) else None
    case Some(JStr(s)) => if s != "" then Some(JStr([s[0]])) else None
    case Some(JObj(m)) => if "0" in m then Some(m["0"]) else None
    case _ => None
  }

  /** The value when `typeof v === 'number'`. */
  function NumberValue(v: Option<Json>): (r: Option<real>)
    ensures r.Some? <==> v.Some? && v.value.JNum?
  {
    if v.Some? && v.value.JNum? then Some(v.value.n) else None
  }

  function Join(parts: seq<string>, sep: string): string {
    if parts == [] then "" else if |parts| == 1 then parts[0] else parts[0] + sep + Join(parts[1..], sep)
  }

  /** `String(v)`, as a template literal renders it; numbers are rendered as integers. */
  function Describe(v: Json): string {
    match v
    case JNull => "null"
    case JBool(b) => if b then "true" else "false"
    case JNum(n) => IntToString(n.Floor)
    case JStr(s) => s
    case JArr(items) =>
      Join(seq(|items|, i requires 0 <= i < |items| => if items[i].JNull? then "" else Describe(items[i])), ",")
    case JObj(_) => "[object Object]"
  }

  /** `parseFloat(v)`: a number is itself, anything else is read from its text; NaN reads as 0. */
  function ParseFloatOf(v: Json): real {
    if v.JNum? then v.n else ParseFloat(Describe(v)).GetOr(0.0)
  }

  // ---------------------------------------------------------------------------
  // Rate limiting

  const BrapiSource := "brapi"
  const BrapiLimitMs := 1000
  const AlphaVantageSource := "alphavantage"
  const AlphaVantageLimitMs := 12000
  const CoinGeckoSource := "coingecko"
  const CoinGeckoLimitMs := 1200

  /** `rateLimits.get(source) || 0` */
  function LastCall(limits: map<string, int>, source: string): int {
    if source in limits then limits[source] else 0
  }

  /** When `waitForRateLimit` resumes: at once if `limitMs` have passed since the last call,
      otherwise once the remaining time (and the timer's lag) has elapsed. */
  function WaitEnd(limits: map<string, int>, source: string, limitMs: int, now: int, lag: nat): (r: int)
    ensures r >= now && r >= LastCall(limits, source) + limitMs
    ensures LastCall(limits, source) + limitMs <= now ==> r == now
    ensures LastCall(limits, source) + limitMs > now ==> r == LastCall(limits, source) + limitMs + lag
  {
    var timeToWait := limitMs - (now - LastCall(limits, source));
    if timeToWait > 0 then now + timeToWait + lag else now
  }

  /** The limiter's promise after a call to `source`: that entry is stamped at least `limitMs`
      after the previous one and no earlier than `now`, and no other entry changes. */
  ghost predicate Stamped(before: map<string, int>, after: map<string, int>, source: string, limitMs: int, now: int) {
    && after.Keys == before.Keys + {source}
    && (forall s :: s in before && s != source ==> after[s] == before[s])
    && after[source] >= LastCall(before, source) + limitMs
    && after[source] >= now
  }

  // ---------------------------------------------------------------------------
  // Providers

  /** The state a provider call leaves: its outcome, the rate-limit map, and the clock. */
  datatype Step<T> = Step(result: T, limits: map<string, int>, clock: int)

  function NoPriceData(ticker: string): string { "No price data available for " + ticker }

  /** `data.results?.[0]?.regularMarketPrice` when it is a number; `Ok(None)` when it is not. */
  function BrapiQuote(data: Json): Result<Option<real>, string> {
    match ReadProp(data, "results")
    case Err(e) => Err(e)
    case Ok(results) =>
      var quote := OptIndex0(results);
      if !Truthy(quote) then Ok(None) else Ok(NumberValue(Member(quote.value, "regularMarketPrice")))
  }

  /** The price a Brapi answer carries: its `results` has a first element, and that element
      is an object whose `regularMarketPrice` is a number. */
  function BrapiPrice(data: Json): Option<real> {
    match OptIndex0(Member(data, "results"))
    case Some(JObj(quote)) =>
      if "regularMarketPrice" in quote && quote["regularMarketPrice"].JNum? then Some(quote["regularMarketPrice"].n)
      else None
    case _ => None
  }

  /** `fetchBrapiPrice`: wait for the limiter, request the quote, read the first result. */
  function FetchBrapi(limits: map<string, int>, ticker: string, now: int, ex: Exchange): (r: Step<Result<PriceData, string>>)
    ensures Stamped(limits, r.limits, BrapiSource, BrapiLimitMs, now)
    ensures r.clock == r.limits[BrapiSource] + ex.latency
    ensures r.result.Ok? ==> r.result.value.source == "Brapi" && r.result.value.timestamp == r.clock
    ensures r.result.Ok? ==> AnsweredOk(ex)
    ensures ex.reply.NetworkFailure? ==> r.result == Err(ex.reply.message)
    ensures ex.reply.Http? && !ex.reply.ok ==> r.result == Err("Brapi API error: " + NatToString(ex.reply.status))
    ensures ex.reply.Http? && ex.reply.ok && ex.reply.body.Unparsable? ==> r.result == Err(ex.reply.body.message)
    ensures AnsweredOk(ex) && ex.reply.body.value.JNull? ==> r.result == Err(NullRead("results"))
    ensures AnsweredOk(ex) && !ex.reply.body.value.JNull? ==>
      r.result == match BrapiPrice(ex.reply.body.value)
                  case Some(p) => Ok(PriceData(p, "Brapi", r.clock))
                  case None => Err(NoPriceData(ticker))
  {
    var resumed := WaitEnd(limits, BrapiSource, BrapiLimitMs, now, ex.timerLag);
    Step(BrapiOutcome(ex.reply, ticker, resumed + ex.latency), limits[BrapiSource := resumed], resumed + ex.latency)
  }

  /** What `fetchBrapiPrice` makes of the reply, when it arrives at `done`. */
  function BrapiOutcome(reply: Reply, ticker: string, done: int): Result<PriceData, string> {
    match reply
    case NetworkFailure(msg) => Err(msg)
    case Http(ok, status, body) =>
      if !ok then Err("Brapi API error: " + NatToString(status))
      else match body
        case Unparsable(msg) => Err(msg)
        case Parsed(data) =>
          match BrapiQuote(data)
          case Err(e) => Err(e)
          case Ok(None) => Err(NoPriceData(ticker))
          case Ok(Some(p)) => Ok(PriceData(p, "Brapi", done))
  }

  const AlphaKeyMissing := "Alpha Vantage API key not configured. Please add it in Settings."
  const AlphaRateLimited := "Alpha Vantage rate limit exceeded. Please wait a minute."
  const AlphaErrorPrefix := "Alpha Vantage error: "

  /** The `05. price` of an Alpha Vantage answer, when `Global Quote` is an object with a
      truthy one. */
  function AlphaPriceField(data: Json): Option<Json> {
    match Member(data, "Global Quote")
    case Some(JObj(quote)) =>
      if "05. price" in quote && Truthy(Some(quote["05. price"])) then Some(quote["05. price"]) else None
    case _ => None
  }

  /** Reading the `GLOBAL_QUOTE` answer: the price if `Global Quote` carries a truthy
      `05. price`, else whichever of `Note` and `Error Message` is present, in that order. */
  function AlphaQuote(data: Json, ticker: string): Result<real, string> {
    match ReadProp(data, "Global Quote")
    case Err(e) => Err(e)
    case Ok(quote) =>
      if !Truthy(quote) || !Truthy(Member(quote.value, "05. price")) then
        if Truthy(Member(data, "Note")) then Err(AlphaRateLimited)
        else if Truthy(Member(data, "Error Message")) then
          Err(AlphaErrorPrefix + Describe(Member(data, "Error Message").value))
        else Err(NoPriceData(ticker))
      else Ok(ParseFloatOf(Member(quote.value, "05. price").value))
  }

  /** `fetchAlphaVantagePrice`: refuse without a key, else wait for the limiter and request. */
  function FetchAlphaVantage(limits: map<string, int>, ticker: string, apiKey: string, now: int, ex: Exchange)
    : (r: Step<Result<PriceData, string>>)
    ensures apiKey == "" ==> r == Step(Err(AlphaKeyMissing), limits, now)
    ensures apiKey != "" ==> Stamped(limits, r.limits, AlphaVantageSource, AlphaVantageLimitMs, now)
    ensures apiKey != "" ==> r.clock == r.limits[AlphaVantageSource] + ex.latency
    ensures r.result.Ok? ==> r.result.value.source == "Alpha Vantage" && r.result.value.timestamp == r.clock
    ensures r.result.Ok? ==> AnsweredOk(ex)
    ensures apiKey != "" && ex.reply.NetworkFailure? ==> r.result == Err(ex.reply.message)
    ensures apiKey != "" && ex.reply.Http? && !ex.reply.ok ==>
      r.result == Err("Alpha Vantage API error: " + NatToString(ex.reply.status))
    ensures apiKey != "" && ex.reply.Http? && ex.reply.ok && ex.reply.body.Unparsable? ==>
      r.result == Err(ex.reply.body.message)
    ensures apiKey != "" && AnsweredOk(ex) && ex.reply.body.value.JNull? ==> r.result == Err(NullRead("Global Quote"))
    ensures apiKey != "" && AnsweredOk(ex) && !ex.reply.body.value.JNull? ==>
      var data := ex.reply.body.value;
      r.result ==
        if AlphaPriceField(data).Some? then Ok(PriceData(ParseFloatOf(AlphaPriceField(data).value), "Alpha Vantage", r.clock))
        else if Truthy(Member(data, "Note")) then Err(AlphaRateLimited)
        else if Truthy(Member(data, "Error Message")) then
          Err(AlphaErrorPrefix + Describe(Member(data, "Error Message").value))
        else Err(NoPriceData(ticker))
  {
    if apiKey == "" then Step(Err(AlphaKeyMissing), limits, now)
    else
      var resumed := WaitEnd(limits, AlphaVantageSource, AlphaVantageLimitMs, now, ex.timerLag);
      Step(AlphaVantageOutcome(ex.reply, ticker, resumed + ex.latency), limits[AlphaVantageSource := resumed],
           resumed + ex.latency)
  }

  /** What `fetchAlphaVantagePrice` makes of the reply, when it arrives at `done`. */
  function AlphaVantageOutcome(reply: Reply, ticker: string, done: int): Result<PriceData, string> {
    match reply
    case NetworkFailure(msg) => Err(msg)
    case Http(ok, status, body) =>
      if !ok then Err("Alpha Vantage API error: " + NatToString(status))
      else match body
        case Unparsable(msg) => Err(msg)
        case Parsed(data) =>
          match AlphaQuote(data, ticker)
          case Err(e) => Err(e)
          case Ok(p) => Ok(PriceData(p, "Alpha Vantage", done))
  }

  /** CoinGecko's ids for the listed symbols. */
  const CoinMap: map<string, string> := map[
    "BTC" := "bitcoin", "ETH" := "ethereum", "BNB" := "binancecoin", "SOL" := "solana",
    "ADA" := "cardano", "XRP" := "ripple", "DOT" := "polkadot", "MATIC" := "matic-network",
    "AVAX" := "avalanche-2", "LINK" := "chainlink", "UNI" := "uniswap", "ATOM" := "cosmos",
    "LTC" := "litecoin", "BCH" := "bitcoin-cash", "XLM" := "stellar", "ALGO" := "algorand",
    "VET" := "vechain", "ICP" := "internet-computer", "FIL" := "filecoin", "SAND" := "the-sandbox",
    "MANA" := "decentraland", "AXS" := "axie-infinity", "THETA" := "theta-token",
    "EGLD" := "elrond-erd-2", "AAVE" := "aave", "EOS" := "eos", "CAKE" := "pancakeswap-token",
    "GRT" := "the-graph", "RUNE" := "thorchain", "FTM" := "fantom"
  ]

  function UnknownCoin(ticker: string): string {
    "Unknown cryptocurrency ticker: " + ticker + ". Please add it manually."
  }

  /** The price a CoinGecko answer carries for `coinId`: `data[coinId]` is an object whose
      `brl` is a number. */
  function CoinPrice(data: Json, coinId: string): Option<real> {
    match Member(data, coinId)
    case Some(JObj(entry)) => if "brl" in entry && entry["brl"].JNum? then Some(entry["brl"].n) else None
    case _ => None
  }

  /** `data[coinId]?.brl` when it is a number. */
  function CoinGeckoQuote(data: Json, coinId: string): Result<Option<real>, string> {
    match ReadProp(data, coinId)
    case Err(e) => Err(e)
    case Ok(entry) => Ok(NumberValue(OptMember(entry, "brl")))
  }

  /** `fetchCoinGeckoPrice`: wait for the limiter, look the upper-cased ticker up, request. */
  function FetchCoinGecko(limits: map<string, int>, ticker: string, now: int, ex: Exchange)
    : (r: Step<Result<PriceData, string>>)
    ensures Stamped(limits, r.limits, CoinGeckoSource, CoinGeckoLimitMs, now)
    ensures ToUpper(ticker) !in CoinMap ==>
      r.result == Err(UnknownCoin(ticker)) && r.clock == r.limits[CoinGeckoSource]
    ensures ToUpper(ticker) in CoinMap ==> r.clock == r.limits[CoinGeckoSource] + ex.latency
    ensures r.result.Ok? ==> r.result.value.source == "CoinGecko" && r.result.value.timestamp == r.clock
    ensures r.result.Ok? ==> AnsweredOk(ex)
    ensures ToUpper(ticker) in CoinMap && ex.reply.NetworkFailure? ==> r.result == Err(ex.reply.message)
    ensures ToUpper(ticker) in CoinMap && ex.reply.Http? && !ex.reply.ok ==>
      r.result == Err("CoinGecko API error: " + NatToString(ex.reply.status))
    ensures ToUpper(ticker) in CoinMap && ex.reply.Http? && ex.reply.ok && ex.reply.body.Unparsable? ==>
      r.result == Err(ex.reply.body.message)
    ensures ToUpper(ticker) in CoinMap && AnsweredOk(ex) && ex.reply.body.value.JNull? ==>
      r.result == Err(NullRead(CoinMap[ToUpper(ticker)]))
    ensures ToUpper(ticker) in CoinMap && AnsweredOk(ex) && !ex.reply.body.value.JNull? ==>
      r.result == match CoinPrice(ex.reply.body.value, CoinMap[ToUpper(ticker)])
                  case Some(p) => Ok(PriceData(p, "CoinGecko", r.clock))
                  case None => Err(NoPriceData(ticker))
  {
    var resumed := WaitEnd(limits, CoinGeckoSource, CoinGeckoLimitMs, now, ex.timerLag);
    var stamped := limits[CoinGeckoSource := resumed];
    var upper := ToUpper(ticker);
    if upper !in CoinMap then Step(Err(UnknownCoin(ticker)), stamped, resumed)
    else Step(CoinGeckoOutcome(ex.reply, ticker, CoinMap[upper], resumed + ex.latency), stamped, resumed + ex.latency)
  }

  /** What `fetchCoinGeckoPrice` makes of the reply for `coinId`, when it arrives at `done`. */
  function CoinGeckoOutcome(reply: Reply, ticker: string, coinId: string, done: int): Result<PriceData, string> {
    match reply
    case NetworkFailure(msg) => Err(msg)
    case Http(ok, status, body) =>
      if !ok then Err("CoinGecko API error: " + NatToString(status))
      else match body
        case Unparsable(msg) => Err(msg)
        case Parsed(data) =>
          match CoinGeckoQuote(data, coinId)
          case Err(e) => Err(e)
          case Ok(None) => Err(NoPriceData(ticker))
          case Ok(Some(p)) => Ok(PriceData(p, "CoinGecko", done))
  }

  // ---------------------------------------------------------------------------
  // Routing

  datatype PriceData = PriceData(price: real, source: string, timestamp: int)

  datatype PriceResult =
    | Priced(data: PriceData)
    | PriceApiError(error: string, ticker: string, assetType: AssetType)

  function ProviderSource(t: AssetType): string {
    match t
    case B3Stock => BrapiSource
    case B3Fii => BrapiSource
    case UsStock => AlphaVantageSource
    case Crypto => CoinGeckoSource
  }

  function ProviderLimitMs(t: AssetType): int {
    match t
    case B3Stock => BrapiLimitMs
    case B3Fii => BrapiLimitMs
    case UsStock => AlphaVantageLimitMs
    case Crypto => CoinGeckoLimitMs
  }

  function ProviderName(t: AssetType): string {
    match t
    case B3Stock => "Brapi"
    case B3Fii => "Brapi"
    case UsStock => "Alpha Vantage"
    case Crypto => "CoinGecko"
  }

  /** A B3 ticker goes to Brapi, and what it throws becomes an error object. */
  function FromBrapi(limits: map<string, int>, ticker: string, t: AssetType, now: int, ex: Exchange): (r: Step<PriceResult>)
    ensures Stamped(limits, r.limits, BrapiSource, BrapiLimitMs, now) && r.clock >= now
    ensures r.result.Priced? ==> r.result.data.source == "Brapi" && r.result.data.timestamp == r.clock && AnsweredOk(ex)
    ensures r.result.PriceApiError? ==> r.result.ticker == ticker && r.result.assetType == t
  {
    var f := FetchBrapi(limits, ticker, now, ex);
    Step(Caught(f.result, ticker, t), f.limits, f.clock)
  }

  /** A US ticker goes to Alpha Vantage, and what it throws becomes an error object. */
  function FromAlphaVantage(limits: map<string, int>, ticker: string, apiKey: string, now: int, ex: Exchange): (r: Step<PriceResult>)
    ensures apiKey == "" ==> r.limits == limits && r.clock == now
    ensures apiKey != "" ==> Stamped(limits, r.limits, AlphaVantageSource, AlphaVantageLimitMs, now)
    ensures r.clock >= now
    ensures r.result.Priced? ==> r.result.data.source == "Alpha Vantage" && r.result.data.timestamp == r.clock && AnsweredOk(ex)
    ensures r.result.PriceApiError? ==> r.result.ticker == ticker && r.result.assetType == UsStock
  {
    var f := FetchAlphaVantage(limits, ticker, apiKey, now, ex);
    Step(Caught(f.result, ticker, UsStock), f.limits, f.clock)
  }

  /** A crypto ticker goes to CoinGecko, and what it throws becomes an error object. */
  function FromCoinGecko(limits: map<string, int>, ticker: string, now: int, ex: Exchange): (r: Step<PriceResult>)
    ensures Stamped(limits, r.limits, CoinGeckoSource, CoinGeckoLimitMs, now) && r.clock >= now
    ensures r.result.Priced? ==> r.result.data.source == "CoinGecko" && r.result.data.timestamp == r.clock && AnsweredOk(ex)
    ensures r.result.PriceApiError? ==> r.result.ticker == ticker && r.result.assetType == Crypto
  {
    var f := FetchCoinGecko(limits, ticker, now, ex);
    Step(Caught(f.result, ticker, Crypto), f.limits, f.clock)
  }

  /** `fetchPrice`: route by asset class and turn every thrown error into an error object. */
  function FetchPriceStep(limits: map<string, int>, ticker: string, t: AssetType, apiKey: string, now: int, ex: Exchange)
    : (r: Step<PriceResult>)
    ensures r.result.PriceApiError? ==> r.result.ticker == ticker && r.result.assetType == t
    ensures r.result.Priced? ==>
      r.result.data.source == ProviderName(t) && r.result.data.timestamp == r.clock
      && AnsweredOk(ex)
    ensures r.clock >= now
    ensures t == UsStock && apiKey == "" ==> r.limits == limits && r.clock == now
    ensures !(t == UsStock && apiKey == "") ==> Stamped(limits, r.limits, ProviderSource(t), ProviderLimitMs(t), now)
  {
    match t
    case B3Stock => FromBrapi(limits, ticker, t, now, ex)
    case B3Fii => FromBrapi(limits, ticker, t, now, ex)
    case UsStock => FromAlphaVantage(limits, ticker, apiKey, now, ex)
    case Crypto => FromCoinGecko(limits, ticker, now, ex)
  }

  /** The `catch` of `fetchPrice`: a thrown error becomes an error object naming the ticker. */
  function Caught(r: Result<PriceData, string>, ticker: string, t: AssetType): PriceResult {
    match r
    case Ok(d) => Priced(d)
    case Err(e) => PriceApiError(e, ticker, t)
  }

  // ---------------------------------------------------------------------------
  // The module-level rate-limit map and the calls that stamp it

  class PriceService {
    var rateLimits: map<string, int>

    constructor ()
      ensures rateLimits == map[]
    {
      rateLimits := map[];
    }

    /** `checkRateLimit`: a call is allowed once `limitMs` have passed since the last one,
        and an allowed call is stamped `now`. */
    method CheckRateLimit(source: string, limitMs: int, now: int) returns (allowed: bool)
      modifies this
      ensures allowed <==> now - LastCall(old(rateLimits), source) >= limitMs
      ensures rateLimits == if allowed then old(rateLimits)[source := now] else old(rateLimits)
    {
      var lastCall := LastCall(rateLimits, source);
      if now - lastCall < limitMs {
        return false;
      }
      rateLimits := rateLimits[source := now];
      return true;
    }

    /** `waitForRateLimit`: sleep out the rest of the limit, then stamp the time of waking. */
    method WaitForRateLimit(source: string, limitMs: int, now: int, lag: nat) returns (resumed: int)
      modifies this
      ensures resumed == WaitEnd(old(rateLimits), source, limitMs, now, lag)
      ensures rateLimits == old(rateLimits)[source := resumed]
    {
      var lastCall := LastCall(rateLimits, source);
      var timeToWait := limitMs - (now - lastCall);
      resumed := now;
      if timeToWait > 0 {
        resumed := now + timeToWait + lag;
      }
      rateLimits := rateLimits[source := resumed];
    }

    method FetchBrapiPrice(ticker: string, now: int, ex: Exchange) returns (result: Result<PriceData, string>, after: int)
      modifies this
      ensures Step(result, rateLimits, after) == FetchBrapi(old(rateLimits), ticker, now, ex)
    {
      var resumed := WaitForRateLimit(BrapiSource, BrapiLimitMs, now, ex.timerLag);
      after := resumed + ex.latency;
      result := BrapiOutcome(ex.reply, ticker, after);
    }

    method FetchAlphaVantagePrice(ticker: string, apiKey: string, now: int, ex: Exchange)
      returns (result: Result<PriceData, string>, after: int)
      modifies this
      ensures Step(result, rateLimits, after) == FetchAlphaVantage(old(rateLimits), ticker, apiKey, now, ex)
    {
      if apiKey == "" {
        return Err(AlphaKeyMissing), now;
      }
      var resumed := WaitForRateLimit(AlphaVantageSource, AlphaVantageLimitMs, now, ex.timerLag);
      after := resumed + ex.latency;
      result := AlphaVantageOutcome(ex.reply, ticker, after);
    }

    method FetchCoinGeckoPrice(ticker: string, now: int, ex: Exchange) returns (result: Result<PriceData, string>, after: int)
      modifies this
      ensures Step(result, rateLimits, after) == FetchCoinGecko(old(rateLimits), ticker, now, ex)
    {
      var resumed := WaitForRateLimit(CoinGeckoSource, CoinGeckoLimitMs, now, ex.timerLag);
      var upper := ToUpper(ticker);
      if upper !in CoinMap {
        return Err(UnknownCoin(ticker)), resumed;
      }
      after := resumed + ex.latency;
      result := CoinGeckoOutcome(ex.reply, ticker, CoinMap[upper], after);
    }

    method FetchPrice(ticker: string, t: AssetType, apiKey: string, now: int, ex: Exchange)
      returns (result: PriceResult, after: int)
      modifies this
      ensures Step(result, rateLimits, after) == FetchPriceStep(old(rateLimits), ticker, t, apiKey, now, ex)
    {
      var fetched: Result<PriceData, string>;
      match t {
        case B3Stock => fetched, after := FetchBrapiPrice(ticker, now, ex);
        case B3Fii => fetched, after := FetchBrapiPrice(ticker, now, ex);
        case UsStock => fetched, after := FetchAlphaVantagePrice(ticker, apiKey, now, ex);
        case Crypto => fetched, after := FetchCoinGeckoPrice(ticker, now, ex);
      }
      result := Caught(fetched, ticker, t);
    }
  }

  // ---------------------------------------------------------------------------
  // Properties

  /** Two successive calls to the same provider are stamped at least its limit apart; without
      a key, two US-share calls touch neither the limiter nor the clock. */
  lemma SuccessiveCallsSpaced(limits: map<string, int>, t1: AssetType, t2: AssetType, tk1: string, tk2: string,
                              key: string, now: int, ex1: Exchange, ex2: Exchange)
    requires ProviderSource(t1) == ProviderSource(t2)
    ensures var s1 := FetchPriceStep(limits, tk1, t1, key, now, ex1);
      var s2 := FetchPriceStep(s1.limits, tk2, t2, key, s1.clock, ex2);
      && (t2 == UsStock && key == "" ==> s2.limits == limits && s2.clock == now)
      && (!(t2 == UsStock && key == "") ==>
            && s2.limits[ProviderSource(t2)] >= s1.limits[ProviderSource(t1)] + ProviderLimitMs(t2)
            && s2.limits[ProviderSource(t2)] >= s1.clock)
  {
  }

  /** Without an Alpha Vantage key a US share is refused at once: no wait, no request. */
  lemma UsStockNeedsKey(limits: map<string, int>, ticker: string, now: int, ex: Exchange)
    ensures FetchPriceStep(limits, ticker, UsStock, "", now, ex)
      == Step(PriceApiError(AlphaKeyMissing, ticker, UsStock), limits, now)
  {
  }

  /** A failed HTTP status is reported with the provider's name and the status code. */
  lemma HttpErrorNamed(limits: map<string, int>, ticker: string, t: AssetType, key: string, now: int, ex: Exchange)
    requires ex.reply.Http? && !ex.reply.ok
    requires t == UsStock ==> key != ""
    requires t == Crypto ==> ToUpper(ticker) in CoinMap
    ensures FetchPriceStep(limits, ticker, t, key, now, ex).result ==
      PriceApiError(
        (match t
         case B3Stock => "Brapi API error: "
         case B3Fii => "Brapi API error: "
         case UsStock => "Alpha Vantage API error: "
         case Crypto => "CoinGecko API error: ") + NatToString(ex.reply.status),
        ticker, t)
  {
  }

  /** With an OK answer, Brapi succeeds exactly when the first result carries a numeric
      `regularMarketPrice`, and with that price; a body other than null without one is
      reported as having no price data, and nothing else is. */
  lemma BrapiReadsFirstResult(limits: map<string, int>, ticker: string, now: int, ex: Exchange)
    requires AnsweredOk(ex)
    ensures var r := FetchBrapi(limits, ticker, now, ex).result;
      var data := ex.reply.body.value;
      && (r.Ok? <==> BrapiPrice(data).Some?)
      && (r.Ok? ==> r.value.price == BrapiPrice(data).value)
      && (r == Err(NoPriceData(ticker)) <==> !data.JNull? && BrapiPrice(data).None?)
  {
    assert NullRead("results")[0] == TypeErrorStart[0] != NoPriceData(ticker)[0];
  }

  /** Brapi's usual answer, `{results: [{regularMarketPrice: p, ..}, ..], ..}`, yields exactly `p`. */
  lemma BrapiUsualAnswer(limits: map<string, int>, ticker: string, t: AssetType, key: string, now: int,
                         lag: nat, latency: nat, status: nat, quote: map<string, Json>, rest: seq<Json>,
                         others: map<string, Json>, p: real)
    requires t == B3Stock || t == B3Fii
    requires "regularMarketPrice" in quote && quote["regularMarketPrice"] == JNum(p)
    requires "results" !in others
    ensures var ex := Exchange(lag, latency, Http(true, status, Parsed(JObj(others["results" := JArr([JObj(quote)] + rest)]))));
      var s := FetchPriceStep(limits, ticker, t, key, now, ex);
      s.result == Priced(PriceData(p, "Brapi", s.clock))
  {
  }

  /** With a key and an OK answer, Alpha Vantage takes a truthy `05. price` first, then a
      `Note` (the rate-limit message), then an `Error Message`, and reports no price data only
      when the body is not null and has none of the three. */
  lemma AlphaBranchOrder(limits: map<string, int>, ticker: string, apiKey: string, now: int, ex: Exchange)
    requires apiKey != "" && AnsweredOk(ex)
    ensures var r := FetchAlphaVantage(limits, ticker, apiKey, now, ex).result;
      var data := ex.reply.body.value;
      var unpriced := !data.JNull? && AlphaPriceField(data).None?;
      && (r.Ok? <==> AlphaPriceField(data).Some?)
      && (r.Ok? ==> r.value.price == ParseFloatOf(AlphaPriceField(data).value))
      && (r == Err(AlphaRateLimited) <==> unpriced && Truthy(Member(data, "Note")))
      && (r.Err? && AlphaErrorPrefix <= r.error <==>
            unpriced && !Truthy(Member(data, "Note")) && Truthy(Member(data, "Error Message")))
      && (r == Err(NoPriceData(ticker)) <==>
            unpriced && !Truthy(Member(data, "Note")) && !Truthy(Member(data, "Error Message")))
  {
    assert NullRead("Global Quote")[0] == TypeErrorStart[0];
    assert TypeErrorStart[0] != AlphaErrorPrefix[0] && TypeErrorStart[0] != NoPriceData(ticker)[0];
    assert AlphaRateLimited[14] != AlphaErrorPrefix[14] && NoPriceData(ticker)[0] != AlphaErrorPrefix[0];
    assert AlphaRateLimited[0] != NoPriceData(ticker)[0];
  }

  /** A JSON `null` body fails with the TypeError that reading its first property throws. */
  lemma NullBodyIsTypeError(limits: map<string, int>, ticker: string, now: int, lag: nat, latency: nat, status: nat)
    ensures var ex := Exchange(lag, latency, Http(true, status, Parsed(JNull)));
      FetchPriceStep(limits, ticker, B3Stock, "", now, ex).result
        == PriceApiError("Cannot read properties of null (reading 'results')", ticker, B3Stock)
  {
  }

  /** With a known coin and an OK answer, CoinGecko succeeds exactly when `data[coinId].brl`
      is a number, and with that price; a body other than null without one is reported as
      having no price data, and nothing else is. */
  lemma CoinGeckoReadsBrl(limits: map<string, int>, ticker: string, now: int, ex: Exchange)
    requires ToUpper(ticker) in CoinMap && AnsweredOk(ex)
    ensures var r := FetchCoinGecko(limits, ticker, now, ex).result;
      var data, coinId := ex.reply.body.value, CoinMap[ToUpper(ticker)];
      && (r.Ok? <==> CoinPrice(data, coinId).Some?)
      && (r.Ok? ==> r.value.price == CoinPrice(data, coinId).value)
      && (r == Err(NoPriceData(ticker)) <==> !data.JNull? && CoinPrice(data, coinId).None?)
  {
    assert NullRead(CoinMap[ToUpper(ticker)])[0] == TypeErrorStart[0] != NoPriceData(ticker)[0];
  }

  /** CoinGecko knows exactly the symbols the classifier lists as crypto. */
  lemma CoinMapCoversCryptoSymbols()
    ensures forall s :: s in CoinMap <==> s in CryptoSymbols
  {
    forall s ensures s in CoinMap <==> s in CryptoSymbols {
      if s in CryptoSymbols {
        var k :| 0 <= k < |CryptoSymbols| && CryptoSymbols[k] == s;
      }
    }
  }

  /** For a ticker without surrounding white space, being classified as crypto is the same as
      having a CoinGecko id. */
  lemma CryptoHasCoinId(ticker: string)
    requires Trim(ToUpper(ticker)) == ToUpper(ticker)
    ensures DetectAssetType(ticker) == Crypto <==> ToUpper(ticker) in CoinMap
  {
    DetectCryptoIff(ticker);
    CoinMapCoversCryptoSymbols();
  }

  /** The classifier trims the ticker before it looks it up: a padded crypto symbol is crypto. */
  lemma PaddedCryptoTickerIsCrypto()
    ensures DetectAssetType(" BTC") == Crypto
  {
    assert ToUpper(" BTC") == " BTC";
    assert " BTC" == [' '] + "BTC";
    assert TrimStart(" BTC") == "BTC";
    assert TrimEnd("BTC") == "BTC";
    DetectCryptoIff(" BTC");
  }

  /** The CoinGecko lookup does not trim: the same padded symbol is reported as an unknown coin. */
  lemma PaddedCryptoTickerIsUnknownCoin(limits: map<string, int>, key: string, now: int, ex: Exchange)
    ensures FetchPriceStep(limits, " BTC", Crypto, key, now, ex).result
      == PriceApiError(UnknownCoin(" BTC"), " BTC", Crypto)
  {
    assert ToUpper(" BTC") == " BTC";
    assert " BTC"[0] == ' ';
    assert " BTC" !in CoinMap;
  }
}
