/**
 * The fetch orchestrator (`YahooFinanceService`): ticker normalisation, then for a price or the
 * metrics of a symbol a fixed ladder — cached answer, outbound gate, throttle, provider, fallback —
 * over the shared store. The provider's three endpoints are inputs: each answers a record of
 * optional fields or fails.
 */
module Finance {
  import opened Js
  import opened Store
  import Cache
  import Limiter

  // ---------------------------------------------------------------------------------------------
  // Ticker normalisation

  /** Removes one trailing `.NS`, `.NSE`, `.BSE`, `.BO` or `.NFO` (the input is already upper-cased). */
  function StripExchange(s: string): (r: string)
    ensures StartsWith(s, r)
    ensures !EndsWith(s, ".NS") && !EndsWith(s, ".NSE") && !EndsWith(s, ".BSE") && !EndsWith(s, ".BO") && !EndsWith(s, ".NFO")
      ==> r == s
    ensures EndsWith(s, ".NS") ==> r + ".NS" == s
  {
    if EndsWith(s, ".NS") then s[..|s| - 3]
    else if EndsWith(s, ".NSE") then s[..|s| - 4]
    else if EndsWith(s, ".BSE") then s[..|s| - 4]
    else if EndsWith(s, ".BO") then s[..|s| - 3]
    else if EndsWith(s, ".NFO") then s[..|s| - 4]
    else s
  }

  /** `normalizeToNSE`: trim, upper-case, drop the exchange suffix, append `.NS`. */
  function NormalizeToNSE(symbol: string): (r: string)
    ensures EndsWith(r, ".NS")
    ensures IsUpper(r) && Trimmed(r)
  {
    var u := Upper(Trim(symbol));
    UpperIsUpper(Trim(symbol));
    UpperKeepsTrimmed(Trim(symbol));
    Suffixed(StripExchange(u), u);
    StripExchange(u) + ".NS"
  }

  /** A prefix of an upper-case trimmed string, followed by `.NS`, is upper-case and trimmed. */
  lemma Suffixed(s: string, u: string)
    requires StartsWith(u, s) && IsUpper(u) && Trimmed(u)
    ensures IsUpper(s + ".NS") && Trimmed(s + ".NS")
  {
    assert forall i :: 0 <= i < |s| ==> s[i] == u[i];
    if s != [] {
      assert (s + ".NS")[0] == u[0];
    }
  }

  lemma UpperKeepsTrimmed(s: string)
    requires Trimmed(s)
    ensures Trimmed(Upper(s))
  {
    if s != [] {
      UpperCharKeepsSpace(s[0]);
      UpperCharKeepsSpace(s[|s| - 1]);
    }
  }

  /** Normalising a normalised ticker changes nothing. */
  lemma NormalizeIdempotent(symbol: string)
    ensures NormalizeToNSE(NormalizeToNSE(symbol)) == NormalizeToNSE(symbol)
  {
    NormalizedIsFixed(NormalizeToNSE(symbol));
  }

  /** A trimmed upper-case ticker ending in `.NS` is its own normal form. */
  lemma NormalizedIsFixed(n: string)
    requires EndsWith(n, ".NS") && IsUpper(n) && Trimmed(n)
    ensures NormalizeToNSE(n) == n
  {
    NormalizeUnfolds(n);
    TrimOfTrimmed(n);
    UpperOfUpper(n);
    StripExchangeOfNse(n);
  }

  lemma NormalizeUnfolds(n: string)
    ensures NormalizeToNSE(n) == StripExchange(Upper(Trim(n))) + ".NS"
  {
  }

  lemma StripExchangeOfNse(n: string)
    requires EndsWith(n, ".NS")
    ensures StripExchange(n) + ".NS" == n
  {
  }

  /** The exchange suffixes `normalizeToNSE` recognises. */
  predicate ExchangeSuffix(suffix: string) {
    suffix == ".NS" || suffix == ".NSE" || suffix == ".BSE" || suffix == ".BO" || suffix == ".NFO"
  }

  /** Whatever the text before it, exactly one recognised suffix is removed. */
  lemma StripsOneSuffix(base: string, suffix: string)
    requires ExchangeSuffix(suffix)
    ensures StripExchange(base + suffix) == base
  {
    var s := base + suffix;
    assert s[..|base|] == base;
    assert s[|s| - |suffix|..] == suffix;
    if suffix == ".NSE" || suffix == ".BSE" || suffix == ".NFO" {
      assert s[|s| - 1] == suffix[3];
    }
    if suffix == ".BSE" {
      assert s[|s| - 4] == '.';
      assert s[|s| - 3] == 'B';
    }
    if suffix == ".BO" || suffix == ".NFO" {
      assert s[|s| - 1] == 'O';
      assert s[|s| - 2] == suffix[|suffix| - 2];
    }
  }

  /**
   * A ticker written with any recognised exchange suffix, in any letter case (`.bo`, `.Nse`), is
   * normalised to its upper-cased base with `.NS`.
   */
  lemma ExchangeSuffixReplaced(base: string, suffix: string)
    requires ExchangeSuffix(Upper(suffix))
    requires base != [] && Trimmed(base)
    ensures NormalizeToNSE(base + suffix) == Upper(base) + ".NS"
  {
    SuffixKeepsTrimmed(base, suffix);
    UpperAppend(base, suffix);
    StripsOneSuffix(Upper(base), Upper(suffix));
    NormalizeUnfolds(base + suffix);
  }

  lemma SuffixKeepsTrimmed(base: string, suffix: string)
    requires ExchangeSuffix(Upper(suffix))
    requires base != [] && Trimmed(base)
    ensures Trim(base + suffix) == base + suffix
  {
    var symbol := base + suffix;
    var last := suffix[|suffix| - 1];
    assert Upper(suffix)[|suffix| - 1] == UpperChar(last);
    UpperCharKeepsSpace(last);
    assert symbol[0] == base[0] && symbol[|symbol| - 1] == last;
    TrimOfTrimmed(symbol);
  }

  /** Only the trimmed text matters. */
  lemma NormalizeAfterTrim(symbol: string)
    ensures NormalizeToNSE(Trim(symbol)) == NormalizeToNSE(symbol)
  {
    TrimIdempotent(symbol);
    NormalizeUnfolds(symbol);
    NormalizeUnfolds(Trim(symbol));
  }

  /** One blank at each end of a trimmed non-empty string is trimmed away. */
  lemma TrimBlankPadded(s: string)
    requires s != [] && Trimmed(s)
    ensures Trim([' '] + s + [' ']) == s
  {
    var p := [' '] + s + [' '];
    assert p[1..] == s + [' '];
    assert TrimStart(p) == s + [' '];
    assert (s + [' '])[..|s|] == s;
    assert TrimEnd(s + [' ']) == TrimEnd(s);
  }

  /** Surrounding blanks and an exchange suffix in any case give the same normal form. */
  lemma PaddedExchangeSuffixReplaced(base: string, suffix: string)
    requires ExchangeSuffix(Upper(suffix))
    requires base != [] && Trimmed(base)
    ensures NormalizeToNSE([' '] + (base + suffix) + [' ']) == Upper(base) + ".NS"
  {
    var symbol := base + suffix;
    SuffixKeepsTrimmed(base, suffix);
    assert Trimmed(Trim(symbol));
    TrimBlankPadded(symbol);
    NormalizeAfterTrim([' '] + symbol + [' ']);
    ExchangeSuffixReplaced(base, suffix);
  }

  /** A ticker without a recognised suffix is only upper-cased and suffixed with `.NS`. */
  lemma PlainTickerSuffixed(base: string)
    requires Trimmed(base)
    requires StripExchange(Upper(base)) == Upper(base)
    ensures NormalizeToNSE(base) == Upper(base) + ".NS"
  {
    TrimOfTrimmed(base);
    NormalizeUnfolds(base);
  }

  // ---------------------------------------------------------------------------------------------
  // Errors and provider answers

  /** A thrown error; `statusCode` 0 stands for an error that carries none. */
  datatype Failure = Failure(statusCode: int, message: string)

  /** InternalServerError and BadRequestError: utils/errors/app.error.ts is not part of this model; their codes are 500 and 400. */
  function InternalServerError(message: string): Failure {
    Failure(500, message)
  }

  function BadRequestError(message: string): Failure {
    Failure(400, message)
  }

  /** What an asynchronous call settles to. */
  datatype Outcome<+T> = Returned(value: T) | Threw(failure: Failure)

  /** The fields of `quote()` the service reads; a `null` quote is all Undefined. */
  datatype Quote = Quote(regularMarketPrice: JsValue, postMarketPrice: JsValue, preMarketPrice: JsValue,
                         trailingPE: JsValue, forwardPE: JsValue)

  /** `chart().meta`; a missing `meta` is all Undefined. */
  datatype ChartMeta = ChartMeta(regularMarketPrice: JsValue, previousClose: JsValue)

  /** The `trailingPE.raw` and `forwardPE.raw` of one `quoteSummary` module; a missing module is all Undefined. */
  datatype Valuation = Valuation(trailingPE: JsValue, forwardPE: JsValue)

  /**
   * The parts of `quoteSummary()` the service reads: three valuation modules,
   * `calendarEvents.earnings.earningsDate[0].fmt` and `.raw`, and
   * `earnings.earningsChart.currentQuarterDate` and `.currentQuarterEstimateDate`.
   */
  datatype Summary = Summary(summaryDetail: Valuation, defaultKeyStatistics: Valuation, price: Valuation,
                             earningsDateFmt: JsValue, earningsDateRaw: JsValue,
                             currentQuarterDate: JsValue, currentQuarterEstimateDate: JsValue)

  /** The provider's three endpoints, by ticker. */
  datatype Provider = Provider(quote: string -> Outcome<Quote>, chart: string -> Outcome<ChartMeta>,
                               quoteSummary: string -> Outcome<Summary>)

  /** A provider request, in the order issued. */
  datatype Call = QuoteCall(ticker: string) | ChartCall(ticker: string) | SummaryCall(ticker: string)

  /** A cache read that the service treats as a hit: a value that is truthy. */
  predicate Hit(response: Option<Value>) {
    response.Some? && ValueTruthy(response.value)
  }

  // ---------------------------------------------------------------------------------------------
  // fetchPrice

  const RateLimitMessage := "External API rate limit exceeded. Please try again later."
  const ThrottleMessage := "Please wait before fetching data again"

  /** The `catch` of `fetchPrice`: an error with a status code passes unchanged, anything else becomes a 500. */
  function PriceCatch(e: Failure, symbol: string): (r: Failure)
    ensures r.statusCode != 0
    ensures e.statusCode != 0 ==> r == e
    ensures e.statusCode == 0 ==> r.statusCode == 500 && (e.message != "" ==> r.message == e.message)
  {
    if e.statusCode != 0 then e
    else InternalServerError(if e.message != "" then e.message else "Failed to fetch price for " + symbol)
  }

  /** `regularMarketPrice ?? postMarketPrice ?? preMarketPrice` */
  function QuotePrice(q: Quote): (r: JsValue)
    ensures !Nullish(q.regularMarketPrice) ==> r == q.regularMarketPrice
    ensures Nullish(q.regularMarketPrice) && !Nullish(q.postMarketPrice) ==> r == q.postMarketPrice
    ensures Nullish(q.regularMarketPrice) && Nullish(q.postMarketPrice) ==> r == q.preMarketPrice
  {
    Coalesce(Coalesce(q.regularMarketPrice, q.postMarketPrice), q.preMarketPrice)
  }

  /** `fetchFromChartAPI`: the chart's latest or previous-close price when it is a number, else null. */
  function FetchFromChart(provider: Provider, ticker: string): (r: Outcome<JsValue>)
    ensures r.Returned? ==> IsNumber(r.value) || r.value == Null
    ensures provider.chart(ticker).Threw? <==> r.Threw?
    ensures r.Returned? && IsNumber(r.value) ==>
      var meta := provider.chart(ticker).value;
      r.value == (if Nullish(meta.regularMarketPrice) then meta.previousClose else meta.regularMarketPrice)
  {
    match provider.chart(ticker)
    case Threw(e) => Threw(e)
    case Returned(meta) =>
      var price := Coalesce(meta.regularMarketPrice, meta.previousClose);
      Returned(if IsNumber(price) then price else Null)
  }

  datatype PriceRun = PriceRun(db: Db, result: Outcome<JsValue>, calls: seq<Call>)

  /** The provider part of `fetchPrice`, from the state the throttle left. */
  function PriceFromProvider(db: Db, ttls: Cache.TtlConfig, provider: Provider, symbol: string, ticker: string): (r: PriceRun)
    ensures r.result.Threw? ==> r.result.failure.statusCode != 0
    ensures 1 <= |r.calls| <= 2 && r.calls[0] == QuoteCall(ticker)
    ensures r.result.Returned? ==> IsNumber(r.result.value)
  {
    match provider.quote(ticker)
    case Threw(e) => PriceRun(db, Threw(PriceCatch(e, symbol)), [QuoteCall(ticker)])
    case Returned(q) =>
      var price := QuotePrice(q);
      if IsNumber(price) then
        PriceRun(Cache.CachePriceStep(db, ttls, ticker, price), Returned(price), [QuoteCall(ticker)])
      else
        var calls := [QuoteCall(ticker), ChartCall(ticker)];
        match FetchFromChart(provider, ticker)
        case Threw(e) => PriceRun(db, Threw(PriceCatch(e, symbol)), calls)
        case Returned(chartPrice) =>
          if IsNumber(chartPrice) then PriceRun(db, Returned(chartPrice), calls)
          else PriceRun(db, Threw(PriceCatch(BadRequestError("Price not found for " + symbol), symbol)), calls)
  }

  /** `fetchPrice(symbol)`: the ladder on the normalised ticker. */
  function FetchPriceSpec(db: Db, ttls: Cache.TtlConfig, provider: Provider, symbol: string): (r: PriceRun)
    ensures r.result.Threw? ==> r.result.failure.statusCode != 0
    ensures |r.calls| <= 2 && (r.calls != [] ==> r.calls[0] == QuoteCall(NormalizeToNSE(symbol)))
  {
    PriceLadder(db, ttls, provider, symbol, NormalizeToNSE(symbol))
  }

  /** The read of `price:<ticker>`: a truthy cached value is the answer. */
  function PriceLadder(db: Db, ttls: Cache.TtlConfig, provider: Provider, symbol: string, ticker: string): (r: PriceRun)
    ensures r.result.Threw? ==> r.result.failure.statusCode != 0
    ensures |r.calls| <= 2 && (r.calls != [] ==> r.calls[0] == QuoteCall(ticker))
  {
    var (d1, response) := Cache.GetCachePriceStep(db, ticker);
    if Hit(response) then PriceRun(d1, Returned(Field(response.value, "price")), [])
    else PriceGate(d1, ttls, provider, symbol, ticker)
  }

  /** The outbound gate: a refusal is the rate-limit error. */
  function PriceGate(db: Db, ttls: Cache.TtlConfig, provider: Provider, symbol: string, ticker: string): (r: PriceRun)
    ensures r.result.Threw? ==> r.result.failure.statusCode != 0
    ensures |r.calls| <= 2 && (r.calls != [] ==> r.calls[0] == QuoteCall(ticker))
  {
    var (d2, canProcess) := Limiter.ExternalStep(db, Limiter.Yahoo);
    if !canProcess then PriceRun(d2, Threw(PriceCatch(InternalServerError(RateLimitMessage), symbol)), [])
    else PriceThrottle(d2, ttls, provider, symbol, ticker)
  }

  /** The throttle: while its flag is up, a stale cached price or the "please wait" error. */
  function PriceThrottle(db: Db, ttls: Cache.TtlConfig, provider: Provider, symbol: string, ticker: string): (r: PriceRun)
    ensures r.result.Threw? ==> r.result.failure.statusCode != 0
    ensures |r.calls| <= 2 && (r.calls != [] ==> r.calls[0] == QuoteCall(ticker))
  {
    var (d3, canFetch) := Limiter.ThrottleStep(db, PriceFlag(ticker), 500);
    if !canFetch then
      var (d4, stale) := Cache.GetCachePriceStep(d3, ticker);
      if Hit(stale) then PriceRun(d4, Returned(Field(stale.value, "price")), [])
      else PriceRun(d4, Threw(PriceCatch(BadRequestError(ThrottleMessage), symbol)), [])
    else PriceFromProvider(d3, ttls, provider, symbol, ticker)
  }

  /** The throttle flag of a price or a metrics fetch. */
  function PriceFlag(ticker: string): string {
    "yahoo:" + ticker
  }

  function MetricsFlag(ticker: string): string {
    "yahoo:metrics:" + ticker
  }

  // ---------------------------------------------------------------------------------------------
  // fetchMetrics

  datatype Metrics = Metrics(peRatio: JsValue, latestEarnings: JsValue)

  /** The sentinel pair. */
  const NotAvailable := Metrics(Str("N/A"), Str("N/A"))

  /** The `catch` of `fetchMetrics`: an error with a status code is rethrown, any other gives the sentinel. */
  function MetricsCatch(e: Failure): (r: Outcome<Metrics>)
    ensures r.Threw? <==> e.statusCode != 0
    ensures r.Threw? ==> r.failure == e
    ensures r.Returned? ==> r.value == NotAvailable
  {
    if e.statusCode != 0 then Threw(e) else Returned(NotAvailable)
  }

  /** `{peRatio: response.peRatio, latestEarnings: response.latestEarnings}` on a parsed cached value. */
  function FromCache(v: Value): Metrics {
    Metrics(Field(v, "peRatio"), Field(v, "latestEarnings"))
  }

  /** `summaryDetail → defaultKeyStatistics → price`, first non-nullish wins. */
  function Chain(a: JsValue, b: JsValue, c: JsValue): (r: JsValue)
    ensures !Nullish(a) ==> r == a
    ensures Nullish(a) && !Nullish(b) ==> r == b
    ensures Nullish(a) && Nullish(b) ==> r == c
  {
    Coalesce(Coalesce(a, b), c)
  }

  function TrailingPE(qs: Summary): JsValue {
    Chain(qs.summaryDetail.trailingPE, qs.defaultKeyStatistics.trailingPE, qs.price.trailingPE)
  }

  function ForwardPE(qs: Summary): JsValue {
    Chain(qs.summaryDetail.forwardPE, qs.defaultKeyStatistics.forwardPE, qs.price.forwardPE)
  }

  /** `typeof qt?.x === 'number' ? qt.x : current` */
  function FromQuote(quoted: JsValue, current: JsValue): (r: JsValue)
    ensures IsNumber(quoted) ==> r == quoted
    ensures !IsNumber(quoted) ==> r == current
  {
    if IsNumber(quoted) then quoted else current
  }

  /** The `peRatio` of the result: trailing P/E, else forward P/E, as text, else "N/A". */
  function PeText(trailingPE: JsValue, forwardPE: JsValue, host: Host): (r: JsValue)
    ensures r.Str?
    ensures IsNumber(trailingPE) ==> r == Str(ToText(trailingPE, host))
    ensures !IsNumber(trailingPE) && IsNumber(forwardPE) ==> r == Str(ToText(forwardPE, host))
    ensures !IsNumber(trailingPE) && !IsNumber(forwardPE) ==> r == Str("N/A")
  {
    if IsNumber(trailingPE) then Str(ToText(trailingPE, host))
    else if IsNumber(forwardPE) then Str(ToText(forwardPE, host))
    else Str("N/A")
  }

  /** `new Date(x)` keeps a finite time value within 8.64e15 ms, truncated to a whole number. */
  const MaxTimeValue: real := 8640000000000000.0

  /** Truncation toward zero. */
  function Truncate(x: real): (r: int)
    ensures x >= 0.0 ==> r == x.Floor
    ensures x < 0.0 ==> r == -((-x).Floor)
  {
    if x >= 0.0 then x.Floor else -((-x).Floor)
  }

  function Prefix(s: string, n: nat): (r: string)
    ensures |r| == if |s| <= n then |s| else n
    ensures StartsWith(s, r)
  {
    if |s| <= n then s else s[..n]
  }

  /** The error `toISOString` raises on an invalid date; it carries no status code. */
  const InvalidTimeValue := Failure(0, "Invalid time value")

  /**
   * `new Date(raw * 1000).toISOString().slice(0, 10)`: the product is a number; outside the
   * range of dates (or NaN, or an infinity) `toISOString` throws.
   */
  function IsoDay(raw: JsValue, host: Host): (r: Outcome<JsValue>)
    ensures r.Returned? ==> r.value.Str? && |r.value.s| <= 10
    ensures r.Threw? ==> r.failure == InvalidTimeValue
  {
    match ToNumber(raw, host)
    case Num(x) =>
      var ms := x * 1000.0;
      if -MaxTimeValue <= ms <= MaxTimeValue then Returned(Str(Prefix(host.isoString(Truncate(ms)), 10)))
      else Threw(InvalidTimeValue)
    case _ => Threw(InvalidTimeValue)
  }

  /**
   * The earnings date: calendar `fmt`, else calendar `raw` as an ISO day, else an earnings-chart
   * string; the `latestEarnings` field then falls back to "N/A".
   */
  function EarningsDate(qs: Summary, host: Host): (r: Outcome<JsValue>)
    ensures Truthy(qs.earningsDateFmt) ==> r == Returned(qs.earningsDateFmt)
    ensures r.Threw? ==> !Truthy(qs.earningsDateFmt) && Truthy(qs.earningsDateRaw) && r.failure == InvalidTimeValue
  {
    var first :=
      if Truthy(qs.earningsDateFmt) then Returned(qs.earningsDateFmt)
      else if Truthy(qs.earningsDateRaw) then IsoDay(qs.earningsDateRaw, host)
      else Returned(Undefined);
    match first
    case Threw(e) => Threw(e)
    case Returned(date) =>
      if Truthy(date) then Returned(date)
      else
        var next := Or(qs.currentQuarterDate, qs.currentQuarterEstimateDate);
        Returned(if next.Str? then next else date)
  }

  datatype MetricsRun = MetricsRun(db: Db, result: Outcome<Metrics>, calls: seq<Call>)

  /** Result assembly and the cache write, once both P/E values are settled. */
  function Assembled(db: Db, ttls: Cache.TtlConfig, host: Host, ticker: string, qs: Summary,
                     trailingPE: JsValue, forwardPE: JsValue, calls: seq<Call>): (r: MetricsRun)
    ensures r.calls == calls
    ensures r.result.Threw? ==> false
    ensures r.result.Returned? && r.result.value != NotAvailable ==>
      r.result.value.peRatio == PeText(trailingPE, forwardPE, host) && Truthy(r.result.value.latestEarnings)
  {
    match EarningsDate(qs, host)
    case Threw(e) => MetricsRun(db, MetricsCatch(e), calls)
    case Returned(date) =>
      var result := Metrics(PeText(trailingPE, forwardPE, host), Or(date, Str("N/A")));
      MetricsRun(Cache.CacheMetricsStep(db, ttls, ticker, result.peRatio, result.latestEarnings), Returned(result), calls)
  }

  /** The provider part of `fetchMetrics`, from the state the throttle left. */
  function MetricsFromProvider(db: Db, ttls: Cache.TtlConfig, host: Host, provider: Provider, ticker: string): (r: MetricsRun)
    ensures r.result.Threw? ==> r.result.failure.statusCode != 0
    ensures 1 <= |r.calls| <= 2 && r.calls[0] == SummaryCall(ticker)
  {
    match provider.quoteSummary(ticker)
    case Threw(e) => MetricsRun(db, MetricsCatch(e), [SummaryCall(ticker)])
    case Returned(qs) =>
      var trailingPE := TrailingPE(qs);
      var forwardPE := ForwardPE(qs);
      if !IsNumber(trailingPE) && !IsNumber(forwardPE) then
        var calls := [SummaryCall(ticker), QuoteCall(ticker)];
        match provider.quote(ticker)
        case Threw(e) => MetricsRun(db, MetricsCatch(e), calls)
        case Returned(qt) =>
          Assembled(db, ttls, host, ticker, qs, FromQuote(qt.trailingPE, trailingPE), FromQuote(qt.forwardPE, forwardPE), calls)
      else Assembled(db, ttls, host, ticker, qs, trailingPE, forwardPE, [SummaryCall(ticker)])
  }

  /** `fetchMetrics(symbol)`: the ladder on the normalised ticker. */
  function FetchMetricsSpec(db: Db, ttls: Cache.TtlConfig, host: Host, provider: Provider, symbol: string): (r: MetricsRun)
    ensures r.result.Threw? ==> r.result.failure.statusCode != 0
    ensures |r.calls| <= 2 && (r.calls != [] ==> r.calls[0] == SummaryCall(NormalizeToNSE(symbol)))
  {
    MetricsLadder(db, ttls, host, provider, NormalizeToNSE(symbol))
  }

  /** The read of `metrics:<ticker>`: a truthy cached value is the answer. */
  function MetricsLadder(db: Db, ttls: Cache.TtlConfig, host: Host, provider: Provider, ticker: string): (r: MetricsRun)
    ensures r.result.Threw? ==> r.result.failure.statusCode != 0
    ensures |r.calls| <= 2 && (r.calls != [] ==> r.calls[0] == SummaryCall(ticker))
  {
    var (d1, response) := Cache.GetCacheMetricsStep(db, ticker);
    if Hit(response) then MetricsRun(d1, Returned(FromCache(response.value)), [])
    else MetricsGate(d1, ttls, host, provider, ticker)
  }

  /** The outbound gate: a refusal gives the sentinel. */
  function MetricsGate(db: Db, ttls: Cache.TtlConfig, host: Host, provider: Provider, ticker: string): (r: MetricsRun)
    ensures r.result.Threw? ==> r.result.failure.statusCode != 0
    ensures |r.calls| <= 2 && (r.calls != [] ==> r.calls[0] == SummaryCall(ticker))
  {
    var (d2, canProcess) := Limiter.ExternalStep(db, Limiter.Yahoo);
    if !canProcess then MetricsRun(d2, Returned(NotAvailable), [])
    else MetricsThrottle(d2, ttls, host, provider, ticker)
  }

  /** The throttle: while its flag is up, stale cached metrics or the sentinel. */
  function MetricsThrottle(db: Db, ttls: Cache.TtlConfig, host: Host, provider: Provider, ticker: string): (r: MetricsRun)
    ensures r.result.Threw? ==> r.result.failure.statusCode != 0
    ensures |r.calls| <= 2 && (r.calls != [] ==> r.calls[0] == SummaryCall(ticker))
  {
    var (d3, canFetch) := Limiter.ThrottleStep(db, MetricsFlag(ticker), 500);
    if !canFetch then
      var (d4, stale) := Cache.GetCacheMetricsStep(d3, ticker);
      if Hit(stale) then MetricsRun(d4, Returned(FromCache(stale.value)), [])
      else MetricsRun(d4, Returned(NotAvailable), [])
    else MetricsFromProvider(d3, ttls, host, provider, ticker)
  }

  // ---------------------------------------------------------------------------------------------
  // The service

  class YahooFinanceService {
    const cache: Cache.RedisCacheService
    const limiter: Limiter.RateLimiter
    const provider: Provider
    const host: Host

    /** The cache and the limiter talk to the same connection. */
    predicate Shared() {
      cache.store == limiter.store
    }

    constructor (cache: Cache.RedisCacheService, limiter: Limiter.RateLimiter, provider: Provider, host: Host)
      requires cache.store == limiter.store
      ensures this.cache == cache && this.limiter == limiter && this.provider == provider && this.host == host
      ensures Shared()
    {
      this.cache, this.limiter, this.provider, this.host := cache, limiter, provider, host;
    }

    method FetchPrice(symbol: string) returns (r: Outcome<JsValue>)
      requires Shared()
      modifies cache.store
      ensures var run := FetchPriceSpec(old(cache.store.State()), cache.ttls, provider, symbol);
        cache.store.State() == run.db && r == run.result
    {
      var ticker := NormalizeToNSE(symbol);
      var response := cache.GetCachePrice(ticker);
      if Hit(response) {
        return Returned(Field(response.value, "price"));
      }
      var canProcess := limiter.CheckExternalApiLimit(Limiter.Yahoo);
      if !canProcess {
        return Threw(PriceCatch(InternalServerError(RateLimitMessage), symbol));
      }
      var canFetch := limiter.Throttle(PriceFlag(ticker), 500);
      if !canFetch {
        var stale := cache.GetCachePrice(ticker);
        if Hit(stale) {
          return Returned(Field(stale.value, "price"));
        }
        return Threw(PriceCatch(BadRequestError(ThrottleMessage), symbol));
      }
      r := PriceFromSource(symbol, ticker);
    }

    /** The provider part of `fetchPrice`, once the gate and the throttle have let the call through. */
    method PriceFromSource(symbol: string, ticker: string) returns (r: Outcome<JsValue>)
      requires Shared()
      modifies cache.store
      ensures var run := PriceFromProvider(old(cache.store.State()), cache.ttls, provider, symbol, ticker);
        cache.store.State() == run.db && r == run.result
    {
      var quote := provider.quote(ticker);
      if quote.Threw? {
        return Threw(PriceCatch(quote.failure, symbol));
      }
      var price := QuotePrice(quote.value);
      if !IsNumber(price) {
        var chartPrice := FetchFromChart(provider, ticker);
        if chartPrice.Threw? {
          return Threw(PriceCatch(chartPrice.failure, symbol));
        }
        if IsNumber(chartPrice.value) {
          return chartPrice;
        }
        return Threw(PriceCatch(BadRequestError("Price not found for " + symbol), symbol));
      }
      cache.CachePrice(ticker, price);
      return Returned(price);
    }

    method FetchMetrics(symbol: string) returns (r: Outcome<Metrics>)
      requires Shared()
      modifies cache.store
      ensures var run := FetchMetricsSpec(old(cache.store.State()), cache.ttls, host, provider, symbol);
        cache.store.State() == run.db && r == run.result
    {
      var ticker := NormalizeToNSE(symbol);
      var response := cache.GetCacheMetrics(ticker);
      if Hit(response) {
        return Returned(FromCache(response.value));
      }
      var canProcess := limiter.CheckExternalApiLimit(Limiter.Yahoo);
      if !canProcess {
        return Returned(NotAvailable);
      }
      var canFetch := limiter.Throttle(MetricsFlag(ticker), 500);
      if !canFetch {
        var stale := cache.GetCacheMetrics(ticker);
        if Hit(stale) {
          return Returned(FromCache(stale.value));
        }
        return Returned(NotAvailable);
      }
      r := MetricsFromSource(ticker);
    }

    /** The provider part of `fetchMetrics`, once the gate and the throttle have let the call through. */
    method MetricsFromSource(ticker: string) returns (r: Outcome<Metrics>)
      requires Shared()
      modifies cache.store
      ensures var run := MetricsFromProvider(old(cache.store.State()), cache.ttls, host, provider, ticker);
        cache.store.State() == run.db && r == run.result
    {
      var answer := provider.quoteSummary(ticker);
      if answer.Threw? {
        return MetricsCatch(answer.failure);
      }
      var qs := answer.value;
      var trailingPE := TrailingPE(qs);
      var forwardPE := ForwardPE(qs);
      if !IsNumber(trailingPE) && !IsNumber(forwardPE) {
        var qt := provider.quote(ticker);
        if qt.Threw? {
          return MetricsCatch(qt.failure);
        }
        trailingPE := FromQuote(qt.value.trailingPE, trailingPE);
        forwardPE := FromQuote(qt.value.forwardPE, forwardPE);
      }
      var earningsDate := ResolveEarningsDate(qs);
      if earningsDate.Threw? {
        return MetricsCatch(earningsDate.failure);
      }
      var result := Metrics(PeText(trailingPE, forwardPE, host), Or(earningsDate.value, Str("N/A")));
      cache.CacheMetrics(ticker, result.peRatio, result.latestEarnings);
      return Returned(result);
    }

    /** The earnings date, settled step by step as `fetchMetrics` reassigns it. */
    method ResolveEarningsDate(qs: Summary) returns (r: Outcome<JsValue>)
      ensures r == EarningsDate(qs, host)
    {
      var earningsDate: JsValue;
      if Truthy(qs.earningsDateFmt) {
        earningsDate := qs.earningsDateFmt;
      } else if Truthy(qs.earningsDateRaw) {
        var day := IsoDay(qs.earningsDateRaw, host);
        if day.Threw? {
          return day;
        }
        earningsDate := day.value;
      } else {
        earningsDate := Undefined;
      }
      if !Truthy(earningsDate) {
        var next := Or(qs.currentQuarterDate, qs.currentQuarterEstimateDate);
        if next.Str? {
          earningsDate := next;
        }
      }
      return Returned(earningsDate);
    }
  }

  // ---------------------------------------------------------------------------------------------
  // Properties of the ladder

  const YahooKey := Limiter.ExternalKey(Limiter.Yahoo)

  /** The outbound counter would still let a call through. */
  predicate GateOpen(db: Db) {
    Limiter.Countable(db, YahooKey) && Limiter.Prior(db, YahooKey) < Limiter.MaxExternalCalls
  }

  /** The outbound counter has used the window up. */
  predicate GateClosed(db: Db) {
    Limiter.Countable(db, YahooKey) && Limiter.Prior(db, YahooKey) >= Limiter.MaxExternalCalls
  }

  /** The state after the outbound check and the throttle, when the first cache read has missed. */
  function Admit(db: Db, flag: string): Db {
    Limiter.ThrottleStep(Limiter.ExternalStep(Answered(db), Limiter.Yahoo).0, flag, 500).0
  }

  /**
   * On a healthy store, a cache miss with the gate open and no throttle flag goes through: the
   * counter is consumed, the flag armed, and the cache key is still absent.
   */
  lemma {:induction false} PassesGateAndThrottle(db: Db, cacheKey: string, flag: string)
    requires Up(db) && cacheKey !in db.data && GateOpen(db) && Limiter.ThrottleKey(flag) !in db.data
    requires cacheKey != YahooKey && cacheKey != Limiter.ThrottleKey(flag)
    ensures Cache.CacheGet(db, cacheKey) == (Answered(db), None)
    ensures Limiter.ExternalStep(Answered(db), Limiter.Yahoo).1
    ensures Limiter.ThrottleStep(Limiter.ExternalStep(Answered(db), Limiter.Yahoo).0, flag, 500).1
    ensures var d3 := Admit(db, flag);
      && Up(d3) && d3.now == db.now && cacheKey !in d3.data
      && Limiter.Prior(d3, YahooKey) == Limiter.Prior(db, YahooKey) + 1
  {
    var d1 := Answered(db);
    Limiter.ExternalDecision(d1, Limiter.Yahoo);
    var d2 := Limiter.ExternalStep(d1, Limiter.Yahoo).0;
    Limiter.KeyspacesDisjoint(flag, flag, Limiter.Yahoo);
    assert Limiter.ThrottleKey(flag) !in d2.data;
    Limiter.ThrottleArmsFlag(d2, flag, 500);
    assert Up(Limiter.ThrottleStep(d2, flag, 500).0) by {
      assert Limiter.ThrottleStep(d2, flag, 500).0.faults == Answered(Answered(d2)).faults;
    }
  }

  /** A truthy `price:<ticker>` entry is returned as is: no outbound count, no flag, no provider call. */
  lemma PriceCacheHit(db: Db, ttls: Cache.TtlConfig, provider: Provider, symbol: string, ticker: string)
    requires !NextFails(db) && Cache.PriceKey(ticker) in db.data && ValueTruthy(db.data[Cache.PriceKey(ticker)].value)
    ensures PriceLadder(db, ttls, provider, symbol, ticker)
      == PriceRun(Answered(db), Returned(Field(db.data[Cache.PriceKey(ticker)].value, "price")), [])
  {
  }

  /** A used-up outbound window gives the rate-limit error (status 500, passed on unchanged) and still counts the call. */
  lemma {:induction false} PriceGateClosed(db: Db, ttls: Cache.TtlConfig, provider: Provider, symbol: string, ticker: string)
    requires Up(db) && Cache.PriceKey(ticker) !in db.data && GateClosed(db)
    ensures var run := PriceLadder(db, ttls, provider, symbol, ticker);
      && run.result == Threw(Failure(500, RateLimitMessage))
      && run.calls == []
      && Limiter.Prior(run.db, YahooKey) == Limiter.Prior(db, YahooKey) + 1
  {
    Limiter.ExternalDecision(Answered(db), Limiter.Yahoo);
  }

  /** Throttled with nothing cached: the "Please wait" error (status 400), the call counted, no provider call. */
  lemma {:induction false} PriceThrottled(db: Db, ttls: Cache.TtlConfig, provider: Provider, symbol: string, ticker: string)
    requires Up(db) && Cache.PriceKey(ticker) !in db.data && GateOpen(db)
    requires Limiter.ThrottleKey(PriceFlag(ticker)) in db.data
    ensures var run := PriceLadder(db, ttls, provider, symbol, ticker);
      && run.result == Threw(Failure(400, ThrottleMessage))
      && run.calls == []
      && Limiter.Prior(run.db, YahooKey) == Limiter.Prior(db, YahooKey) + 1
  {
    Limiter.ExternalDecision(Answered(db), Limiter.Yahoo);
    var d2 := Limiter.ExternalStep(Answered(db), Limiter.Yahoo).0;
    Limiter.KeyspacesDisjoint(PriceFlag(ticker), ticker, Limiter.Yahoo);
    Limiter.KeyspacesDisjoint(ticker, ticker, Limiter.Yahoo);
    ThrottledGate(d2, PriceFlag(ticker), Cache.PriceKey(ticker));
  }

  /** With its flag up, the throttle refuses and the re-read answers what the store holds. */
  lemma {:induction false} ThrottledGate(d2: Db, flag: string, cacheKey: string)
    requires Up(d2) && Limiter.ThrottleKey(flag) in d2.data
    ensures Limiter.ThrottleStep(d2, flag, 500) == (Answered(d2), false)
    ensures Cache.CacheGet(Answered(d2), cacheKey)
      == (Answered(Answered(d2)), if cacheKey in d2.data then Some(d2.data[cacheKey].value) else None)
  {
    Limiter.ThrottleWhileFlagged(d2, flag, 500);
    assert !NextFails(Answered(d2));
  }

  /**
   * Throttled while the first cache read failed: the second read finds the entry, and that stale
   * price is the answer, with no provider call.
   */
  lemma {:induction false} PriceThrottledStale(db: Db, ttls: Cache.TtlConfig, provider: Provider, symbol: string, ticker: string)
    requires NextFails(db) && Up(Answered(db)) && GateOpen(db)
    requires Cache.PriceKey(ticker) in db.data && ValueTruthy(db.data[Cache.PriceKey(ticker)].value)
    requires Limiter.ThrottleKey(PriceFlag(ticker)) in db.data
    ensures var run := PriceLadder(db, ttls, provider, symbol, ticker);
      run.result == Returned(Field(db.data[Cache.PriceKey(ticker)].value, "price")) && run.calls == []
  {
    var d1 := Answered(db);
    Limiter.ExternalDecision(d1, Limiter.Yahoo);
    var d2 := Limiter.ExternalStep(d1, Limiter.Yahoo).0;
    Limiter.KeyspacesDisjoint(PriceFlag(ticker), ticker, Limiter.Yahoo);
    Limiter.KeyspacesDisjoint(ticker, ticker, Limiter.Yahoo);
    assert d2.data[Cache.PriceKey(ticker)] == db.data[Cache.PriceKey(ticker)];
    ThrottledGate(d2, PriceFlag(ticker), Cache.PriceKey(ticker));
  }

  /** A miss on a healthy store, the gate open and no flag: the provider is asked. */
  predicate PriceAdmits(db: Db, ticker: string) {
    Up(db) && Cache.PriceKey(ticker) !in db.data && GateOpen(db) && Limiter.ThrottleKey(PriceFlag(ticker)) !in db.data
  }

  /** A fetch of `ticker` reaches the provider, and the quote has a numeric price that a positive TTL keeps. */
  predicate QuoteFetchable(db: Db, ttls: Cache.TtlConfig, provider: Provider, ticker: string, q: Quote) {
    PriceAdmits(db, ticker) && Cache.PriceTtl(ttls) > 0 && provider.quote(ticker) == Returned(q) && IsNumber(QuotePrice(q))
  }

  lemma PriceReachesProvider(db: Db, ttls: Cache.TtlConfig, provider: Provider, symbol: string, ticker: string)
    requires PriceAdmits(db, ticker)
    ensures PriceLadder(db, ttls, provider, symbol, ticker) == PriceFromProvider(Admit(db, PriceFlag(ticker)), ttls, provider, symbol, ticker)
    ensures var d3 := Admit(db, PriceFlag(ticker));
      Up(d3) && d3.now == db.now && Cache.PriceKey(ticker) !in d3.data
  {
    Limiter.KeyspacesDisjoint(ticker, PriceFlag(ticker), Limiter.Yahoo);
    PassesGateAndThrottle(db, Cache.PriceKey(ticker), PriceFlag(ticker));
  }

  /** A numeric quote price is written to `price:<ticker>` for the price TTL, then returned. */
  lemma {:induction false} QuotePriceCached(d3: Db, ttls: Cache.TtlConfig, provider: Provider, symbol: string, ticker: string, q: Quote)
    requires Up(d3) && Cache.PriceTtl(ttls) > 0
    requires provider.quote(ticker) == Returned(q) && IsNumber(QuotePrice(q))
    ensures var run := PriceFromProvider(d3, ttls, provider, symbol, ticker);
      && run.result == Returned(QuotePrice(q))
      && run.calls == [QuoteCall(ticker)]
      && Up(run.db) && run.db.now == d3.now && Cache.PriceKey(ticker) in run.db.data
      && run.db.data[Cache.PriceKey(ticker)] == Entry(Cache.PriceDoc(ticker, QuotePrice(q)), Some(d3.now + Cache.PriceTtl(ttls)))
  {
    assert !NextFails(d3);
    assert Up(Cache.CachePriceStep(d3, ttls, ticker, QuotePrice(q))) by {
      assert Cache.CachePriceStep(d3, ttls, ticker, QuotePrice(q)).faults == Answered(d3).faults;
    }
  }

  /** Right after a fetched finite price was cached, the next fetch is served from the cache, without a provider call. */
  lemma {:induction false} SecondPriceFromCache(db: Db, ttls: Cache.TtlConfig, provider: Provider, symbol: string, ticker: string, q: Quote)
    requires PriceAdmits(db, ticker) && Cache.PriceTtl(ttls) > 0
    requires provider.quote(ticker) == Returned(q) && QuotePrice(q).Num?
    ensures var first := PriceLadder(db, ttls, provider, symbol, ticker);
      var second := PriceLadder(first.db, ttls, provider, symbol, ticker);
      first.result == Returned(QuotePrice(q)) && second.result == first.result && second.calls == []
  {
    PriceReachesProvider(db, ttls, provider, symbol, ticker);
    QuotePriceCached(Admit(db, PriceFlag(ticker)), ttls, provider, symbol, ticker, q);
    Cache.PriceDocReads(ticker, QuotePrice(q));
    PriceCacheHit(PriceLadder(db, ttls, provider, symbol, ticker).db, ttls, provider, symbol, ticker);
  }

  /** A non-numeric quote price falls back to the chart, whose price is returned but not cached. */
  lemma {:induction false} ChartPriceNotCached(d3: Db, ttls: Cache.TtlConfig, provider: Provider, symbol: string, ticker: string,
                                               q: Quote, meta: ChartMeta)
    requires provider.quote(ticker) == Returned(q) && !IsNumber(QuotePrice(q))
    requires provider.chart(ticker) == Returned(meta) && IsNumber(Coalesce(meta.regularMarketPrice, meta.previousClose))
    ensures PriceFromProvider(d3, ttls, provider, symbol, ticker)
      == PriceRun(d3, Returned(Coalesce(meta.regularMarketPrice, meta.previousClose)), [QuoteCall(ticker), ChartCall(ticker)])
  {
  }

  /** Neither the quote nor the chart has a number: "Price not found" with status 400, and nothing cached. */
  lemma {:induction false} PriceNotFound(d3: Db, ttls: Cache.TtlConfig, provider: Provider, symbol: string, ticker: string,
                                         q: Quote, meta: ChartMeta)
    requires provider.quote(ticker) == Returned(q) && !IsNumber(QuotePrice(q))
    requires provider.chart(ticker) == Returned(meta) && !IsNumber(Coalesce(meta.regularMarketPrice, meta.previousClose))
    ensures PriceFromProvider(d3, ttls, provider, symbol, ticker)
      == PriceRun(d3, Threw(Failure(400, "Price not found for " + symbol)), [QuoteCall(ticker), ChartCall(ticker)])
  {
  }

  /**
   * A provider error with a status code comes out unchanged; any other becomes a 500 carrying the
   * error's message, or the default one. Nothing is cached.
   */
  lemma {:induction false} PriceProviderError(d3: Db, ttls: Cache.TtlConfig, provider: Provider, symbol: string, ticker: string, e: Failure)
    requires provider.quote(ticker) == Threw(e)
    ensures PriceFromProvider(d3, ttls, provider, symbol, ticker)
      == PriceRun(d3, Threw(if e.statusCode != 0 then e
                            else Failure(500, if e.message != "" then e.message else "Failed to fetch price for " + symbol)),
                  [QuoteCall(ticker)])
  {
  }

  /** A truthy `metrics:<ticker>` entry is answered from the cache, read with the reader's field names. */
  lemma MetricsCacheHit(db: Db, ttls: Cache.TtlConfig, host: Host, provider: Provider, ticker: string)
    requires !NextFails(db) && Cache.MetricsKey(ticker) in db.data && ValueTruthy(db.data[Cache.MetricsKey(ticker)].value)
    ensures MetricsLadder(db, ttls, host, provider, ticker)
      == MetricsRun(Answered(db), Returned(FromCache(db.data[Cache.MetricsKey(ticker)].value)), [])
  {
  }

  /** A used-up outbound window gives the sentinel and still counts the call. */
  lemma {:induction false} MetricsGateClosed(db: Db, ttls: Cache.TtlConfig, host: Host, provider: Provider, ticker: string)
    requires Up(db) && Cache.MetricsKey(ticker) !in db.data && GateClosed(db)
    ensures var run := MetricsLadder(db, ttls, host, provider, ticker);
      && run.result == Returned(NotAvailable)
      && run.calls == []
      && Limiter.Prior(run.db, YahooKey) == Limiter.Prior(db, YahooKey) + 1
  {
    Limiter.ExternalDecision(Answered(db), Limiter.Yahoo);
  }

  /** Throttled with nothing cached: the sentinel, and no provider call. */
  lemma {:induction false} MetricsThrottled(db: Db, ttls: Cache.TtlConfig, host: Host, provider: Provider, ticker: string)
    requires Up(db) && Cache.MetricsKey(ticker) !in db.data && GateOpen(db)
    requires Limiter.ThrottleKey(MetricsFlag(ticker)) in db.data
    ensures var run := MetricsLadder(db, ttls, host, provider, ticker);
      run.result == Returned(NotAvailable) && run.calls == []
  {
    Limiter.ExternalDecision(Answered(db), Limiter.Yahoo);
    var d2 := Limiter.ExternalStep(Answered(db), Limiter.Yahoo).0;
    Limiter.KeyspacesDisjoint(MetricsFlag(ticker), ticker, Limiter.Yahoo);
    Limiter.KeyspacesDisjoint(ticker, ticker, Limiter.Yahoo);
    ThrottledGate(d2, MetricsFlag(ticker), Cache.MetricsKey(ticker));
  }

  /** A miss on a healthy store, the gate open and no flag: the provider is asked. */
  predicate MetricsAdmits(db: Db, ticker: string) {
    Up(db) && Cache.MetricsKey(ticker) !in db.data && GateOpen(db) && Limiter.ThrottleKey(MetricsFlag(ticker)) !in db.data
  }

  lemma MetricsReachProvider(db: Db, ttls: Cache.TtlConfig, host: Host, provider: Provider, ticker: string)
    requires MetricsAdmits(db, ticker)
    ensures MetricsLadder(db, ttls, host, provider, ticker) == MetricsFromProvider(Admit(db, MetricsFlag(ticker)), ttls, host, provider, ticker)
    ensures var d3 := Admit(db, MetricsFlag(ticker));
      Up(d3) && d3.now == db.now && Cache.MetricsKey(ticker) !in d3.data
  {
    Limiter.KeyspacesDisjoint(ticker, MetricsFlag(ticker), Limiter.Yahoo);
    PassesGateAndThrottle(db, Cache.MetricsKey(ticker), MetricsFlag(ticker));
  }

  /** A failing `quoteSummary`: rethrown when it has a status code, the sentinel otherwise; nothing cached. */
  lemma {:induction false} SummaryError(d3: Db, ttls: Cache.TtlConfig, host: Host, provider: Provider, ticker: string, e: Failure)
    requires provider.quoteSummary(ticker) == Threw(e)
    ensures var run := MetricsFromProvider(d3, ttls, host, provider, ticker);
      && run.db == d3 && run.calls == [SummaryCall(ticker)]
      && (e.statusCode != 0 ==> run.result == Threw(e))
      && (e.statusCode == 0 ==> run.result == Returned(NotAvailable))
  {
  }

  /** `quote()` is consulted exactly when `quoteSummary` answered and neither P/E in it is a number. */
  lemma {:induction false} QuoteOnlyWithoutSummaryPE(d3: Db, ttls: Cache.TtlConfig, host: Host, provider: Provider, ticker: string)
    ensures var run := MetricsFromProvider(d3, ttls, host, provider, ticker);
      QuoteCall(ticker) in run.calls <==>
        provider.quoteSummary(ticker).Returned?
        && !IsNumber(TrailingPE(provider.quoteSummary(ticker).value))
        && !IsNumber(ForwardPE(provider.quoteSummary(ticker).value))
  {
    var run := MetricsFromProvider(d3, ttls, host, provider, ticker);
    if provider.quoteSummary(ticker).Returned? {
      var qs := provider.quoteSummary(ticker).value;
      if !IsNumber(TrailingPE(qs)) && !IsNumber(ForwardPE(qs)) {
        assert run.calls == [SummaryCall(ticker), QuoteCall(ticker)];
      } else {
        assert run.calls == [SummaryCall(ticker)];
      }
    } else {
      assert run.calls == [SummaryCall(ticker)];
    }
  }

  /** The metrics document written after a provider answer, and what the answer is. */
  predicate FreshMetrics(run: MetricsRun, d3: Db, ttls: Cache.TtlConfig, ticker: string, m: Metrics) {
    && run.result == Returned(m)
    && Up(run.db) && Cache.MetricsKey(ticker) in run.db.data
    && run.db.data[Cache.MetricsKey(ticker)]
       == Entry(Cache.MetricsDoc(ticker, m.peRatio, m.latestEarnings), Some(d3.now + Cache.MetricsTtl(ttls)))
  }

  lemma {:induction false} AssembledCached(d3: Db, ttls: Cache.TtlConfig, host: Host, ticker: string, qs: Summary,
                                           trailingPE: JsValue, forwardPE: JsValue, calls: seq<Call>, date: JsValue)
    requires Up(d3) && Cache.MetricsTtl(ttls) > 0
    requires EarningsDate(qs, host) == Returned(date)
    ensures FreshMetrics(Assembled(d3, ttls, host, ticker, qs, trailingPE, forwardPE, calls), d3, ttls, ticker,
                         Metrics(PeText(trailingPE, forwardPE, host), Or(date, Str("N/A"))))
  {
    var m := Metrics(PeText(trailingPE, forwardPE, host), Or(date, Str("N/A")));
    assert !NextFails(d3);
    assert Up(Cache.CacheMetricsStep(d3, ttls, ticker, m.peRatio, m.latestEarnings)) by {
      assert Cache.CacheMetricsStep(d3, ttls, ticker, m.peRatio, m.latestEarnings).faults == Answered(d3).faults;
    }
  }

  /**
   * With a P/E in `quoteSummary`, the trailing one (else the forward one) is the `peRatio`, the
   * earnings date or "N/A" the `latestEarnings`, and the pair is cached; `quote()` is not called.
   */
  lemma {:induction false} MetricsFromSummary(d3: Db, ttls: Cache.TtlConfig, host: Host, provider: Provider, ticker: string,
                                              qs: Summary, date: JsValue)
    requires Up(d3) && Cache.MetricsTtl(ttls) > 0
    requires provider.quoteSummary(ticker) == Returned(qs) && (IsNumber(TrailingPE(qs)) || IsNumber(ForwardPE(qs)))
    requires EarningsDate(qs, host) == Returned(date)
    ensures var run := MetricsFromProvider(d3, ttls, host, provider, ticker);
      && run.calls == [SummaryCall(ticker)]
      && FreshMetrics(run, d3, ttls, ticker, Metrics(PeText(TrailingPE(qs), ForwardPE(qs), host), Or(date, Str("N/A"))))
  {
    AssembledCached(d3, ttls, host, ticker, qs, TrailingPE(qs), ForwardPE(qs), [SummaryCall(ticker)], date);
  }

  /** Without a P/E in `quoteSummary`, numeric P/E values from `quote()` take their place. */
  lemma {:induction false} MetricsFromQuote(d3: Db, ttls: Cache.TtlConfig, host: Host, provider: Provider, ticker: string,
                                            qs: Summary, qt: Quote, date: JsValue)
    requires Up(d3) && Cache.MetricsTtl(ttls) > 0
    requires provider.quoteSummary(ticker) == Returned(qs) && !IsNumber(TrailingPE(qs)) && !IsNumber(ForwardPE(qs))
    requires provider.quote(ticker) == Returned(qt)
    requires EarningsDate(qs, host) == Returned(date)
    ensures var run := MetricsFromProvider(d3, ttls, host, provider, ticker);
      var pe := PeText(FromQuote(qt.trailingPE, TrailingPE(qs)), FromQuote(qt.forwardPE, ForwardPE(qs)), host);
      && run.calls == [SummaryCall(ticker), QuoteCall(ticker)]
      && FreshMetrics(run, d3, ttls, ticker, Metrics(pe, Or(date, Str("N/A"))))
      && (!IsNumber(qt.trailingPE) && !IsNumber(qt.forwardPE) ==> pe == Str("N/A"))
  {
    AssembledCached(d3, ttls, host, ticker, qs, FromQuote(qt.trailingPE, TrailingPE(qs)), FromQuote(qt.forwardPE, ForwardPE(qs)),
                    [SummaryCall(ticker), QuoteCall(ticker)], date);
  }

  /** An unusable calendar `raw` date makes `toISOString` throw; that error has no status code, so the sentinel, and nothing cached. */
  lemma {:induction false} InvalidEarningsDate(d3: Db, ttls: Cache.TtlConfig, host: Host, provider: Provider, ticker: string, qs: Summary)
    requires provider.quoteSummary(ticker) == Returned(qs) && (IsNumber(TrailingPE(qs)) || IsNumber(ForwardPE(qs)))
    requires EarningsDate(qs, host).Threw?
    ensures MetricsFromProvider(d3, ttls, host, provider, ticker) == MetricsRun(d3, Returned(NotAvailable), [SummaryCall(ticker)])
  {
  }

  /**
   * The `latestEarnings` priority: calendar `fmt`, then calendar `raw` as an ISO day, then a
   * non-empty earnings-chart string, then "N/A".
   */
  lemma LatestEarningsPriority(qs: Summary, host: Host)
    requires EarningsDate(qs, host).Returned?
    ensures var latest := Or(EarningsDate(qs, host).value, Str("N/A"));
      var chart := Or(qs.currentQuarterDate, qs.currentQuarterEstimateDate);
      && (Truthy(qs.earningsDateFmt) ==> latest == qs.earningsDateFmt)
      && (!Truthy(qs.earningsDateFmt) && Truthy(qs.earningsDateRaw) && Truthy(IsoDay(qs.earningsDateRaw, host).value) ==>
            latest == IsoDay(qs.earningsDateRaw, host).value)
      && (!Truthy(qs.earningsDateFmt) && !Truthy(qs.earningsDateRaw) ==>
            latest == if chart.Str? && chart.s != "" then chart else Str("N/A"))
      && Truthy(latest)
  {
  }

  /**
   * The metrics field-name mismatch: right after fresh metrics were fetched and cached, the next
   * fetch is answered from the cache with the same `peRatio` but an undefined `latestEarnings`.
   */
  lemma {:induction false} SecondMetricsLoseEarnings(db: Db, ttls: Cache.TtlConfig, host: Host, provider: Provider, ticker: string,
                                                     qs: Summary, date: JsValue)
    requires MetricsAdmits(db, ticker) && Cache.MetricsTtl(ttls) > 0
    requires provider.quoteSummary(ticker) == Returned(qs) && (IsNumber(TrailingPE(qs)) || IsNumber(ForwardPE(qs)))
    requires EarningsDate(qs, host) == Returned(date)
    ensures var first := MetricsLadder(db, ttls, host, provider, ticker);
      var second := MetricsLadder(first.db, ttls, host, provider, ticker);
      && first.result.Returned? && second.calls == []
      && second.result == Returned(Metrics(first.result.value.peRatio, Undefined))
  {
    MetricsReachProvider(db, ttls, host, provider, ticker);
    var d3 := Admit(db, MetricsFlag(ticker));
    MetricsFromSummary(d3, ttls, host, provider, ticker, qs, date);
    var m := Metrics(PeText(TrailingPE(qs), ForwardPE(qs), host), Or(date, Str("N/A")));
    Cache.MetricsDocReads(ticker, m.peRatio, m.latestEarnings);
    MetricsCacheHit(MetricsLadder(db, ttls, host, provider, ticker).db, ttls, host, provider, ticker);
  }
}
