# Stock dashboard backend: a verified model of its cache-aside fetch pipeline

This project models, in Dafny, the core of a small Express/TypeScript backend. The backend serves
Indian stock prices and metrics from Yahoo Finance behind a Redis cache and Redis-backed rate
limiters. It also turns a portfolio spreadsheet into sectors with totals.

The model has seven modules, one per concern.

- `Js` holds the JavaScript value semantics the code relies on: `??`, `||`, truthiness,
  `typeof … === 'number'`, `trim`, `toUpperCase`, and `replace` with a run-collapsing regular
  expression. Conversions between numbers and text, and dates to ISO text, are the fields of a
  `Host` value passed in as a parameter.
- `Store` models the Redis connection.
  - It is a value `Db(data, now, faults)`, with `now` in whole seconds.
  - `data` maps each key to a value and an optional expiry time. Expired entries disappear when
    the clock moves on (`Advance`).
  - `faults` is the plan of store answers: each command takes one entry, and `true` means that
    command fails.
  - Each command (`INCR`, `EXPIRE`, `TTL`, `EXISTS`, `SETEX`, `GET`, `DEL`, `FLUSHDB`) is a pure
    step function.
  - The class `RedisStore` holds the state and applies those steps in place.
- `Cache` models `RedisCacheService` as a class over a shared `RedisStore`. Each method is proved
  equal to a pure step on the store.
- `Limiter` models `RateLimiter`: its per-IP, per-symbol and outbound counters, the throttle flag,
  and the router's middleware order.
- `Finance` models `YahooFinanceService`: `normalizeToNSE`, and `fetchPrice` and `fetchMetrics` as
  ladders over the cache, the outbound gate, the throttle and the provider.
  - Provider answers are functions of the ticker, in a `Provider` value.
  - Each run returns the list of provider calls it made.
  - The methods `FetchPrice` and `FetchMetrics` update the shared store step by step. Each is proved
    equal to its specification function.
- `Portfolio` models `buildPortfolio`:
  - cell cleaning, header detection and symbol conversion;
  - the row loop with its current sector;
  - the totals `reduce` and the share loop.

  The loops are methods with invariants, proved against recursive specification functions.
- `Controller` models the handlers:
  - the sheet-to-records logic of `getExcelData`: header row, header names, de-duplication and data
    records;
  - the cache-then-fetch logic of `getStockPrice` and `getStockMetrics`;
  - the per-symbol pipeline and result assembly of `getBatchStocks`.

The model reproduces these quirks of the code rather than correcting them:

- The metrics document is stored with the field `latestEarning`, but read back as
  `latestEarnings`. A cached metrics answer therefore has an undefined `latestEarnings`
  (`Cache.MetricsRoundTrip`, `Finance.SecondMetricsLoseEarnings`).
- A price from the chart fallback is returned but never cached (`Finance.ChartPriceNotCached`).
- A fetched price is cached twice: under `price:<ticker>` by the service and under `price:<symbol>`
  by the controller (`Controller.PriceCachedUnderTwoKeys`).
- De-duplicated headers need not be distinct: `X, X, X_1` becomes `X, X_1, X_1`
  (`Controller.RenamedRepeatCanCollide`).
- Suppose `EXPIRE` fails right after the first `INCR` of a window. The counter then never expires,
  so waiting never resets it (`Limiter.LostExpireNeverResets`).
- In `getBatchStocks`, a cache hit puts the whole cached `{symbol, price}` object in the `price`
  field (`Controller.BatchCachedPrice`).
- The `catch` of `fetchMetrics` turns most errors into the "N/A" pair, but it re-throws a provider
  error that carries a status code (src/services/finance.service.ts:157-158). So `fetchMetrics`
  can fail (`Finance.SummaryError`).
- The external-API gate's refusal in `fetchPrice` is raised inside the `try` as an
  `InternalServerError` (status 500). The `catch` passes it on unchanged, since it has a status
  code (`Finance.PriceGateClosed`).
- `cleanCell` parses a numeric string with `Number`, which gives an infinity for `"Infinity"` or
  `"1e999"`. Such a value is not NaN, so it stays in the cleaned cell. A "Particulars" cell holding
  it is then not a string, and its row is an item rather than a sector header. `num` cleans the
  value again and reads it as null, so the totals do not become infinite
  (`Portfolio.CleanCell`, `Portfolio.CleanCellIdempotent`).

## Model

| member | source | states |
|---|---|---|
| Js.Coalesce | src/services/finance.service.ts:59 | `a ?? b` is `a` unless `a` is null or undefined, else `b` |
| Js.Or | src/services/finance.service.ts:150 | the logical or of JavaScript is `a` when `a` is truthy, else `b` |
| Js.ToNumber | src/services/finance.service.ts:141 | the operand conversion of `*` always gives a value of type number |
| Js.TrimStart | src/services/portfolio.service.ts:11 | the result is a suffix of the input; every character removed in front is white space; the result does not start with white space |
| Js.TrimEnd | src/services/portfolio.service.ts:11 | the result is a prefix of the input; every character removed at the end is white space; the result does not end with white space |
| Js.Trim | src/services/portfolio.service.ts:11 | `trim` gives a string with no white space at either end, and never a longer one |
| Js.FramedSlices | src/services/portfolio.service.ts:11 | cutting a run of class characters off the front and then off the back leaves an inner slice framed by class characters only |
| Js.TrimFrames | src/services/portfolio.service.ts:11 | `trim` keeps a contiguous slice of its input, and everything it removes on either side is white space |
| Js.FramedKeepsOutside | src/services/portfolio.service.ts:11 | a slice framed by class characters has the same characters outside the class, in order, as the whole text |
| Js.TrimKeepsOutside | src/services/portfolio.service.ts:11 | `trim` keeps every non-white-space character, in order |
| Js.TrimmedText | src/services/portfolio.service.ts:38 | `String(v).trim()` is trimmed for every value |
| Js.TrimmedTextIsTrimOfText | src/services/portfolio.service.ts:38 | the case-by-case definition equals `trim` applied to `String(v)` |
| Js.TrimKeeps | src/controllers/stock.controller.ts:68 | trimming keeps "no character of a class" and "no two adjacent characters of a class" |
| Js.TrimOfTrimmed | src/services/portfolio.service.ts:11 | trimming a string without white space at its ends leaves it unchanged |
| Js.TrimIdempotent | src/services/finance.service.ts:9 | `trim` is idempotent |
| Js.Upper | src/services/finance.service.ts:9 | `toUpperCase` keeps the length and maps each character independently |
| Js.UpperCharKeepsSpace | src/services/finance.service.ts:9 | upper-casing a character never creates or removes white space |
| Js.UpperIsUpper | src/services/finance.service.ts:9 | the result of `toUpperCase` is upper case |
| Js.UpperOfUpper | src/services/finance.service.ts:9 | `toUpperCase` on an upper-case string changes nothing |
| Js.UpperAppend | src/services/finance.service.ts:9 | `toUpperCase` distributes over concatenation |
| Js.NatText | src/controllers/stock.controller.ts:76 | a counter printed in a template literal is all digits, reads back as the same number, and has no leading zero |
| Js.RemoveCommas | src/services/portfolio.service.ts:14 | `replace(/,/g, '')` leaves no comma, leaves a text without commas unchanged, and never lengthens the text |
| Js.RemoveCommasAppend | src/services/portfolio.service.ts:14 | removing the commas distributes over concatenation |
| Js.RemoveCommasKeepsOthers | src/services/portfolio.service.ts:14 | every character other than a comma occurs as many times after the removal as before |
| Js.DropRun | src/controllers/stock.controller.ts:66-67 | dropping a leading run of matching characters gives a suffix that does not start with one; every character dropped matches, and a leading match is always dropped |
| Js.Collapse | src/controllers/stock.controller.ts:66-67 | `replace(/[class]+/g, ' ')` is empty exactly for empty input, spaces a matching first character and keeps any other, leaves only plain spaces from the class, and never two of them side by side |
| Js.RunCollapses | src/controllers/stock.controller.ts:66-67 | a non-empty run of matching characters becomes a single space |
| Js.DropRunAppend | src/controllers/stock.controller.ts:66-67 | when the first part holds a non-matching character, dropping the leading run of the whole text only changes the first part |
| Js.CollapseAppend | src/controllers/stock.controller.ts:66-67 | collapsing distributes over a concatenation whose seam is not inside a run |
| Js.CollapseAppendRun | src/controllers/stock.controller.ts:66-67 | the same when the first part starts with a run |
| Js.Outside | src/controllers/stock.controller.ts:66-67 | the characters outside a class, in order, contain none of the class and are never more than the text |
| Js.OutsideAppend | src/controllers/stock.controller.ts:66-67 | the characters outside a class distribute over concatenation |
| Js.OutsideOfRun | src/controllers/stock.controller.ts:66-67 | a run of class characters has none outside the class |
| Js.CollapseKeepsOutside | src/controllers/stock.controller.ts:66-67 | collapsing runs of a class into spaces keeps, in order, every character outside any wider class that contains the space |
| Js.Surrounded | src/controllers/stock.controller.ts:66-68 | class characters around a text add nothing outside the class |
| Store.MakeDoc | src/services/cache.service.ts:34 | `JSON.stringify` of an object literal drops undefined fields |
| Store.IncrStep | src/middlewares/rateLimiter.middleware.ts:24 | `INCR` changes no other key, keeps the clock and consumes one planned answer |
| Store.ExpireStep | src/middlewares/rateLimiter.middleware.ts:28 | `EXPIRE` changes no other key and keeps the clock |
| Store.TtlStep | src/middlewares/rateLimiter.middleware.ts:32 | `TTL` only consumes one planned answer |
| Store.ExistsStep | src/middlewares/rateLimiter.middleware.ts:117 | `EXISTS` only consumes one planned answer |
| Store.SetExStep | src/services/cache.service.ts:34 | `SETEX` changes no other key and keeps the clock |
| Store.GetStep | src/services/cache.service.ts:18 | `GET` only consumes one planned answer |
| Store.DelStep | src/services/cache.service.ts:42 | `DEL` keeps the clock and consumes one planned answer; when the store answers, the key is gone, nothing else changes and the reply is the number of keys removed; on an error, nothing changes |
| Store.FlushDbStep | src/services/cache.service.ts:104 | `FLUSHDB` empties the store when it succeeds and changes nothing when it fails |
| Store.Advance | src/services/cache.service.ts:34 | as time passes, exactly the entries whose expiry has come are gone, and the others are kept as they were |
| Store.RedisStore.constructor | src/services/cache.service.ts:12-14 | a new connection starts empty at time 0 with the given answer plan |
| Store.RedisStore.Incr | src/middlewares/rateLimiter.middleware.ts:24 | the reply and new state are those of `IncrStep` |
| Store.RedisStore.Expire | src/middlewares/rateLimiter.middleware.ts:28 | the reply and new state are those of `ExpireStep` |
| Store.RedisStore.Ttl | src/middlewares/rateLimiter.middleware.ts:32 | the reply and new state are those of `TtlStep` |
| Store.RedisStore.Exists | src/middlewares/rateLimiter.middleware.ts:117 | the reply and new state are those of `ExistsStep` |
| Store.RedisStore.SetEx | src/middlewares/rateLimiter.middleware.ts:124 | the reply and new state are those of `SetExStep` |
| Store.RedisStore.Get | src/services/cache.service.ts:18 | the reply and new state are those of `GetStep` |
| Store.RedisStore.Del | src/services/cache.service.ts:42 | the reply and new state are those of `DelStep` |
| Store.RedisStore.FlushDb | src/services/cache.service.ts:104 | the reply and new state are those of `FlushDbStep` |
| Store.RedisStore.Tick | src/services/cache.service.ts:34 | the new state is the old one advanced by the given seconds |
| Cache.ConfiguredTtl | src/config/index.ts:24-26 | the configured value when it is a non-zero number, else the default 15; never 0 |
| Cache.CacheGet | src/services/cache.service.ts:16-29 | `get` consumes one answer; it finds a value exactly when the store answers and holds the key, and then it is the stored value |
| Cache.CacheSet | src/services/cache.service.ts:31-38 | when the store answers and the TTL (`ttlSeconds`, or `DEFAULT_TTL` when that is 0) is positive, the key holds the value until now plus that TTL; otherwise the data is unchanged; the clock is kept |
| Cache.CacheDelete | src/services/cache.service.ts:40-46 | `delete` removes the key unless the store errors, and no other key changes |
| Cache.DeleteThenMiss | src/services/cache.service.ts:16-46 | after a delete the store answered, `get` misses; a failed delete changes nothing |
| Cache.CacheExists | src/services/cache.service.ts:48-56 | `exists` is true exactly when the store answers and holds the key |
| Cache.CacheTtl | src/services/cache.service.ts:58-65 | `ttl` is -1 on an error, -2 for a missing key, -1 for a key without expiry, and otherwise the seconds left |
| Cache.CachePriceStep | src/services/cache.service.ts:67-75 | when the write lands, `price:<symbol>` holds `{symbol, price}` until now plus `PRICE_TTL`; otherwise the data is unchanged |
| Cache.GetCachePriceStep | src/services/cache.service.ts:77-80 | reads `price:<symbol>`: found exactly when the store answers and holds it |
| Cache.CacheMetricsStep | src/services/cache.service.ts:82-91 | when the write lands, `metrics:<symbol>` holds `{symbol, peRatio, latestEarning}` until now plus `METRICS_TTL`; otherwise the data is unchanged |
| Cache.GetCacheMetricsStep | src/services/cache.service.ts:93-100 | reads `metrics:<symbol>`: found exactly when the store answers and holds it |
| Cache.DeleteAllStep | src/services/cache.service.ts:102-108 | `deleteAll` empties the store when it answers and changes nothing when it errors |
| Cache.RedisCacheService.constructor | src/services/cache.service.ts:12-14 | the service uses the given connection, and its default, price and metrics TTLs are `ConfiguredTtl` of the corresponding environment values |
| Cache.RedisCacheService.Get | src/services/cache.service.ts:16-29 | the new store state and result are those of `CacheGet` |
| Cache.RedisCacheService.Set | src/services/cache.service.ts:31-38 | the new store state is that of `CacheSet` with the default TTL |
| Cache.RedisCacheService.Delete | src/services/cache.service.ts:40-46 | the new store state is that of `CacheDelete` |
| Cache.RedisCacheService.Exists | src/services/cache.service.ts:48-56 | the new store state and result are those of `CacheExists` |
| Cache.RedisCacheService.Ttl | src/services/cache.service.ts:58-65 | the new store state and result are those of `CacheTtl` |
| Cache.RedisCacheService.CachePrice | src/services/cache.service.ts:67-75 | the new store state is that of `CachePriceStep` |
| Cache.RedisCacheService.GetCachePrice | src/services/cache.service.ts:77-80 | the new store state and result are those of `GetCachePriceStep` |
| Cache.RedisCacheService.CacheMetrics | src/services/cache.service.ts:82-91 | the new store state is that of `CacheMetricsStep` |
| Cache.RedisCacheService.GetCacheMetrics | src/services/cache.service.ts:93-100 | the new store state and result are those of `GetCacheMetricsStep` |
| Cache.RedisCacheService.DeleteAll | src/services/cache.service.ts:102-108 | the new store state is that of `DeleteAllStep` |
| Cache.SetFallsBackToDefault | src/services/cache.service.ts:31-34 | `set` with TTL 0 stores the value until now plus `DEFAULT_TTL` |
| Cache.GetMissOrError | src/services/cache.service.ts:16-29 | a missing key and a store error both read as null |
| Cache.FailedWriteIsLost | src/services/cache.service.ts:31-38 | a failed or refused write leaves the data unchanged and raises nothing |
| Cache.ExistsIffOne | src/services/cache.service.ts:48-56 | `exists` is true exactly when the store answers and holds the key |
| Cache.TtlOnError | src/services/cache.service.ts:58-65 | `ttl` answers -1 on a store error |
| Cache.PriceRoundTrip | src/services/cache.service.ts:67-80 | `cachePrice(s, p)` then, some seconds later, `getCachePrice(s)` gives `{symbol: s, price: p}` before `PRICE_TTL` runs out and null after |
| Cache.MetricsRoundTrip | src/services/cache.service.ts:82-100 | after `cacheMetrics`, `getCacheMetrics` gives back `symbol` and `peRatio`, but `latestEarnings` is undefined |
| Cache.PriceDocReads | src/services/cache.service.ts:67-75 | the stored price object is truthy and reads back its `symbol` and `price` |
| Cache.MetricsDocReads | src/services/cache.service.ts:82-91 | the stored metrics object is truthy, reads back its `peRatio`, and has no `latestEarnings` |
| Cache.MetricsDocCarriesEarning | src/services/cache.service.ts:84-88 | the stored metrics object carries the earnings date as `latestEarning` |
| Cache.PrefixesDisjoint | src/services/cache.service.ts:68-83 | no `price:` key is ever a `metrics:` key |
| Cache.WritesStayInTheirPrefix | src/services/cache.service.ts:67-91 | a price write leaves every `metrics:` entry as it was, and a metrics write every `price:` entry |
| Cache.DeleteAllEmpties | src/services/cache.service.ts:102-108 | after a successful `deleteAll` no key of any prefix remains |
| Limiter.CeilSeconds | src/middlewares/rateLimiter.middleware.ts:28 | `Math.ceil(ms / 1000)` is the least whole number of seconds covering `ms` |
| Limiter.Max0 | src/middlewares/rateLimiter.middleware.ts:36 | `Math.max(0, x)` is never negative, at least `x`, and either 0 or `x` |
| Limiter.CountStep | src/middlewares/rateLimiter.middleware.ts:24-29 | the shared INCR-then-EXPIRE step changes no other key and keeps the clock |
| Limiter.ByIPStep | src/middlewares/rateLimiter.middleware.ts:19-53 | `byIP` keeps the clock; a rejection carries a quota with nothing remaining and a retry-after; every quota reports the configured limit and a non-negative remaining |
| Limiter.BySymbolStep | src/middlewares/rateLimiter.middleware.ts:58-88 | without a symbol the request passes and the store is untouched; the verdict is always a bare pass or a bare rejection; the clock is kept |
| Limiter.ExternalStep | src/middlewares/rateLimiter.middleware.ts:93-109 | the gate keeps the clock, and a store error opens it |
| Limiter.ThrottleStep | src/middlewares/rateLimiter.middleware.ts:114-130 | the throttle keeps the clock; it refuses only when the store answers and the flag is present, and then changes no data; a store error lets the call through |
| Limiter.RateLimiter.constructor | src/middlewares/rateLimiter.middleware.ts:10-14 | the limiter keeps the connection, window and maximum it is given |
| Limiter.RateLimiter.ByIP | src/middlewares/rateLimiter.middleware.ts:19-53 | the new store state and verdict are those of `ByIPStep` on the client address |
| Limiter.RateLimiter.BySymbol | src/middlewares/rateLimiter.middleware.ts:58-88 | the new store state and verdict are those of `BySymbolStep` |
| Limiter.RateLimiter.CheckExternalApiLimit | src/middlewares/rateLimiter.middleware.ts:93-109 | the new store state and answer are those of `ExternalStep` |
| Limiter.RateLimiter.Throttle | src/middlewares/rateLimiter.middleware.ts:114-130 | the new store state and answer are those of `ThrottleStep` |
| Limiter.SymbolRoute | src/routers/v1/stock.rounter.ts:8-9 | the single-symbol routes run `byIP`, then `bySymbol` only when `byIP` let the request through |
| Limiter.BatchRoute | src/routers/v1/stock.rounter.ts:10 | the batch route runs `byIP` only |
| Limiter.HalfSecondRoundsUp | src/middlewares/rateLimiter.middleware.ts:124 | a 500 ms delay becomes a 1 s flag, and the 60 000 ms window 60 s |
| Limiter.CountStepHealthy | src/middlewares/rateLimiter.middleware.ts:24-29 | on a healthy store the count goes up by one, and the expiry is set only when the count becomes 1 |
| Limiter.ByIPDecision | src/middlewares/rateLimiter.middleware.ts:24-47 | `byIP` rejects exactly when the new count exceeds the maximum; the reported remaining is `max(0, max - current)` and never negative; the reset is now plus the TTL; the retry-after is the TTL |
| Limiter.ByIPOnlyOwnKey | src/middlewares/rateLimiter.middleware.ts:21 | `byIP` leaves every key other than `rate_limit:ip:<ip>` as it was |
| Limiter.ByIPFirstRequest | src/middlewares/rateLimiter.middleware.ts:24-29 | the first request of a window counts 1 and arms a window of `ceil(windowMs/1000)` seconds |
| Limiter.ByIPLaterRequest | src/middlewares/rateLimiter.middleware.ts:24-29 | a later request adds one and leaves the window's expiry alone |
| Limiter.ByIPLaterRequests | src/middlewares/rateLimiter.middleware.ts:24-29 | `k` further requests add `k` and leave the window's expiry alone |
| Limiter.ByIPAfterRequests | src/middlewares/rateLimiter.middleware.ts:24-29 | `n` requests in one window leave the count at `n`, with the window armed by the first |
| Limiter.ByIPNthVerdict | src/middlewares/rateLimiter.middleware.ts:39-47 | the n-th request of a window is rejected exactly when n exceeds the maximum |
| Limiter.LastAllowedThenRejected | src/middlewares/rateLimiter.middleware.ts:35-47 | the request that reaches the maximum passes; the next one is rejected with zero remaining, the reset at the window's end and the window as retry-after |
| Limiter.ThirtyFirstRequestRejected | src/middlewares/rateLimiter.middleware.ts:133 | with the router's window (60 000 ms) and maximum (30), the 30th request passes and the 31st is rejected with nothing remaining, a reset 60 000 ms later and retry-after 60 |
| Limiter.NewWindowStartsAtOne | src/middlewares/rateLimiter.middleware.ts:24-29 | once the window has expired, the next request counts 1 and passes, whatever the old count |
| Limiter.LostExpireNeverResets | src/middlewares/rateLimiter.middleware.ts:24-29 | if `EXPIRE` fails after the first `INCR`, the request passes and the counter stays without expiry however long one waits |
| Limiter.BySymbolWithoutSymbol | src/middlewares/rateLimiter.middleware.ts:59-63 | without a symbol `bySymbol` calls `next` and leaves the store as it was |
| Limiter.BySymbolDecision | src/middlewares/rateLimiter.middleware.ts:65-81 | `bySymbol` rejects exactly past 10 requests, sends no quota, and arms a 60 s window on the first |
| Limiter.ExternalDecision | src/middlewares/rateLimiter.middleware.ts:93-104 | the gate answers `current <= 50` and counts the call even when it refuses |
| Limiter.ExternalClosedCheck | src/middlewares/rateLimiter.middleware.ts:98-104 | at a count of 50 or more a check refuses, counts one more, and keeps the expiry |
| Limiter.ExternalStaysClosed | src/middlewares/rateLimiter.middleware.ts:98-104 | once at 50, every further check in the window refuses, and the count keeps climbing with the expiry unchanged |
| Limiter.ThrottleWhileFlagged | src/middlewares/rateLimiter.middleware.ts:116-121 | a present flag answers false and changes no data |
| Limiter.ThrottleArmsFlag | src/middlewares/rateLimiter.middleware.ts:123-125 | an absent flag is set for `ceil(delayMs/1000)` seconds and the call proceeds |
| Limiter.ThrottleWithoutDelayNeverFlags | src/middlewares/rateLimiter.middleware.ts:124-129 | a non-positive delay makes `SETEX` fail silently: no flag, and the call proceeds |
| Limiter.ThrottleHalfSecond | src/middlewares/rateLimiter.middleware.ts:114-125 | with a 500 ms delay a second call at the same instant is refused, and a call one second later proceeds |
| Limiter.FailOpen | src/middlewares/rateLimiter.middleware.ts:49-129 | when the first store command of a check fails, `byIP`, `bySymbol`, the outbound gate and the throttle all let the request through |
| Limiter.FailOpenOnSecondCommand | src/middlewares/rateLimiter.middleware.ts:24-129 | when the second command fails, `byIP` lets the request through; on a new window the symbol counter and the outbound gate do too, leaving the counter at 1 without expiry; with no flag set the throttle proceeds and sets none |
| Limiter.ByIPFailOpenOnTtl | src/middlewares/rateLimiter.middleware.ts:32-52 | on a new window, a failing `TTL` after `INCR` and `EXPIRE` still lets the request through |
| Limiter.ByIPRejectsOnlyOnAnswers | src/middlewares/rateLimiter.middleware.ts:24-52 | a rejection by `byIP` implies that every store command it issued succeeded: `INCR`, `TTL`, and `EXPIRE` on a new window |
| Limiter.KeyspacesDisjoint | src/middlewares/rateLimiter.middleware.ts:21-116 | the IP, symbol, external and throttle keys, and the cache's `price:` and `metrics:` keys, never coincide |
| Limiter.DeleteAllResetsLimiter | src/services/cache.service.ts:102-108 | after `deleteAll` the next IP request counts 1 and passes, and the next throttle proceeds |
| Limiter.RoutesCountSymbolsOnlyWhenAdmittedByIP | src/routers/v1/stock.rounter.ts:8-10 | a request rejected by `byIP` never touches a symbol counter, and the batch route never does |
| Finance.StripExchange | src/services/finance.service.ts:9 | removes at most one recognised suffix: the result is a prefix, unchanged without a suffix, and `.NS` removed exactly |
| Finance.NormalizeToNSE | src/services/finance.service.ts:8-11 | the ticker always ends in `.NS`, and is upper case and trimmed |
| Finance.NormalizeIdempotent | src/services/finance.service.ts:8-11 | normalising twice is normalising once |
| Finance.NormalizedIsFixed | src/services/finance.service.ts:8-11 | a trimmed upper-case ticker ending in `.NS` is its own normal form |
| Finance.NormalizeUnfolds | src/services/finance.service.ts:8-11 | normalisation is trim, then upper-case, then strip the suffix, then append `.NS` |
| Finance.StripsOneSuffix | src/services/finance.service.ts:9 | whatever precedes it, exactly one recognised suffix is removed |
| Finance.ExchangeSuffixReplaced | src/services/finance.service.ts:8-11 | a trimmed base with a recognised suffix in any case normalises to the upper-cased base plus `.NS` |
| Finance.NormalizeAfterTrim | src/services/finance.service.ts:9 | only the trimmed text matters |
| Finance.PaddedExchangeSuffixReplaced | src/services/finance.service.ts:8-11 | a blank-padded base with a recognised suffix, as in ` Reliance.BO `, normalises to the upper-cased base plus `.NS` |
| Finance.PlainTickerSuffixed | src/services/finance.service.ts:8-11 | a trimmed ticker without a recognised suffix, as in `reliance`, becomes its upper case plus `.NS` |
| Finance.PriceCatch | src/services/finance.service.ts:70-73 | an error with a status code passes unchanged; any other becomes a 500 that keeps a non-empty message |
| Finance.QuotePrice | src/services/finance.service.ts:59 | `regularMarketPrice ?? postMarketPrice ?? preMarketPrice` |
| Finance.FetchFromChart | src/services/finance.service.ts:15-20 | the chart answer is a number or null; it fails exactly when the chart call fails; a number is `regularMarketPrice ?? previousClose` |
| Finance.PriceFromProvider | src/services/finance.service.ts:57-69 | the quote is called first and at most one more call follows; a success is a number; a failure has a status code |
| Finance.FetchPriceSpec | src/services/finance.service.ts:22-74 | `fetchPrice` fails only with a status code and calls the provider at most twice, quote first, on the normalised ticker |
| Finance.PriceLadder | src/services/finance.service.ts:29-33 | the cache step keeps the same guarantees on the ticker |
| Finance.PriceGate | src/services/finance.service.ts:36-41 | the gate step keeps the same guarantees |
| Finance.PriceThrottle | src/services/finance.service.ts:43-55 | the throttle step keeps the same guarantees |
| Finance.MetricsCatch | src/services/finance.service.ts:157-163 | an error with a status code is re-thrown unchanged; any other gives the N/A pair |
| Finance.Chain | src/services/finance.service.ts:128-129 | `summaryDetail ?? defaultKeyStatistics ?? price`: the first non-nullish wins |
| Finance.FromQuote | src/services/finance.service.ts:134-135 | a numeric `quote()` value replaces the current one; otherwise it is kept |
| Finance.PeText | src/services/finance.service.ts:149 | the trailing P/E as text, else the forward P/E as text, else "N/A"; always a string |
| Finance.Truncate | src/services/finance.service.ts:141 | time values truncate toward zero |
| Finance.Prefix | src/services/finance.service.ts:141 | `slice(0, 10)` is a prefix of length at most 10 |
| Finance.IsoDay | src/services/finance.service.ts:141 | the ISO day is a string of at most 10 characters, or the "Invalid time value" error |
| Finance.EarningsDate | src/services/finance.service.ts:139-146 | a truthy calendar `fmt` is the date; only an unusable calendar `raw` makes it fail |
| Finance.Assembled | src/services/finance.service.ts:148-156 | the result never fails, keeps the calls, and a real result has the `PeText` P/E and a truthy earnings date |
| Finance.MetricsFromProvider | src/services/finance.service.ts:120-156 | `quoteSummary` is called first and at most one more call follows; a failure has a status code |
| Finance.FetchMetricsSpec | src/services/finance.service.ts:76-164 | `fetchMetrics` fails only with a status code and calls the provider at most twice, `quoteSummary` first, on the normalised ticker |
| Finance.MetricsLadder | src/services/finance.service.ts:83-90 | the cache step keeps the same guarantees on the ticker |
| Finance.MetricsGate | src/services/finance.service.ts:93-100 | the gate step keeps the same guarantees |
| Finance.MetricsThrottle | src/services/finance.service.ts:103-118 | the throttle step keeps the same guarantees |
| Finance.YahooFinanceService.constructor | src/services/finance.service.ts:4-13 | the service uses the given cache, limiter, provider and host, and the cache and limiter share one connection |
| Finance.YahooFinanceService.FetchPrice | src/services/finance.service.ts:22-74 | the new store state and outcome are those of `FetchPriceSpec` |
| Finance.YahooFinanceService.PriceFromSource | src/services/finance.service.ts:57-69 | the new store state and outcome are those of `PriceFromProvider` |
| Finance.YahooFinanceService.FetchMetrics | src/services/finance.service.ts:76-164 | the new store state and outcome are those of `FetchMetricsSpec` |
| Finance.YahooFinanceService.MetricsFromSource | src/services/finance.service.ts:120-156 | the new store state and outcome are those of `MetricsFromProvider` |
| Finance.YahooFinanceService.ResolveEarningsDate | src/services/finance.service.ts:139-146 | the date reassigned step by step is `EarningsDate` |
| Finance.PassesGateAndThrottle | src/services/finance.service.ts:29-43 | on a healthy store, a miss with the gate open and no flag passes both: the outbound count goes up by one, the clock is unchanged and the cache key still absent |
| Finance.PriceCacheHit | src/services/finance.service.ts:24-33 | a truthy `price:<ticker>` entry answers its `price`, with no counter, no flag and no provider call |
| Finance.PriceGateClosed | src/services/finance.service.ts:36-41 | a used-up outbound window gives the 500 rate-limit error, still counts the call, and makes no provider call |
| Finance.PriceThrottled | src/services/finance.service.ts:43-55 | throttled with nothing cached: the 400 "Please wait" error, the call counted, no provider call |
| Finance.ThrottledGate | src/services/finance.service.ts:43-50 | with the flag up the throttle refuses, and the re-read answers what the store holds |
| Finance.PriceThrottledStale | src/services/finance.service.ts:43-52 | throttled after a failed first read: the stale cached price is the answer, with no provider call |
| Finance.PriceReachesProvider | src/services/finance.service.ts:29-57 | a healthy miss with the gate open and no flag goes on to the provider from the admitted state |
| Finance.QuotePriceCached | src/services/finance.service.ts:57-69 | a numeric quote price is written to `price:<ticker>` for `PRICE_TTL` and returned, after one quote call |
| Finance.SecondPriceFromCache | src/services/finance.service.ts:22-69 | right after a fetched price is cached, the next fetch returns it from the cache without a provider call |
| Finance.ChartPriceNotCached | src/services/finance.service.ts:60-62 | a non-numeric quote falls back to the chart, whose price is returned and not cached |
| Finance.PriceNotFound | src/services/finance.service.ts:60-64 | with no number from the quote or the chart: "Price not found for <symbol>", status 400, nothing cached |
| Finance.PriceProviderError | src/services/finance.service.ts:70-73 | a quote error with a status code passes unchanged; any other becomes a 500 with its message or the default; nothing cached |
| Finance.MetricsCacheHit | src/services/finance.service.ts:83-90 | a truthy `metrics:<ticker>` entry is answered under the reader's field names, with no provider call |
| Finance.MetricsGateClosed | src/services/finance.service.ts:93-100 | a used-up outbound window gives the N/A pair and still counts the call |
| Finance.MetricsThrottled | src/services/finance.service.ts:103-118 | throttled with nothing cached: the N/A pair and no provider call |
| Finance.MetricsReachProvider | src/services/finance.service.ts:83-120 | a healthy miss with the gate open and no flag goes on to the provider from the admitted state |
| Finance.SummaryError | src/services/finance.service.ts:157-163 | a failing `quoteSummary` is re-thrown with a status code, gives the N/A pair without one, and caches nothing |
| Finance.QuoteOnlyWithoutSummaryPE | src/services/finance.service.ts:131-136 | `quote()` is called exactly when `quoteSummary` answered without a numeric trailing or forward P/E |
| Finance.AssembledCached | src/services/finance.service.ts:148-154 | the settled pair is cached under `metrics:<ticker>` for `METRICS_TTL` and returned |
| Finance.MetricsFromSummary | src/services/finance.service.ts:128-156 | with a P/E in the summary, the trailing (else forward) P/E and the earnings date (else "N/A") are cached and returned after one call |
| Finance.MetricsFromQuote | src/services/finance.service.ts:131-154 | without one, numeric `quote()` P/E values take their place, and "N/A" remains when there are none |
| Finance.InvalidEarningsDate | src/services/finance.service.ts:141 | an unusable calendar `raw` date throws without a status code: the N/A pair, nothing cached |
| Finance.LatestEarningsPriority | src/services/finance.service.ts:139-150 | `latestEarnings` is calendar `fmt`, then calendar `raw` as an ISO day, then a non-empty earnings-chart string, then "N/A"; never falsy |
| Finance.SecondMetricsLoseEarnings | src/services/finance.service.ts:85-89 | right after fresh metrics are cached, the next fetch is served from the cache with the same P/E and an undefined `latestEarnings` |
| Portfolio.CleanText | src/services/portfolio.service.ts:10-17 | a trimmed string is null exactly for an NA token, exactly when `Number` of the text without its commas is not NaN, that number (possibly an infinity), and otherwise itself |
| Portfolio.CleanCell | src/services/portfolio.service.ts:7-24 | null and undefined, NaN and the infinities given as numbers become null; strings are trimmed and cleaned, and may clean to an infinity; other values pass through |
| Portfolio.CleanCellIdempotent | src/services/portfolio.service.ts:47-49 | cleaning a cleaned cell changes nothing, except that an infinity becomes null |
| Portfolio.CellNumber | src/services/portfolio.service.ts:47-50 | `num` is a number exactly when the cleaned cell is one |
| Portfolio.OrZero | src/services/portfolio.service.ts:80-83 | the logical or with 0 on a number or null: the number, else 0 |
| Portfolio.Either | src/services/portfolio.service.ts:110-112 | `a ?? b` on two values that are numbers or null: `a` when it is a number, else `b` |
| Portfolio.OrElse | src/services/portfolio.service.ts:120-122 | the logical or on numbers: `x` unless it is 0, else `y` |
| Portfolio.SectorHeaderOnCanonicalColumns | src/services/portfolio.service.ts:26-33 | on canonical columns a row is a sector header exactly when No, NSE/BSE and Qty are missing, null or empty and Particulars is a string |
| Portfolio.IsSectorHeader | src/services/portfolio.service.ts:26-33 | a sector header has No, NSE/BSE and Qty missing, null or empty, and a string Particulars, or a nullish Particulars with a string `particulars` |
| Portfolio.ConvertSymbol | src/services/portfolio.service.ts:35-45 | blank or null gives no listing; a `.NS` suffix gives NSE upper-cased; `.BO` gives BSE upper-cased; digits give BSE plus `.BO`; anything else NSE plus `.NS` |
| Portfolio.ListingAgreesWithSuffix | src/services/portfolio.service.ts:40-44 | every provider symbol ends in `.NS` or `.BO`, and the exchange is NSE exactly for `.NS` |
| Portfolio.MakeItem | src/services/portfolio.service.ts:96-114 | the item's exchange comes from the NSE/BSE cell, its investment from the Investment cell, its P/E from `P/E (TTM)` or else `P/E` |
| Portfolio.CleanRow | src/services/portfolio.service.ts:53-57 | the cleaned record has the same keys, each value cleaned |
| Portfolio.CleanRows | src/services/portfolio.service.ts:53-57 | one cleaned record per row, in order |
| Portfolio.BlankAfterCleaning | src/services/portfolio.service.ts:93-94 | a record is skipped exactly when every cell cleans to null |
| Portfolio.EnsureSector | src/services/portfolio.service.ts:62-71 | the current sector is reused when it has the name; otherwise a new empty one is appended |
| Portfolio.Place | src/services/portfolio.service.ts:75-117 | one row changes only the last sector or adds one |
| Portfolio.Grouped | src/services/portfolio.service.ts:73-117 | the row loop always leaves at least one sector |
| Portfolio.FirstSectorUncategorized | src/services/portfolio.service.ts:62-73 | the first sector is always `Uncategorized` |
| Portfolio.HeaderRowSetsTotals | src/services/portfolio.service.ts:76-90 | a header row reuses the current sector exactly when it has the header's name, sets its totals, and adds no item |
| Portfolio.DataRowAppendsItem | src/services/portfolio.service.ts:96-116 | a non-blank data row appends exactly one item to the current sector |
| Portfolio.BlankRowSkipped | src/services/portfolio.service.ts:93-94 | a blank row changes nothing |
| Portfolio.PlaceItems | src/services/portfolio.service.ts:75-117 | one row adds its item, or none, at the end of the item list |
| Portfolio.ItemsInInputOrder | src/services/portfolio.service.ts:75-117 | the items of all sectors, read in order, are one per data row in input order |
| Portfolio.HeaderlessSheet | src/services/portfolio.service.ts:73-117 | without header rows there is one `Uncategorized` sector with zero totals and every item |
| Portfolio.SectorAmount | src/services/portfolio.service.ts:120-122 | a sector contributes its header total when non-zero, else the sum over its items |
| Portfolio.GrandSumWithoutHeaderTotals | src/services/portfolio.service.ts:119-124 | with no header totals, the grand total is the sum over all items, a null counting as 0 |
| Portfolio.Shares | src/services/portfolio.service.ts:127-132 | each sector's `portfolioPct` becomes its contribution over the total investment, the rest unchanged |
| Portfolio.SharesSum | src/services/portfolio.service.ts:127-132 | the recomputed shares add up to the grand investment over the given total |
| Portfolio.SharesSumToOne | src/services/portfolio.service.ts:126-132 | with a positive total investment, the sector shares add up to 1 |
| Portfolio.PortfolioShape | src/services/portfolio.service.ts:134-143 | the result keeps the sheet name, has total `portfolioPct` 1, starts with `Uncategorized`, keeps the grouped sectors' names and items, and changes no share unless the investment is positive |
| Portfolio.PortfolioOf | src/services/portfolio.service.ts:52-144 | the portfolio keeps the sheet name, has total `portfolioPct` 1, and its first sector is `Uncategorized` |
| Portfolio.HeaderlessTotals | src/services/portfolio.service.ts:119-124 | the totals of a sheet without header rows are the sums over its items |
| Portfolio.CleanRecord | src/services/portfolio.service.ts:54-56 | the key loop builds `CleanRow` |
| Portfolio.SumItems | src/services/portfolio.service.ts:120 | the item `reduce` computes `ItemsSum` |
| Portfolio.SectorContribution | src/services/portfolio.service.ts:120 | computes `SectorAmount`, summing the items only when the header total is zero |
| Portfolio.CleanRecords | src/services/portfolio.service.ts:53-57 | the `map` over the rows builds `CleanRows` |
| Portfolio.GroupRows | src/services/portfolio.service.ts:75-117 | the row loop builds `Grouped` |
| Portfolio.PlaceRow | src/services/portfolio.service.ts:76-116 | one pass of the row loop computes `Place` |
| Portfolio.ApplyHeader | src/services/portfolio.service.ts:77-88 | `ensureSector` and the four total assignments |
| Portfolio.GrandTotals | src/services/portfolio.service.ts:119-124 | the sector `reduce` computes the three grand sums |
| Portfolio.AssignShares | src/services/portfolio.service.ts:127-132 | the share loop computes `Shares` |
| Portfolio.BuildPortfolio | src/services/portfolio.service.ts:52-144 | the whole function computes `PortfolioOf` |
| Controller.HeaderIndex | src/controllers/stock.controller.ts:50-58 | the header row is one with the most filled cells, no earlier row has as many, and it is 0 for an empty sheet |
| Controller.HeaderRowIndex | src/controllers/stock.controller.ts:50-58 | the `forEach` computes `HeaderIndex` |
| Controller.RawHeaders | src/controllers/stock.controller.ts:60 | one text per cell of the header row, null as empty; none for an empty sheet |
| Controller.LoneSpaces | src/controllers/stock.controller.ts:67 | a text whose white space is lone single spaces is single-spaced |
| Controller.SpacesCollapsed | src/controllers/stock.controller.ts:65-67 | after both replacements the only white space is lone plain spaces, and every other character is kept in order |
| Controller.CleanedName | src/controllers/stock.controller.ts:65-68 | the cleaned name is trimmed, its only white space is lone plain spaces, and it keeps every other character of the raw header in order |
| Controller.TrimKeepsSingleSpaced | src/controllers/stock.controller.ts:68 | trimming keeps a name single-spaced |
| Controller.ColumnName | src/controllers/stock.controller.ts:69 | `col_<i+1>` is a non-empty, trimmed, single-spaced name starting with `col_` |
| Controller.HeaderBase | src/controllers/stock.controller.ts:65-70 | the base is the cleaned name, or `col_<i+1>` when that is empty; never empty |
| Controller.CleanNameKept | src/controllers/stock.controller.ts:65-70 | a name that is already trimmed and single-spaced is its own base |
| Controller.CollapseKeeps | src/controllers/stock.controller.ts:66-67 | collapsing leaves alone a text whose matching characters are lone spaces |
| Controller.OccursIffCounted | src/controllers/stock.controller.ts:71 | a base has been seen exactly when its count is positive |
| Controller.FirstOccurrenceKept | src/controllers/stock.controller.ts:70-77 | a column keeps its base exactly when no earlier column has it; the k-th repeat becomes `<base>_k` |
| Controller.DistinctNamesKept | src/controllers/stock.controller.ts:70-77 | distinct bases are kept as they are |
| Controller.RenamedRepeatCanCollide | src/controllers/stock.controller.ts:70-77 | `X, X, X_1` becomes `X, X_1, X_1`: the headers need not be distinct |
| Controller.CountsStep | src/controllers/stock.controller.ts:71-76 | updating `seen` as the loop does keeps it equal to the counts less one |
| Controller.BaseName | src/controllers/stock.controller.ts:65-70 | computes `HeaderBase` |
| Controller.Register | src/controllers/stock.controller.ts:71-77 | one `seen` update gives the disambiguated header and keeps the counts |
| Controller.HeaderStep | src/controllers/stock.controller.ts:64-78 | one pass appends that column's header and counts its base |
| Controller.BuildHeaders | src/controllers/stock.controller.ts:62-78 | the header loop computes `Headers` of the bases, one per raw header |
| Controller.Record | src/controllers/stock.controller.ts:85-88 | a record has exactly the header names as keys |
| Controller.RecordKeepsColumn | src/controllers/stock.controller.ts:86-88 | a column keeps its own cell unless a later column has the same header; a short row gives null |
| Controller.Records | src/controllers/stock.controller.ts:81-90 | there are never more records than rows |
| Controller.RecordsOfRows | src/controllers/stock.controller.ts:81-90 | empty rows give no record, every other row one record, each keyed by exactly the headers |
| Controller.DataRows | src/controllers/stock.controller.ts:80-90 | the data loop computes the records of the rows after the header row |
| Controller.RowRecord | src/controllers/stock.controller.ts:85-88 | the inner loop computes `Record` |
| Controller.GetExcelData | src/controllers/stock.controller.ts:35-97 | the reply is 404 without the file, and otherwise the portfolio built from the data records |
| Controller.ExcelSpec | src/controllers/stock.controller.ts:35-97 | 404 exactly when the file is missing; otherwise a portfolio with the sheet's name whose first sector is `Uncategorized` |
| Controller.GetStockPrice | src/controllers/stock.controller.ts:9-33 | the new store state and reply are those of `StockPriceSpec` |
| Controller.StockPriceSpec | src/controllers/stock.controller.ts:9-33 | an error reply has a status code; at most two provider calls, the first a quote of the normalised ticker; a cache hit makes no call and only reads the store |
| Controller.GetStockMetrics | src/controllers/stock.controller.ts:99-127 | the new store state and reply are those of `StockMetricsSpec` |
| Controller.StockMetricsSpec | src/controllers/stock.controller.ts:99-127 | an error reply has a status code; at most two provider calls, the first a `quoteSummary` of the normalised ticker; a cache hit makes no call and only reads the store |
| Controller.StockPriceHit | src/controllers/stock.controller.ts:14-19 | a truthy object under `price:<symbol>` is the reply, with no fetch |
| Controller.StockPriceError | src/controllers/stock.controller.ts:21-32 | a failed fetch is passed on, and nothing is cached under the raw symbol |
| Controller.StockPriceFetched | src/controllers/stock.controller.ts:22-29 | a fetched price is replied as `{symbol, price}` and cached under `price:<symbol>` after the service's writes |
| Controller.BothPriceWrites | src/controllers/stock.controller.ts:27 | the service's write under the ticker, then the controller's under the raw symbol, leaves both entries |
| Controller.AdmitLeavesStoreUp | src/services/finance.service.ts:36-43 | the gate and the throttle keep a healthy store healthy and the clock unchanged |
| Controller.FreshQuoteFetched | src/services/finance.service.ts:57-69 | after the raw symbol's miss the service answers the quote price and writes `price:<ticker>` |
| Controller.FreshQuoteHandled | src/controllers/stock.controller.ts:9-29 | the whole handler on a fresh quote: both writes, the `{symbol, price}` reply, one quote call |
| Controller.AdmittedPriceWrites | src/controllers/stock.controller.ts:27 | from the admitted state, both writes land with expiry now plus `PRICE_TTL` |
| Controller.PriceCachedUnderTwoKeys | src/controllers/stock.controller.ts:14-27 | a fresh price for a raw symbol that differs from its ticker is replied and cached under both `price:<symbol>` and `price:<ticker>` |
| Controller.StockMetricsFetched | src/controllers/stock.controller.ts:104-123 | fetched metrics are replied and cached under `metrics:<symbol>` after the service's writes |
| Controller.StockMetricsReply | src/controllers/stock.controller.ts:114-123 | the fetched reply carries the earnings date as `latestEarning` |
| Controller.Assemble | src/controllers/stock.controller.ts:158-170 | one item per symbol in order: a fulfilled value as it is, a rejection as the failure shape |
| Controller.SymbolSpec | src/controllers/stock.controller.ts:141-155 | the per-symbol mapper always fulfils with a fetched item for that symbol |
| Controller.SettleAll | src/controllers/stock.controller.ts:140-156 | one settled item per symbol |
| Controller.SettleAllFetched | src/controllers/stock.controller.ts:140-156 | every settled item is a fulfilled fetched item for the symbol at the same position |
| Controller.SettleAllSnoc | src/controllers/stock.controller.ts:140-156 | settling one more symbol runs its mapper on the store the earlier ones left |
| Controller.BatchPriceOf | src/controllers/stock.controller.ts:142-148 | a truthy cached object under `price:<symbol>` is used without a provider call, with the store only read |
| Controller.BatchRejectsNonArray | src/controllers/stock.controller.ts:133-138 | a non-array body gets 400 "Symbol must be an array", with no store or provider call |
| Controller.BatchKeepsOrder | src/controllers/stock.controller.ts:140-170 | the reply has one fetched item per symbol, in input order |
| Controller.BatchCachedPrice | src/controllers/stock.controller.ts:142-148 | a truthy cached object is used as the price as it is, with the service's metrics or the N/A pair |
| Controller.BatchFailuresDegrade | src/controllers/stock.controller.ts:144-148 | on a miss a failed price fetch gives a null price, and a failed metrics fetch the N/A pair |
| Controller.SettleSymbol | src/controllers/stock.controller.ts:141-155 | the new store state and outcome are those of `SymbolSpec` |
| Controller.GetBatchStocks | src/controllers/stock.controller.ts:129-176 | the new store state and reply are those of `BatchSpec` |
| Controller.BatchSpec | src/controllers/stock.controller.ts:129-176 | 400 exactly when the body is not an array; otherwise one item per symbol |
| Controller.SettleList | src/controllers/stock.controller.ts:140-156 | the mapper loop leaves the store and the settled items of `SettleAll` |

## Left out

- Concurrency: `Promise.allSettled` runs the per-symbol mappers together. The model runs them one
  after another, in input order. The non-atomic `EXISTS`/`SETEX` pair in `throttle`, and races
  between requests, are not modelled.
- The Redis connection (src/config/redis.config.ts) and the network. They are replaced by the `Db`
  value with an explicit plan of failing commands. Time is whole seconds. A store value is a
  counter or a JSON document.
- Stored values are not serialised. `Store.Stored` models the part that matters: undefined fields
  are dropped, and NaN and the infinities become null. A stored value always parses back, so
  `JSON.parse` failures do not occur.
- Yahoo Finance (`quote`, `chart`, `quoteSummary`) is a function of the ticker in a `Provider`
  value. The same ticker gets the same answer every time.
- Floating point is modelled as `real`. `Number(text)`, `String(number)` and
  `Date.prototype.toISOString` are the uninterpreted fields of `Host`. `Number(text)` may answer a
  number, NaN or an infinity.
- A fractional `*_TTL` environment value: Redis refuses a non-integer `SETEX` time, so every write
  with it fails silently. `Cache.ConfiguredTtl` takes the environment values as whole numbers.
- Js.Trim: its own contract states only that the result is trimmed and not longer.
  That it is the inner slice of the input is `Js.TrimFrames`, and that it keeps every other
  character is `Js.TrimKeepsOutside`.
- Js.RemoveCommas: its own contract does not count characters. That every other character is kept
  is `Js.RemoveCommasKeepsOthers`.
- Controller.SettleAll: its own contract states only the length. What each item is is
  `Controller.SettleAllFetched`.
- Controller.BatchPriceOf: its own contract covers only the cache hit. The miss is stated by
  `Controller.BatchFailuresDegrade` and `Controller.BatchKeepsOrder`.
- `Date.now()` is a parameter of the IP limiter.
- Express: request parsing, response writing and `next`.
  - The limiters return a verdict with the quota values instead of setting headers.
  - The 429 message texts are not modelled.
  - `getStockMetrics` re-throws instead of calling `next(error)`. Both are modelled as an error
    outcome.
- Reading the workbook (`fs.existsSync`, `XLSX.readFile`, `sheet_to_json`). The model takes as
  inputs whether the file exists, the first sheet's name, and its rows.
- src/utils/errors/app.error.ts is not part of this model. `InternalServerError` is taken as
  status 500 and `BadRequestError` as status 400.
- Logging, correlation ids, server start-up and the error middleware, which only echoes a status
  code.
- Names inherited from `Object.prototype`: a header such as `constructor` reads as already seen in
  the source's `seen` object. The model treats it like any other name. Likewise a record key is
  only an own key.
- Batch entries that are not strings: the model's symbols are strings. With strings, the
  per-symbol mapper cannot reject, so the failure shape of `getBatchStocks` never occurs
  (`Controller.SymbolSpec`).
- Js.Upper: maps only the ASCII letters. The full Unicode case mapping of `toUpperCase` is not
  modelled.
- The white space of `trim` and `\s` is a fixed list of characters (`Js.IsSpace`).
- The literal examples `"reliance"` and `" Reliance.BO "` of `normalizeToNSE` are not lemmas about
  those two strings. The verifier would have to unfold `trim` and `toUpperCase` over each
  literal. Finance.PlainTickerSuffixed and Finance.PaddedExchangeSuffixReplaced state the general
  cases they are instances of.
