/**
 * The rate limiter (`RateLimiter`): three fixed-window counters on the shared connection
 * (per client IP, per symbol, and outbound per provider) and a debounce flag. Every store error
 * lets the request through.
 */
module Limiter {
  import opened Js
  import opened Store
  import Cache

  /** `Math.ceil(ms / 1000)` for a whole number of milliseconds. */
  function CeilSeconds(ms: int): (r: int)
    ensures (r - 1) * 1000 < ms <= r * 1000
  {
    (ms + 999) / 1000
  }

  function Max0(x: int): (r: int)
    ensures r >= 0 && r >= x && (r == 0 || r == x)
  {
    if x > 0 then x else 0
  }

  /** The X-RateLimit-Limit, X-RateLimit-Remaining and X-RateLimit-Reset headers. */
  datatype Quota = Quota(limit: int, remaining: int, resetMs: int)

  /** What a middleware does: call `next()`, or answer 429 (with `retryAfter` for the IP limiter). */
  datatype Verdict = Proceed(quota: Option<Quota>) | Rejected(quota: Option<Quota>, retryAfter: Option<int>)

  datatype Api = Yahoo | Google

  function ApiName(api: Api): string {
    match api
    case Yahoo => "Yahoo"
    case Google => "google"
  }

  /** `req.ip || req.socket.remoteAddress || 'unknown'`, with "" for an absent address. */
  function ClientIp(ip: string, remoteAddress: string): string {
    if ip != "" then ip else if remoteAddress != "" then remoteAddress else "unknown"
  }

  function IpKey(ip: string): string {
    "rate_limit:ip:" + ip
  }

  function SymbolKey(symbol: string): string {
    "rate_limit:symbol:" + symbol
  }

  function ExternalKey(api: Api): string {
    "rate_limit:external:" + ApiName(api)
  }

  function ThrottleKey(key: string): string {
    "throttle:" + key
  }

  const MaxPerSymbol := 10
  const SymbolWindowSeconds := 60
  const MaxExternalCalls := 50
  const ExternalWindowSeconds := 60

  /** The limiter the router uses: a 60 s window and 30 requests. */
  const RouterWindowMs := 60000
  const RouterMaxRequests := 30

  /**
   * The step every counter shares: INCR, and EXPIRE when the count is 1. Fails when either
   * command fails; otherwise answers the incremented count.
   */
  function CountStep(db: Db, key: string, windowSeconds: int): (r: Step<int>)
    ensures r.db.now == db.now
    ensures forall k :: k != key ==> (k in r.db.data <==> k in db.data)
    ensures forall k :: k != key && k in db.data ==> r.db.data[k] == db.data[k]
  {
    var s := IncrStep(db, key);
    if s.reply.Failed? then s
    else if s.reply.value == 1 then
      var e := ExpireStep(s.db, key, windowSeconds);
      if e.reply.Failed? then Step(e.db, Failed) else Step(e.db, s.reply)
    else s
  }

  /** `byIP`: count, read the TTL, report the quota, reject once the count exceeds the maximum. */
  function ByIPStep(db: Db, ip: string, windowMs: int, maxRequests: int, nowMs: int): (r: (Db, Verdict))
    ensures r.0.now == db.now
    ensures r.1.Rejected? ==> r.1.quota.Some? && r.1.quota.value.remaining == 0 && r.1.retryAfter.Some?
    ensures r.1.quota.Some? ==> r.1.quota.value.limit == maxRequests && r.1.quota.value.remaining >= 0
  {
    var key := IpKey(ip);
    var c := CountStep(db, key, CeilSeconds(windowMs));
    if c.reply.Failed? then (c.db, Proceed(None))
    else
      var t := TtlStep(c.db, key);
      if t.reply.Failed? then (t.db, Proceed(None))
      else
        var current := c.reply.value;
        var ttl := t.reply.value;
        var quota := Quota(maxRequests, Max0(maxRequests - current), nowMs + ttl * 1000);
        if current > maxRequests then (t.db, Rejected(Some(quota), Some(ttl)))
        else (t.db, Proceed(Some(quota)))
  }

  /** `bySymbol`: no symbol, no counting; otherwise at most 10 per 60 s and no quota headers. */
  function BySymbolStep(db: Db, symbol: string): (r: (Db, Verdict))
    ensures symbol == "" ==> r == (db, Proceed(None))
    ensures r.1 == Proceed(None) || r.1 == Rejected(None, None)
    ensures r.0.now == db.now
  {
    if symbol == "" then (db, Proceed(None))
    else
      var c := CountStep(db, SymbolKey(symbol), SymbolWindowSeconds);
      if c.reply.Failed? then (c.db, Proceed(None))
      else if c.reply.value > MaxPerSymbol then (c.db, Rejected(None, None))
      else (c.db, Proceed(None))
  }

  /** `checkExternalApiLimit`: consumes one outbound call and answers `current <= 50`. */
  function ExternalStep(db: Db, api: Api): (r: (Db, bool))
    ensures r.0.now == db.now
    ensures NextFails(db) ==> r == (Answered(db), true)
  {
    var c := CountStep(db, ExternalKey(api), ExternalWindowSeconds);
    if c.reply.Failed? then (c.db, true) else (c.db, c.reply.value <= MaxExternalCalls)
  }

  /** `throttle`: EXISTS on the flag, and SETEX of the flag for `ceil(delayMs / 1000)` seconds when absent. */
  function ThrottleStep(db: Db, key: string, delayMs: int): (r: (Db, bool))
    ensures r.0.now == db.now
    ensures !r.1 ==> r.0 == Answered(db) && ThrottleKey(key) in db.data
    ensures NextFails(db) ==> r == (Answered(db), true)
  {
    var flag := ThrottleKey(key);
    var e := ExistsStep(db, flag);
    if e.reply.Failed? then (e.db, true)
    else if e.reply.value != 0 then (e.db, false)
    else (SetExStep(e.db, flag, CeilSeconds(delayMs), Count(1)).db, true)
  }

  class RateLimiter {
    const store: RedisStore
    const windowMs: int
    const maxRequests: int

    constructor (store: RedisStore, windowMs: int, maxRequest: int)
      ensures this.store == store && this.windowMs == windowMs && this.maxRequests == maxRequest
    {
      this.store, this.windowMs, this.maxRequests := store, windowMs, maxRequest;
    }

    method ByIP(ip: string, remoteAddress: string, nowMs: int) returns (v: Verdict)
      modifies store
      ensures (store.State(), v) == ByIPStep(old(store.State()), ClientIp(ip, remoteAddress), windowMs, maxRequests, nowMs)
    {
      var key := IpKey(ClientIp(ip, remoteAddress));
      var current := store.Incr(key);
      if current.Failed? {
        return Proceed(None);
      }
      if current.value == 1 {
        var e := store.Expire(key, CeilSeconds(windowMs));
        if e.Failed? {
          return Proceed(None);
        }
      }
      var ttl := store.Ttl(key);
      if ttl.Failed? {
        return Proceed(None);
      }
      var quota := Quota(maxRequests, Max0(maxRequests - current.value), nowMs + ttl.value * 1000);
      if current.value > maxRequests {
        return Rejected(Some(quota), Some(ttl.value));
      }
      return Proceed(Some(quota));
    }

    method BySymbol(symbol: string) returns (v: Verdict)
      modifies store
      ensures (store.State(), v) == BySymbolStep(old(store.State()), symbol)
    {
      if symbol == "" {
        return Proceed(None);
      }
      var key := SymbolKey(symbol);
      var current := store.Incr(key);
      if current.Failed? {
        return Proceed(None);
      }
      if current.value == 1 {
        var e := store.Expire(key, SymbolWindowSeconds);
        if e.Failed? {
          return Proceed(None);
        }
      }
      if current.value > MaxPerSymbol {
        return Rejected(None, None);
      }
      return Proceed(None);
    }

    method CheckExternalApiLimit(api: Api) returns (allowed: bool)
      modifies store
      ensures (store.State(), allowed) == ExternalStep(old(store.State()), api)
    {
      var key := ExternalKey(api);
      var current := store.Incr(key);
      if current.Failed? {
        return true;
      }
      if current.value == 1 {
        var e := store.Expire(key, ExternalWindowSeconds);
        if e.Failed? {
          return true;
        }
      }
      return current.value <= MaxExternalCalls;
    }

    method Throttle(key: string, delayMs: int) returns (proceed: bool)
      modifies store
      ensures (store.State(), proceed) == ThrottleStep(old(store.State()), key, delayMs)
    {
      var flag := ThrottleKey(key);
      var present := store.Exists(flag);
      if present.Failed? {
        return true;
      }
      if present.value != 0 {
        return false;
      }
      var _ := store.SetEx(flag, CeilSeconds(delayMs), Count(1));
      return true;
    }
  }

  /** The middleware chain of a route: the IP limiter, then (on single-symbol routes) the symbol limiter. */
  datatype Route = Route(ip: Verdict, symbol: Option<Verdict>)

  predicate Admitted(r: Route) {
    r.ip.Proceed? && (r.symbol.None? || r.symbol.value.Proceed?)
  }

  /** `/:symbol/price` and `/:symbol/metrics`: byIP, then bySymbol only when byIP called `next`. */
  function SymbolRouteStep(db: Db, windowMs: int, maxRequests: int, ip: string, symbol: string, nowMs: int): (Db, Route) {
    var (d1, v1) := ByIPStep(db, ip, windowMs, maxRequests, nowMs);
    if v1.Rejected? then (d1, Route(v1, None))
    else
      var (d2, v2) := BySymbolStep(d1, symbol);
      (d2, Route(v1, Some(v2)))
  }

  /** `/batch`: byIP only. */
  function BatchRouteStep(db: Db, windowMs: int, maxRequests: int, ip: string, nowMs: int): (Db, Route) {
    var (d1, v1) := ByIPStep(db, ip, windowMs, maxRequests, nowMs);
    (d1, Route(v1, None))
  }

  method SymbolRoute(limiter: RateLimiter, ip: string, remoteAddress: string, symbol: string, nowMs: int) returns (r: Route)
    modifies limiter.store
    ensures (limiter.store.State(), r) == SymbolRouteStep(old(limiter.store.State()), limiter.windowMs, limiter.maxRequests, ClientIp(ip, remoteAddress), symbol, nowMs)
  {
    var v1 := limiter.ByIP(ip, remoteAddress, nowMs);
    if v1.Rejected? {
      return Route(v1, None);
    }
    var v2 := limiter.BySymbol(symbol);
    return Route(v1, Some(v2));
  }

  method BatchRoute(limiter: RateLimiter, ip: string, remoteAddress: string, nowMs: int) returns (r: Route)
    modifies limiter.store
    ensures (limiter.store.State(), r) == BatchRouteStep(old(limiter.store.State()), limiter.windowMs, limiter.maxRequests, ClientIp(ip, remoteAddress), nowMs)
  {
    var v1 := limiter.ByIP(ip, remoteAddress, nowMs);
    return Route(v1, None);
  }

  // ---------------------------------------------------------------------------------------------
  // Properties

  /** What TTL answers for a live key: the seconds left, or -1 without expiry. */
  function SecondsLeft(db: Db, key: string): int
    requires key in db.data
  {
    match db.data[key].expiresAt
    case None => -1
    case Some(t) => t - db.now
  }

  /** The count a key holds now (0 when absent). */
  function Prior(db: Db, key: string): int {
    if key in db.data && db.data[key].value.Count? then db.data[key].value.n else 0
  }

  /** The key holds a counter or nothing, so INCR can work on it. */
  predicate Countable(db: Db, key: string) {
    key !in db.data || db.data[key].value.Count?
  }

  /** A 500 ms debounce lasts one second. */
  lemma HalfSecondRoundsUp()
    ensures CeilSeconds(500) == 1 && CeilSeconds(60000) == 60 && CeilSeconds(0) == 0
  {
  }

  /** On a healthy store, INCR adds one, and the window's expiry is set only by the first increment. */
  lemma {:induction false} CountStepHealthy(db: Db, key: string, w: int)
    requires Up(db) && Countable(db, key) && w > 0
    ensures var r := CountStep(db, key, w);
      && r.reply == Done(Prior(db, key) + 1)
      && Up(r.db)
      && key in r.db.data
      && r.db.data[key].value == Count(Prior(db, key) + 1)
      && r.db.data[key].expiresAt == (if Prior(db, key) == 0 then Some(db.now + w) else db.data[key].expiresAt)
  {
    var s := IncrStep(db, key);
    assert !NextFails(db);
    if key in db.data {
      if Prior(db, key) + 1 == 1 {
        assert Up(s.db);
        assert !NextFails(s.db);
      }
    } else {
      assert Up(s.db);
      assert !NextFails(s.db);
    }
  }

  /**
   * byIP rejects exactly when the incremented count exceeds the maximum; the remaining quota it
   * reports is `max(0, max - current)` and never negative; the retry-after hint is the key's TTL.
   */
  lemma {:induction false} ByIPDecision(db: Db, ip: string, windowMs: int, maxRequests: int, nowMs: int)
    requires Up(db) && Countable(db, IpKey(ip)) && windowMs > 0
    ensures var (d, v) := ByIPStep(db, ip, windowMs, maxRequests, nowMs);
      var current := Prior(db, IpKey(ip)) + 1;
      && v.quota.Some?
      && v.quota.value.remaining == Max0(maxRequests - current) >= 0
      && v.quota.value.limit == maxRequests
      && IpKey(ip) in d.data
      && v.quota.value.resetMs == nowMs + SecondsLeft(d, IpKey(ip)) * 1000
      && (v.Rejected? <==> current > maxRequests)
      && (v.Rejected? ==> v.retryAfter == Some(SecondsLeft(d, IpKey(ip))))
      && d.data[IpKey(ip)].value == Count(current)
      && d.data[IpKey(ip)].expiresAt == (if current == 1 then Some(db.now + CeilSeconds(windowMs)) else db.data[IpKey(ip)].expiresAt)
      && Up(d)
  {
    var key := IpKey(ip);
    CountStepHealthy(db, key, CeilSeconds(windowMs));
    var c := CountStep(db, key, CeilSeconds(windowMs));
    assert !NextFails(c.db);
  }

  /** byIP touches only its own key. */
  lemma ByIPOnlyOwnKey(db: Db, ip: string, windowMs: int, maxRequests: int, nowMs: int, k: string)
    requires k != IpKey(ip)
    ensures var d := ByIPStep(db, ip, windowMs, maxRequests, nowMs).0;
      (k in d.data <==> k in db.data) && (k in db.data ==> d.data[k] == db.data[k])
  {
    var c := CountStep(db, IpKey(ip), CeilSeconds(windowMs));
    assert ByIPStep(db, ip, windowMs, maxRequests, nowMs).0.data == c.db.data;
  }

  /** The store after `n` requests from one address at the same instant. */
  function ByIPAfter(db: Db, ip: string, windowMs: int, maxRequests: int, nowMs: int, n: nat): Db
    decreases n
  {
    if n == 0 then db else ByIPAfter(ByIPStep(db, ip, windowMs, maxRequests, nowMs).0, ip, windowMs, maxRequests, nowMs, n - 1)
  }

  /** The verdict on the `n`-th of those requests. */
  function ByIPNth(db: Db, ip: string, windowMs: int, maxRequests: int, nowMs: int, n: nat): Verdict
    requires n >= 1
  {
    ByIPStep(ByIPAfter(db, ip, windowMs, maxRequests, nowMs, n - 1), ip, windowMs, maxRequests, nowMs).1
  }

  /** After a request: a connection that never fails, and a counter for `key` at `n` with expiry `t`. */
  predicate Counted(d: Db, key: string, n: int, t: int) {
    d.faults == [] && key in d.data && d.data[key] == Entry(Count(n), Some(t))
  }

  /** The first request of a window counts 1 and arms the window. */
  lemma ByIPFirstRequest(db: Db, ip: string, windowMs: int, maxRequests: int, nowMs: int)
    requires db.faults == [] && IpKey(ip) !in db.data && windowMs > 0
    ensures Counted(ByIPStep(db, ip, windowMs, maxRequests, nowMs).0, IpKey(ip), 1, db.now + CeilSeconds(windowMs))
    ensures ByIPStep(db, ip, windowMs, maxRequests, nowMs).0.now == db.now
    ensures ByIPStep(db, ip, windowMs, maxRequests, nowMs).1.Rejected? <==> 1 > maxRequests
  {
    ByIPDecision(db, ip, windowMs, maxRequests, nowMs);
  }

  /** A later request of the same window: the count goes up by one and the window stays as it was. */
  lemma ByIPLaterRequest(db: Db, ip: string, windowMs: int, maxRequests: int, nowMs: int, m: int, t: int)
    requires Counted(db, IpKey(ip), m, t) && m >= 1 && windowMs > 0
    ensures Counted(ByIPStep(db, ip, windowMs, maxRequests, nowMs).0, IpKey(ip), m + 1, t)
    ensures ByIPStep(db, ip, windowMs, maxRequests, nowMs).0.now == db.now
    ensures ByIPStep(db, ip, windowMs, maxRequests, nowMs).1.Rejected? <==> m + 1 > maxRequests
  {
    ByIPDecision(db, ip, windowMs, maxRequests, nowMs);
  }

  /** Further requests of a window each add one to the count and leave the window as it is. */
  lemma {:induction false} ByIPLaterRequests(db: Db, ip: string, windowMs: int, maxRequests: int, nowMs: int, m: int, t: int, k: nat)
    requires Counted(db, IpKey(ip), m, t) && m >= 1 && windowMs > 0
    ensures Counted(ByIPAfter(db, ip, windowMs, maxRequests, nowMs, k), IpKey(ip), m + k, t)
    ensures ByIPAfter(db, ip, windowMs, maxRequests, nowMs, k).now == db.now
    decreases k
  {
    if k > 0 {
      ByIPLaterRequest(db, ip, windowMs, maxRequests, nowMs, m, t);
      ByIPLaterRequests(ByIPStep(db, ip, windowMs, maxRequests, nowMs).0, ip, windowMs, maxRequests, nowMs, m + 1, t, k - 1);
    }
  }

  /** Within one window, starting from no counter, `n` requests leave the count at `n` with the window armed by the first. */
  lemma ByIPAfterRequests(db: Db, ip: string, windowMs: int, maxRequests: int, nowMs: int, n: nat)
    requires db.faults == [] && IpKey(ip) !in db.data && windowMs > 0 && n >= 1
    ensures Counted(ByIPAfter(db, ip, windowMs, maxRequests, nowMs, n), IpKey(ip), n, db.now + CeilSeconds(windowMs))
    ensures ByIPAfter(db, ip, windowMs, maxRequests, nowMs, n).now == db.now
  {
    ByIPFirstRequest(db, ip, windowMs, maxRequests, nowMs);
    ByIPLaterRequests(ByIPStep(db, ip, windowMs, maxRequests, nowMs).0, ip, windowMs, maxRequests, nowMs, 1, db.now + CeilSeconds(windowMs), n - 1);
  }

  /** The n-th request of a window is rejected exactly when n exceeds the maximum. */
  lemma ByIPNthVerdict(db: Db, ip: string, windowMs: int, maxRequests: int, nowMs: int, n: nat)
    requires db.faults == [] && IpKey(ip) !in db.data && windowMs > 0 && n >= 1
    ensures ByIPNth(db, ip, windowMs, maxRequests, nowMs, n).Rejected? <==> n > maxRequests
  {
    if n == 1 {
      ByIPFirstRequest(db, ip, windowMs, maxRequests, nowMs);
    } else {
      ByIPAfterRequests(db, ip, windowMs, maxRequests, nowMs, n - 1);
      ByIPLaterRequest(ByIPAfter(db, ip, windowMs, maxRequests, nowMs, n - 1), ip, windowMs, maxRequests, nowMs, n - 1, db.now + CeilSeconds(windowMs));
    }
  }

  /**
   * The request that reaches the maximum passes; the next one in the same window is rejected with
   * nothing remaining, a reset at the end of the window, and the window's length as retry-after.
   */
  lemma LastAllowedThenRejected(db: Db, ip: string, windowMs: int, maxRequests: int, nowMs: int)
    requires db.faults == [] && IpKey(ip) !in db.data && windowMs > 0 && maxRequests >= 1
    ensures ByIPNth(db, ip, windowMs, maxRequests, nowMs, maxRequests).Proceed?
    ensures ByIPNth(db, ip, windowMs, maxRequests, nowMs, maxRequests + 1) ==
      Rejected(Some(Quota(maxRequests, 0, nowMs + CeilSeconds(windowMs) * 1000)), Some(CeilSeconds(windowMs)))
  {
    ByIPNthVerdict(db, ip, windowMs, maxRequests, nowMs, maxRequests);
    ByIPAfterRequests(db, ip, windowMs, maxRequests, nowMs, maxRequests);
    var prev := ByIPAfter(db, ip, windowMs, maxRequests, nowMs, maxRequests);
    ByIPLaterRequest(prev, ip, windowMs, maxRequests, nowMs, maxRequests, db.now + CeilSeconds(windowMs));
    ByIPDecision(prev, ip, windowMs, maxRequests, nowMs);
    var d := ByIPStep(prev, ip, windowMs, maxRequests, nowMs).0;
    assert SecondsLeft(d, IpKey(ip)) == CeilSeconds(windowMs);
    assert ByIPAfter(db, ip, windowMs, maxRequests, nowMs, maxRequests + 1 - 1) == prev;
  }

  /** With the router's limiter (60 s, 30 requests), the 30th request passes and the 31st is told to retry after 60 s. */
  lemma ThirtyFirstRequestRejected(db: Db, ip: string, nowMs: int, windowMs: int, maxRequests: int)
    requires windowMs == RouterWindowMs && maxRequests == RouterMaxRequests
    requires db.faults == [] && IpKey(ip) !in db.data
    ensures ByIPNth(db, ip, windowMs, maxRequests, nowMs, maxRequests).Proceed?
    ensures ByIPNth(db, ip, windowMs, maxRequests, nowMs, maxRequests + 1) == Rejected(Some(Quota(30, 0, nowMs + 60000)), Some(60))
  {
    RouterWindowSeconds(windowMs);
    LastAllowedThenRejected(db, ip, windowMs, maxRequests, nowMs);
  }

  /** The router's 60 000 ms window is 60 whole seconds. */
  lemma RouterWindowSeconds(windowMs: int)
    requires windowMs == RouterWindowMs
    ensures CeilSeconds(windowMs) == 60 && CeilSeconds(windowMs) * 1000 == 60000
  {
  }




  /** Once the window has run out, the next request counts 1 and passes, whatever the old count was. */
  lemma {:induction false} NewWindowStartsAtOne(db: Db, ip: string, windowMs: int, maxRequests: int, nowMs: int, elapsed: nat)
    requires Up(db) && IpKey(ip) in db.data && db.data[IpKey(ip)].expiresAt.Some?
    requires db.now + elapsed >= db.data[IpKey(ip)].expiresAt.value
    requires windowMs > 0 && maxRequests >= 1
    ensures var (d, v) := ByIPStep(Advance(db, elapsed), ip, windowMs, maxRequests, nowMs);
      v.Proceed? && d.data[IpKey(ip)].value == Count(1)
  {
    var later := Advance(db, elapsed);
    assert IpKey(ip) !in later.data;
    ByIPDecision(later, ip, windowMs, maxRequests, nowMs);
  }

  /**
   * If EXPIRE fails after the first INCR, the request passes but the counter is left without
   * expiry, so no amount of waiting resets it.
   */
  lemma {:induction false} LostExpireNeverResets(db: Db, ip: string, windowMs: int, maxRequests: int, nowMs: int, elapsed: nat)
    requires !NextFails(db) && IpKey(ip) !in db.data && NextFails(Answered(db))
    ensures var (d, v) := ByIPStep(db, ip, windowMs, maxRequests, nowMs);
      && v == Proceed(None)
      && IpKey(ip) in Advance(d, elapsed).data
      && Advance(d, elapsed).data[IpKey(ip)] == Entry(Count(1), None)
  {
  }

  /** bySymbol without a symbol calls `next` and leaves the store exactly as it was. */
  lemma BySymbolWithoutSymbol(db: Db)
    ensures BySymbolStep(db, "") == (db, Proceed(None))
  {
  }

  /** bySymbol rejects exactly past 10 requests per symbol, never sends quota headers, and arms a 60 s window. */
  lemma {:induction false} BySymbolDecision(db: Db, symbol: string)
    requires Up(db) && Countable(db, SymbolKey(symbol)) && symbol != ""
    ensures var (d, v) := BySymbolStep(db, symbol);
      && v.quota.None? && (v.Rejected? ==> v.retryAfter.None?)
      && (v.Rejected? <==> Prior(db, SymbolKey(symbol)) + 1 > 10)
      && d.data[SymbolKey(symbol)].value == Count(Prior(db, SymbolKey(symbol)) + 1)
      && (SymbolKey(symbol) !in db.data ==> d.data[SymbolKey(symbol)].expiresAt == Some(db.now + 60))
  {
    CountStepHealthy(db, SymbolKey(symbol), SymbolWindowSeconds);
  }

  /** The outbound gate answers `current <= 50`, counting the call even when it refuses. */
  lemma {:induction false} ExternalDecision(db: Db, api: Api)
    requires Up(db) && Countable(db, ExternalKey(api))
    ensures var (d, ok) := ExternalStep(db, api);
      && (ok <==> Prior(db, ExternalKey(api)) + 1 <= 50)
      && d.data[ExternalKey(api)].value == Count(Prior(db, ExternalKey(api)) + 1)
      && Up(d)
  {
    CountStepHealthy(db, ExternalKey(api), ExternalWindowSeconds);
  }

  /** The store after `n` outbound checks at the same instant. */
  function ExternalAfter(db: Db, api: Api, n: nat): Db
    decreases n
  {
    if n == 0 then db else ExternalAfter(ExternalStep(db, api).0, api, n - 1)
  }

  /** One check on a closed gate: refused, counted, the window unchanged. */
  lemma ExternalClosedCheck(db: Db, api: Api, c: int, e: Option<int>)
    requires Up(db) && ExternalKey(api) in db.data && db.data[ExternalKey(api)] == Entry(Count(c), e) && c >= 50
    ensures !ExternalStep(db, api).1 && Up(ExternalStep(db, api).0)
    ensures ExternalKey(api) in ExternalStep(db, api).0.data
    ensures ExternalStep(db, api).0.data[ExternalKey(api)] == Entry(Count(c + 1), e)
  {
    ExternalDecision(db, api);
    CountStepHealthy(db, ExternalKey(api), ExternalWindowSeconds);
  }

  /**
   * Once the count has reached 50, every further check in the same window answers false (and keeps
   * counting): the gate reopens only when the key expires.
   */
  lemma {:induction false} ExternalStaysClosed(db: Db, api: Api, c: int, e: Option<int>, k: nat)
    requires Up(db) && ExternalKey(api) in db.data && db.data[ExternalKey(api)] == Entry(Count(c), e) && c >= 50
    ensures !ExternalStep(ExternalAfter(db, api, k), api).1
    ensures Up(ExternalAfter(db, api, k)) && ExternalKey(api) in ExternalAfter(db, api, k).data
    ensures ExternalAfter(db, api, k).data[ExternalKey(api)] == Entry(Count(c + k), e)
    decreases k
  {
    ExternalClosedCheck(db, api, c, e);
    if k > 0 {
      ExternalStaysClosed(ExternalStep(db, api).0, api, c + 1, e, k - 1);
    }
  }

  /** A present flag answers false and changes nothing but the consumed answer. */
  lemma ThrottleWhileFlagged(db: Db, key: string, delayMs: int)
    requires !NextFails(db) && ThrottleKey(key) in db.data
    ensures ThrottleStep(db, key, delayMs) == (Answered(db), false)
  {
  }

  /** An absent flag is set for `ceil(delayMs / 1000)` seconds and the caller may proceed. */
  lemma {:induction false} ThrottleArmsFlag(db: Db, key: string, delayMs: int)
    requires Up(db) && ThrottleKey(key) !in db.data && delayMs > 0
    ensures var (d, go) := ThrottleStep(db, key, delayMs);
      && go
      && ThrottleKey(key) in d.data
      && d.data[ThrottleKey(key)] == Entry(Count(1), Some(db.now + CeilSeconds(delayMs)))
  {
    assert !NextFails(Answered(db));
  }

  /** A non-positive delay makes SETEX fail, which is swallowed: the flag is never set and every call proceeds. */
  lemma {:induction false} ThrottleWithoutDelayNeverFlags(db: Db, key: string, delayMs: int)
    requires Up(db) && ThrottleKey(key) !in db.data && delayMs <= 0
    ensures var (d, go) := ThrottleStep(db, key, delayMs);
      go && d.data == db.data
  {
  }

  /** Two fetches 0 s apart: the second is collapsed; one second later the flag is gone and the next proceeds. */
  lemma {:induction false} ThrottleHalfSecond(db: Db, key: string)
    requires Up(db) && ThrottleKey(key) !in db.data
    ensures var (d1, first) := ThrottleStep(db, key, 500);
      var (d2, second) := ThrottleStep(d1, key, 500);
      var (_, third) := ThrottleStep(Advance(d2, 1), key, 500);
      first && !second && third
  {
    ThrottleArmsFlag(db, key, 500);
    var (d1, _) := ThrottleStep(db, key, 500);
    assert !NextFails(d1);
    var (d2, _) := ThrottleStep(d1, key, 500);
    assert Up(d2) by {
      assert d2.faults == Answered(d1).faults;
    }
    assert d2.data == d1.data;
    assert ThrottleKey(key) !in Advance(d2, 1).data;
  }

  /** Fail open on the first command: when it errors, every limiter lets the request through. */
  lemma FailOpen(db: Db, ip: string, windowMs: int, maxRequests: int, nowMs: int, symbol: string, api: Api, key: string, delayMs: int)
    requires NextFails(db)
    ensures ByIPStep(db, ip, windowMs, maxRequests, nowMs) == (Answered(db), Proceed(None))
    ensures BySymbolStep(db, symbol).1 == Proceed(None)
    ensures ExternalStep(db, api) == (Answered(db), true)
    ensures ThrottleStep(db, key, delayMs) == (Answered(db), true)
  {
  }

  /**
   * Fail open on the second command: the first was answered and the next one fails. For byIP that
   * is EXPIRE on a new window and TTL otherwise; the symbol and outbound counters issue EXPIRE
   * only on a new window, and the throttle SETEX only when no flag is set. A lost EXPIRE leaves
   * the new counter at 1 without expiry; a lost SETEX leaves no flag.
   */
  lemma FailOpenOnSecondCommand(db: Db, ip: string, windowMs: int, maxRequests: int, nowMs: int, symbol: string, api: Api, key: string, delayMs: int)
    requires !NextFails(db) && NextFails(Answered(db))
    ensures ByIPStep(db, ip, windowMs, maxRequests, nowMs).1 == Proceed(None)
    ensures symbol != "" && SymbolKey(symbol) !in db.data ==>
      var (d, v) := BySymbolStep(db, symbol);
      v == Proceed(None) && d.data[SymbolKey(symbol)] == Entry(Count(1), None)
    ensures ExternalKey(api) !in db.data ==>
      var (d, open) := ExternalStep(db, api);
      open && d.data[ExternalKey(api)] == Entry(Count(1), None)
    ensures ThrottleKey(key) !in db.data ==>
      var (d, go) := ThrottleStep(db, key, delayMs);
      go && ThrottleKey(key) !in d.data
  {
  }

  /** Fail open on byIP's third command, the TTL read that follows EXPIRE on a new window. */
  lemma ByIPFailOpenOnTtl(db: Db, ip: string, windowMs: int, maxRequests: int, nowMs: int)
    requires !NextFails(db) && !NextFails(Answered(db)) && NextFails(Answered(Answered(db)))
    requires IpKey(ip) !in db.data
    ensures ByIPStep(db, ip, windowMs, maxRequests, nowMs).1 == Proceed(None)
  {
  }

  /**
   * A rejection by byIP means every store command it issued succeeded: INCR, then EXPIRE on a
   * new window, then TTL.
   */
  lemma {:induction false} ByIPRejectsOnlyOnAnswers(db: Db, ip: string, windowMs: int, maxRequests: int, nowMs: int)
    requires ByIPStep(db, ip, windowMs, maxRequests, nowMs).1.Rejected?
    ensures !NextFails(db) && !NextFails(Answered(db))
    ensures IpKey(ip) !in db.data ==> !NextFails(Answered(Answered(db)))
    ensures IpKey(ip) in db.data ==> db.data[IpKey(ip)].value.Count?
  {
  }

  /** The limiter's four key spaces and the cache's two never share a key. */
  lemma KeyspacesDisjoint(a: string, b: string, api: Api)
    ensures IpKey(a) != SymbolKey(b) && IpKey(a) != ExternalKey(api) && SymbolKey(a) != ExternalKey(api)
    ensures ThrottleKey(a) != IpKey(b) && ThrottleKey(a) != SymbolKey(b) && ThrottleKey(a) != ExternalKey(api)
    ensures Cache.PriceKey(a) != IpKey(b) && Cache.PriceKey(a) != SymbolKey(b) && Cache.PriceKey(a) != ThrottleKey(b)
    ensures Cache.PriceKey(a) != ExternalKey(api)
    ensures Cache.MetricsKey(a) != IpKey(b) && Cache.MetricsKey(a) != SymbolKey(b) && Cache.MetricsKey(a) != ThrottleKey(b)
    ensures Cache.MetricsKey(a) != ExternalKey(api)
  {
    assert IpKey(a)[11] == 'i' && SymbolKey(b)[11] == 's' && ExternalKey(api)[11] == 'e';
    assert SymbolKey(a)[11] == 's';
    assert ThrottleKey(a)[0] == 't' && IpKey(b)[0] == 'r' && SymbolKey(b)[0] == 'r' && ExternalKey(api)[0] == 'r';
    assert Cache.PriceKey(a)[0] == 'p' && Cache.MetricsKey(a)[0] == 'm' && ThrottleKey(b)[0] == 't';
  }

  /** deleteAll on the cache also wipes the limiter: the next request counts 1 and the next fetch is not throttled. */
  lemma {:induction false} DeleteAllResetsLimiter(db: Db, ip: string, windowMs: int, maxRequests: int, nowMs: int, key: string)
    requires Up(db) && windowMs > 0 && maxRequests >= 1
    ensures var flushed := Cache.DeleteAllStep(db);
      && ByIPStep(flushed, ip, windowMs, maxRequests, nowMs).1.Proceed?
      && ByIPStep(flushed, ip, windowMs, maxRequests, nowMs).0.data[IpKey(ip)].value == Count(1)
      && ThrottleStep(flushed, key, 500).1
  {
    var flushed := Cache.DeleteAllStep(db);
    assert Up(flushed) by {
      assert flushed.faults == Answered(db).faults;
    }
    ByIPDecision(flushed, ip, windowMs, maxRequests, nowMs);
    ThrottleArmsFlag(flushed, key, 500);
  }

  /** A request the IP limiter rejects never reaches the symbol counter; the batch route never counts symbols. */
  lemma RoutesCountSymbolsOnlyWhenAdmittedByIP(db: Db, windowMs: int, maxRequests: int, ip: string, symbol: string, nowMs: int, s: string)
    ensures var (d, r) := SymbolRouteStep(db, windowMs, maxRequests, ip, symbol, nowMs);
      r.ip.Rejected? ==>
        && r.symbol.None?
        && (SymbolKey(s) in d.data <==> SymbolKey(s) in db.data)
        && (SymbolKey(s) in db.data ==> d.data[SymbolKey(s)] == db.data[SymbolKey(s)])
    ensures var (d, r) := BatchRouteStep(db, windowMs, maxRequests, ip, nowMs);
      && r.symbol.None?
      && (SymbolKey(s) in d.data <==> SymbolKey(s) in db.data)
      && (SymbolKey(s) in db.data ==> d.data[SymbolKey(s)] == db.data[SymbolKey(s)])
  {
    KeyspacesDisjoint(ip, s, Yahoo);
    ByIPOnlyOwnKey(db, ip, windowMs, maxRequests, nowMs, SymbolKey(s));
  }
}
