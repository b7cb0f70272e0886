/**
 * The cache layer (`RedisCacheService`): typed get/set over the shared connection, with a TTL per
 * kind of artifact and the key prefixes `price:` and `metrics:`. Every store error is swallowed:
 * a failed read is a miss and a failed write is simply lost.
 */
module Cache {
  import opened Js
  import opened Store

  /** DEFAULT_TTL, PRICE_TTL and METRICS_TTL, in seconds. */
  datatype TtlConfig = TtlConfig(defaultTtl: int, priceTtl: int, metricsTtl: int)

  /**
   * `Number(process.env.X) || 15`: an unset or unparsable variable (None) and 0 both give 15. The
   * environment value is taken as a whole number.
   */
  function ConfiguredTtl(env: Option<int>): (r: int)
    ensures r != 0
    ensures env.Some? && env.value != 0 ==> r == env.value
    ensures env.None? || env.value == 0 ==> r == 15
  {
    match env
    case Some(t) => if t != 0 then t else 15
    case None => 15
  }

  /** `ttlSeconds || this.DEFAULT_TTL`; an omitted argument behaves as 0. */
  function EffectiveTtl(ttlSeconds: int, defaultTtl: int): int {
    if ttlSeconds != 0 then ttlSeconds else defaultTtl
  }

  function PriceKey(symbol: string): string {
    "price:" + symbol
  }

  function MetricsKey(symbol: string): string {
    "metrics:" + symbol
  }

  /** The object `{symbol, price}` as stored. */
  function PriceDoc(symbol: string, price: JsValue): Value {
    Doc(MakeDoc([("symbol", Str(symbol)), ("price", price)]))
  }

  /** The object `{symbol, peRatio, latestEarning}` as stored: note the singular field name. */
  function MetricsDoc(symbol: string, peRatio: JsValue, latestEarning: JsValue): Value {
    Doc(MakeDoc([("symbol", Str(symbol)), ("peRatio", peRatio), ("latestEarning", latestEarning)]))
  }

  /** `get(key)`: the stored value, or None for a missing key and for any store error. */
  function CacheGet(db: Db, key: string): (r: (Db, Option<Value>))
    ensures r.0 == Answered(db)
    ensures r.1.Some? <==> !NextFails(db) && key in db.data
    ensures r.1.Some? ==> r.1.value == db.data[key].value
  {
    var s := GetStep(db, key);
    match s.reply
    case Done(v) => (s.db, v)
    case Failed => (s.db, None)
  }

  /** `set(key, value, ttlSeconds)`: best effort, so the caller only sees the new state. */
  function CacheSet(db: Db, defaultTtl: int, key: string, v: Value, ttlSeconds: int): (d: Db)
    ensures d.now == db.now && d.faults == Answered(db).faults
    ensures !NextFails(db) && EffectiveTtl(ttlSeconds, defaultTtl) > 0 ==>
      key in d.data && d.data[key] == Entry(v, Some(db.now + EffectiveTtl(ttlSeconds, defaultTtl)))
    ensures NextFails(db) || EffectiveTtl(ttlSeconds, defaultTtl) <= 0 ==> d.data == db.data
  {
    SetExStep(db, key, EffectiveTtl(ttlSeconds, defaultTtl), v).db
  }

  /** `delete(key)`: best effort; the key is gone unless the store errors, and no other key changes. */
  function CacheDelete(db: Db, key: string): (d: Db)
    ensures d.now == db.now && d.faults == Answered(db).faults
    ensures !NextFails(db) ==> key !in d.data
    ensures NextFails(db) ==> d.data == db.data
    ensures forall k :: k != key ==> (k in d.data <==> k in db.data)
    ensures forall k :: k != key && k in db.data ==> d.data[k] == db.data[k]
  {
    DelStep(db, key).db
  }

  /** `exists(key)`: true iff the store answers 1; false on error. */
  function CacheExists(db: Db, key: string): (r: (Db, bool))
    ensures r.0 == Answered(db)
    ensures r.1 <==> !NextFails(db) && key in db.data
  {
    var s := ExistsStep(db, key);
    (s.db, s.reply.Done? && s.reply.value == 1)
  }

  /** `ttl(key)`: the store's answer, or -1 on error. */
  function CacheTtl(db: Db, key: string): (r: (Db, int))
    ensures r.0 == Answered(db)
    ensures NextFails(db) ==> r.1 == -1
    ensures !NextFails(db) && key !in db.data ==> r.1 == -2
    ensures !NextFails(db) && key in db.data && db.data[key].expiresAt.None? ==> r.1 == -1
    ensures !NextFails(db) && key in db.data && db.data[key].expiresAt.Some? ==> r.1 == db.data[key].expiresAt.value - db.now
  {
    var s := TtlStep(db, key);
    (s.db, if s.reply.Done? then s.reply.value else -1)
  }

  /** After a delete the store answered, reading the key misses; a failed delete changes nothing. */
  lemma DeleteThenMiss(db: Db, key: string)
    ensures !NextFails(db) ==> CacheGet(CacheDelete(db, key), key).1 == None
    ensures NextFails(db) ==> CacheDelete(db, key).data == db.data
  {
  }

  /** A price write on this store lands: the store answers and the price TTL is positive. */
  predicate PriceWriteLands(db: Db, cfg: TtlConfig) {
    Up(db) && PriceTtl(cfg) > 0
  }

  /** `cachePrice(symbol, price)`: `{symbol, price}` under `price:<symbol>` for PRICE_TTL, when the write lands. */
  function CachePriceStep(db: Db, cfg: TtlConfig, symbol: string, price: JsValue): (d: Db)
    ensures d.now == db.now && d.faults == Answered(db).faults
    ensures !NextFails(db) && PriceTtl(cfg) > 0 ==>
      PriceKey(symbol) in d.data && d.data[PriceKey(symbol)] == Entry(PriceDoc(symbol, price), Some(db.now + PriceTtl(cfg)))
    ensures NextFails(db) || PriceTtl(cfg) <= 0 ==> d.data == db.data
  {
    CacheSet(db, cfg.defaultTtl, PriceKey(symbol), PriceDoc(symbol, price), cfg.priceTtl)
  }

  /** `getCachePrice(symbol)`: what `price:<symbol>` holds, or None. */
  function GetCachePriceStep(db: Db, symbol: string): (r: (Db, Option<Value>))
    ensures r.0 == Answered(db)
    ensures r.1.Some? <==> !NextFails(db) && PriceKey(symbol) in db.data
  {
    CacheGet(db, PriceKey(symbol))
  }

  /** `cacheMetrics(symbol, metrics)`: `{symbol, peRatio, latestEarning}` under `metrics:<symbol>` for METRICS_TTL, when the write lands. */
  function CacheMetricsStep(db: Db, cfg: TtlConfig, symbol: string, peRatio: JsValue, latestEarning: JsValue): (d: Db)
    ensures d.now == db.now && d.faults == Answered(db).faults
    ensures !NextFails(db) && MetricsTtl(cfg) > 0 ==>
      MetricsKey(symbol) in d.data
      && d.data[MetricsKey(symbol)] == Entry(MetricsDoc(symbol, peRatio, latestEarning), Some(db.now + MetricsTtl(cfg)))
    ensures NextFails(db) || MetricsTtl(cfg) <= 0 ==> d.data == db.data
  {
    CacheSet(db, cfg.defaultTtl, MetricsKey(symbol), MetricsDoc(symbol, peRatio, latestEarning), cfg.metricsTtl)
  }

  /** `getCacheMetrics(symbol)`: what `metrics:<symbol>` holds, or None. */
  function GetCacheMetricsStep(db: Db, symbol: string): (r: (Db, Option<Value>))
    ensures r.0 == Answered(db)
    ensures r.1.Some? <==> !NextFails(db) && MetricsKey(symbol) in db.data
  {
    CacheGet(db, MetricsKey(symbol))
  }

  /** `deleteAll()`: FLUSHDB on the shared connection. */
  function DeleteAllStep(db: Db): (d: Db)
    ensures d.now == db.now && d.faults == Answered(db).faults
    ensures !NextFails(db) ==> d.data == map[]
    ensures NextFails(db) ==> d.data == db.data
  {
    FlushDbStep(db).db
  }

  class RedisCacheService {
    const store: RedisStore
    const ttls: TtlConfig

    /**
     * The service on the shared connection, with DEFAULT_TTL, PRICE_TTL and METRICS_TTL read as
     * `Number(process.env.X) || 15` from the three environment values.
     */
    constructor (store: RedisStore, defaultEnv: Option<int>, priceEnv: Option<int>, metricsEnv: Option<int>)
      ensures this.store == store
      ensures this.ttls == TtlConfig(ConfiguredTtl(defaultEnv), ConfiguredTtl(priceEnv), ConfiguredTtl(metricsEnv))
    {
      this.store := store;
      this.ttls := TtlConfig(ConfiguredTtl(defaultEnv), ConfiguredTtl(priceEnv), ConfiguredTtl(metricsEnv));
    }

    method Get(key: string) returns (r: Option<Value>)
      modifies store
      ensures (store.State(), r) == CacheGet(old(store.State()), key)
    {
      var reply := store.Get(key);
      r := if reply.Done? then reply.value else None;
    }

    method Set(key: string, v: Value, ttlSeconds: int)
      modifies store
      ensures store.State() == CacheSet(old(store.State()), ttls.defaultTtl, key, v, ttlSeconds)
    {
      var ttl := if ttlSeconds != 0 then ttlSeconds else ttls.defaultTtl;
      var _ := store.SetEx(key, ttl, v);
    }

    method Delete(key: string)
      modifies store
      ensures store.State() == CacheDelete(old(store.State()), key)
    {
      var _ := store.Del(key);
    }

    method Exists(key: string) returns (r: bool)
      modifies store
      ensures (store.State(), r) == CacheExists(old(store.State()), key)
    {
      var reply := store.Exists(key);
      r := reply.Done? && reply.value == 1;
    }

    method Ttl(key: string) returns (r: int)
      modifies store
      ensures (store.State(), r) == CacheTtl(old(store.State()), key)
    {
      var reply := store.Ttl(key);
      r := if reply.Done? then reply.value else -1;
    }

    method CachePrice(symbol: string, price: JsValue)
      modifies store
      ensures store.State() == CachePriceStep(old(store.State()), ttls, symbol, price)
    {
      Set(PriceKey(symbol), PriceDoc(symbol, price), ttls.priceTtl);
    }

    method GetCachePrice(symbol: string) returns (r: Option<Value>)
      modifies store
      ensures (store.State(), r) == GetCachePriceStep(old(store.State()), symbol)
    {
      r := Get(PriceKey(symbol));
    }

    method CacheMetrics(symbol: string, peRatio: JsValue, latestEarning: JsValue)
      modifies store
      ensures store.State() == CacheMetricsStep(old(store.State()), ttls, symbol, peRatio, latestEarning)
    {
      Set(MetricsKey(symbol), MetricsDoc(symbol, peRatio, latestEarning), ttls.metricsTtl);
    }

    method GetCacheMetrics(symbol: string) returns (r: Option<Value>)
      modifies store
      ensures (store.State(), r) == GetCacheMetricsStep(old(store.State()), symbol)
    {
      r := Get(MetricsKey(symbol));
    }

    method DeleteAll()
      modifies store
      ensures store.State() == DeleteAllStep(old(store.State()))
    {
      var _ := store.FlushDb();
    }
  }

  /** A write with TTL 0 falls back to DEFAULT_TTL. */
  lemma SetFallsBackToDefault(db: Db, defaultTtl: int, key: string, v: Value)
    requires !NextFails(db) && defaultTtl > 0
    ensures key in CacheSet(db, defaultTtl, key, v, 0).data
    ensures CacheSet(db, defaultTtl, key, v, 0).data[key] == Entry(v, Some(db.now + defaultTtl))
  {
  }

  /** A missing key and a store error both read as a miss. */
  lemma GetMissOrError(db: Db, key: string)
    requires NextFails(db) || key !in db.data
    ensures CacheGet(db, key).1 == None
  {
  }

  /** Writes never fail the caller: on a store error the data is simply unchanged. */
  lemma FailedWriteIsLost(db: Db, defaultTtl: int, key: string, v: Value, ttlSeconds: int)
    requires NextFails(db) || EffectiveTtl(ttlSeconds, defaultTtl) <= 0
    ensures CacheSet(db, defaultTtl, key, v, ttlSeconds).data == db.data
  {
  }

  /** `exists` is true exactly when the store answers 1, and false on error. */
  lemma ExistsIffOne(db: Db, key: string)
    ensures CacheExists(db, key).1 <==> !NextFails(db) && key in db.data
  {
  }

  /** `ttl` answers -1 when the store errors. */
  lemma TtlOnError(db: Db, key: string)
    requires NextFails(db)
    ensures CacheTtl(db, key).1 == -1
  {
  }

  ghost predicate Readable(v: JsValue) {
    !v.Undefined? && !v.NaN? && !v.Inf?
  }

  /** The TTL a price write uses. */
  function PriceTtl(cfg: TtlConfig): int {
    EffectiveTtl(cfg.priceTtl, cfg.defaultTtl)
  }

  /** The TTL a metrics write uses. */
  function MetricsTtl(cfg: TtlConfig): int {
    EffectiveTtl(cfg.metricsTtl, cfg.defaultTtl)
  }

  /**
   * cachePrice(s, p) followed, `elapsed` seconds later, by getCachePrice(s) yields `{symbol: s, price: p}`
   * while the TTL has not run out, and a miss once it has.
   */
  lemma {:induction false} PriceRoundTrip(db: Db, cfg: TtlConfig, s: string, p: JsValue, elapsed: nat)
    requires Up(db) && PriceTtl(cfg) > 0 && Readable(p)
    ensures var later := Advance(CachePriceStep(db, cfg, s, p), elapsed);
      var got := GetCachePriceStep(later, s).1;
      if elapsed < PriceTtl(cfg) then
        got.Some? && Field(got.value, "symbol") == Str(s) && Field(got.value, "price") == p
      else got == None
  {
    var written := CachePriceStep(db, cfg, s, p);
    assert !NextFails(db);
    assert written.data[PriceKey(s)] == Entry(PriceDoc(s, p), Some(db.now + PriceTtl(cfg)));
    var later := Advance(written, elapsed);
    assert Up(later) by {
      assert later.faults == Answered(db).faults;
    }
    assert !NextFails(later);
    var fs := [("symbol", Str(s)), ("price", p)];
    assert fs[..1] == [("symbol", Str(s))] && fs[..1][..0] == [];
    assert MakeDoc(fs[..1]) == map["symbol" := Str(s)];
    assert MakeDoc(fs) == map["symbol" := Str(s), "price" := p];
  }

  /**
   * cacheMetrics writes the field `latestEarning`, while its readers ask for `latestEarnings`:
   * only `symbol` and `peRatio` come back under the reader's names.
   */
  lemma {:induction false} MetricsRoundTrip(db: Db, cfg: TtlConfig, s: string, pe: JsValue, le: JsValue)
    requires Up(db) && MetricsTtl(cfg) > 0 && Readable(pe)
    ensures var got := GetCacheMetricsStep(CacheMetricsStep(db, cfg, s, pe, le), s).1;
      && got.Some?
      && Field(got.value, "symbol") == Str(s)
      && Field(got.value, "peRatio") == pe
      && Field(got.value, "latestEarnings") == Undefined
  {
    var written := CacheMetricsStep(db, cfg, s, pe, le);
    assert !NextFails(db);
    assert Up(written) by {
      assert written.faults == Answered(db).faults;
    }
    var fs := [("symbol", Str(s)), ("peRatio", pe), ("latestEarning", le)];
    assert fs[..2] == [("symbol", Str(s)), ("peRatio", pe)];
    assert fs[..2][..1] == [("symbol", Str(s))] && fs[..2][..1][..0] == [];
    assert MakeDoc(fs[..2][..1]) == map["symbol" := Str(s)];
    assert MakeDoc(fs[..2]) == map["symbol" := Str(s), "peRatio" := pe];
    var fields := MakeDoc(fs);
    assert fields.Keys <= {"symbol", "peRatio", "latestEarning"};
    assert "latestEarnings" !in fields;
  }

  /** What the readers find in a stored price document. */
  lemma PriceDocReads(s: string, p: JsValue)
    requires !p.Undefined?
    ensures ValueTruthy(PriceDoc(s, p))
    ensures Field(PriceDoc(s, p), "symbol") == Str(s) && Field(PriceDoc(s, p), "price") == Stored(p)
  {
    var fs := [("symbol", Str(s)), ("price", p)];
    assert fs[..1] == [("symbol", Str(s))] && fs[..1][..0] == [];
    assert MakeDoc(fs[..1]) == map["symbol" := Str(s)];
  }

  /** What the readers find in a stored metrics document: `latestEarnings` is never there. */
  lemma MetricsDocReads(s: string, pe: JsValue, le: JsValue)
    requires !pe.Undefined?
    ensures ValueTruthy(MetricsDoc(s, pe, le))
    ensures Field(MetricsDoc(s, pe, le), "peRatio") == Stored(pe)
    ensures Field(MetricsDoc(s, pe, le), "latestEarnings") == Undefined
  {
    var fs := [("symbol", Str(s)), ("peRatio", pe), ("latestEarning", le)];
    assert fs[..2] == [("symbol", Str(s)), ("peRatio", pe)];
    assert fs[..2][..1] == [("symbol", Str(s))] && fs[..2][..1][..0] == [];
    assert MakeDoc(fs[..2][..1]) == map["symbol" := Str(s)];
    assert MakeDoc(fs[..2]) == map["symbol" := Str(s), "peRatio" := Stored(pe)];
    var fields := MakeDoc(fs);
    assert fields.Keys <= {"symbol", "peRatio", "latestEarning"};
    assert "latestEarnings" !in fields;
  }

  /** The stored metrics document carries the earnings date under the singular `latestEarning`. */
  lemma MetricsDocCarriesEarning(s: string, pe: JsValue, le: JsValue)
    ensures Field(MetricsDoc(s, pe, le), "latestEarning") == Stored(le)
  {
    var fs := [("symbol", Str(s)), ("peRatio", pe), ("latestEarning", le)];
    assert fs[..|fs| - 1] == [("symbol", Str(s)), ("peRatio", pe)];
  }

  /** The two prefixes never produce the same key. */
  lemma PrefixesDisjoint(a: string, b: string)
    ensures PriceKey(a) != MetricsKey(b)
  {
    assert PriceKey(a)[0] == 'p' && MetricsKey(b)[0] == 'm';
  }

  /** A price write leaves every `metrics:` key alone, and a metrics write every `price:` key. */
  lemma {:induction false} WritesStayInTheirPrefix(db: Db, cfg: TtlConfig, s: string, p: JsValue, pe: JsValue, le: JsValue, t: string)
    ensures var d := CachePriceStep(db, cfg, s, p).data;
      (MetricsKey(t) in d <==> MetricsKey(t) in db.data)
      && (MetricsKey(t) in db.data ==> d[MetricsKey(t)] == db.data[MetricsKey(t)])
    ensures var d := CacheMetricsStep(db, cfg, s, pe, le).data;
      (PriceKey(t) in d <==> PriceKey(t) in db.data)
      && (PriceKey(t) in db.data ==> d[PriceKey(t)] == db.data[PriceKey(t)])
  {
    PrefixesDisjoint(s, t);
    PrefixesDisjoint(t, s);
  }

  /** deleteAll removes every key of the connection, whatever its prefix. */
  lemma DeleteAllEmpties(db: Db, key: string)
    requires !NextFails(db)
    ensures key !in DeleteAllStep(db).data
  {
  }
}
