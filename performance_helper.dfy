/** The performance helpers: a read-through cache over the application's
    key/value store (`cache_result` under `perf:` with an expiry,
    `cache_forever` under `perf:forever:` without one), model lookups keyed
    by class basename and id (`get_with_cache`), the default eager-load
    relation table (`eager_load`), pattern invalidation under `perf:`
    (`invalidate_cache`), the callback wrapper `measure_performance` and the
    slow-query test `should_log_query`.

    Time is an explicit parameter `now`, in seconds; `now()->addMinutes(m)`
    is `now + 60 * m`. An entry is live while `now` is before its expiry, as
    the stores treat an entry whose expiry has been reached as missing. */
module PerformanceHelper {
  import opened Php
  import opened Strings
  import Glob

  datatype Entry = Entry(value: Value, expiresAt: Option<int>)

  const Prefix := "perf:"
  const ForeverPrefix := "perf:forever:"
  const ModelPrefix := "model:"

  predicate Live(e: Entry, now: int) {
    e.expiresAt.None? || now < e.expiresAt.value
  }

  /** What `cache()->get($key)` gives: the value of a live entry, or null. */
  function Lookup(entries: map<string, Entry>, key: string, now: int): Value {
    if key in entries && Live(entries[key], now) then entries[key].value else Null
  }

  /** The shared cache store and the configured default store driver
      (`config('cache.default')`). */
  class CacheStore {
    var entries: map<string, Entry>
    var driver: string

    constructor (driver: string)
      ensures entries == map[] && this.driver == driver
    {
      entries := map[];
      this.driver := driver;
    }

    function Get(key: string, now: int): (v: Value)
      reads this
    {
      Lookup(entries, key, now)
    }

    method Put(key: string, value: Value, expiresAt: int)
      modifies this
      ensures entries == old(entries)[key := Entry(value, Some(expiresAt))]
      ensures driver == old(driver)
    {
      entries := entries[key := Entry(value, Some(expiresAt))];
    }

    method Forever(key: string, value: Value)
      modifies this
      ensures entries == old(entries)[key := Entry(value, None)]
      ensures driver == old(driver)
    {
      entries := entries[key := Entry(value, None)];
    }

    method Forget(key: string)
      modifies this
      ensures entries == old(entries) - {key}
      ensures driver == old(driver)
    {
      entries := entries - {key};
    }
  }

  /** The effect of one read-through call on the store. */
  datatype CacheRun = CacheRun(result: Value, ranCallback: bool, entries: map<string, Entry>)

  /** One read-through call: a truthy stored value is returned as it is;
      otherwise the freshly computed value is stored, falsy or not, and
      returned. */
  function ReadThrough(entries: map<string, Entry>, cacheKey: string, expiresAt: Option<int>,
                       computed: Value, now: int): CacheRun
  {
    var stored := Lookup(entries, cacheKey, now);
    if Truthy(stored) then CacheRun(stored, false, entries)
    else CacheRun(computed, true, entries[cacheKey := Entry(computed, expiresAt)])
  }

  /** A truthy result is served from the cache to every later call before
      its expiry, without running the callback again, whatever that later
      callback would compute. */
  lemma TruthyResultIsReused(entries: map<string, Entry>, cacheKey: string, expiresAt: Option<int>,
                             computed: Value, computed2: Value, now: int, later: int)
    requires Truthy(computed) && !Truthy(Lookup(entries, cacheKey, now))
    requires now <= later && (expiresAt.None? || later < expiresAt.value)
    ensures var first := ReadThrough(entries, cacheKey, expiresAt, computed, now);
      var second := ReadThrough(first.entries, cacheKey, expiresAt, computed2, later);
      first.ranCallback && !second.ranCallback && second.result == computed
      && second.entries == first.entries
  {
  }

  /** A falsy result is stored but never served: the next call runs its
      callback again. */
  lemma FalsyResultIsRecomputed(entries: map<string, Entry>, cacheKey: string, expiresAt: Option<int>,
                                computed: Value, computed2: Value, now: int, later: int)
    requires !Truthy(computed) && !Truthy(Lookup(entries, cacheKey, now))
    ensures var first := ReadThrough(entries, cacheKey, expiresAt, computed, now);
      var second := ReadThrough(first.entries, cacheKey, expiresAt, computed2, later);
      second.ranCallback && second.result == computed2
  {
  }

  /** A read-through call leaves every other key as it was. */
  lemma ReadThroughIsolated(entries: map<string, Entry>, cacheKey: string, expiresAt: Option<int>,
                            computed: Value, now: int, other: string, t: int)
    requires other != cacheKey
    ensures Lookup(ReadThrough(entries, cacheKey, expiresAt, computed, now).entries, other, t)
         == Lookup(entries, other, t)
  {
  }

  /** `cache_result($key, $minutes, $callback)`. The callback runs exactly
      when the value under `perf:` + key is missing, expired or falsy. */
  method CacheResult(store: CacheStore, key: string, minutes: int, callback: () -> Value, now: int)
    returns (result: Value, ranCallback: bool)
    modifies store
    ensures var run := ReadThrough(old(store.entries), Prefix + key, Some(now + 60 * minutes), callback(), now);
      result == run.result && ranCallback == run.ranCallback && store.entries == run.entries
    ensures ranCallback <==> !Truthy(Lookup(old(store.entries), Prefix + key, now))
    ensures ranCallback ==> result == callback()
    ensures store.driver == old(store.driver)
  {
    var cacheKey := Prefix + key;
    result := store.Get(cacheKey, now);
    if Truthy(result) {
      return result, false;
    }
    result := callback();
    store.Put(cacheKey, result, now + 60 * minutes);
    ranCallback := true;
  }

  /** `cache_forever($key, $callback)`: as CacheResult under
      `perf:forever:` + key, storing without expiry. */
  method CacheForever(store: CacheStore, key: string, callback: () -> Value, now: int)
    returns (result: Value, ranCallback: bool)
    modifies store
    ensures var run := ReadThrough(old(store.entries), ForeverPrefix + key, None, callback(), now);
      result == run.result && ranCallback == run.ranCallback && store.entries == run.entries
    ensures ranCallback <==> !Truthy(Lookup(old(store.entries), ForeverPrefix + key, now))
    ensures store.driver == old(store.driver)
  {
    var cacheKey := ForeverPrefix + key;
    result := store.Get(cacheKey, now);
    if Truthy(result) {
      return result, false;
    }
    result := callback();
    store.Forever(cacheKey, result);
    ranCallback := true;
  }

  /** The default relation lists of the performance configuration. */
  const DefaultRelations: map<string, seq<string>> := map[
    "products" := ["category", "images", "attributes"],
    "categories" := ["parent", "children"],
    "orders" := ["customer", "items"]]

  /** `eager_load($modelType)`: the configured relations, `[]` for any
      other model type. */
  function EagerLoad(modelType: string): (relations: seq<string>)
    ensures modelType in DefaultRelations ==> relations == DefaultRelations[modelType]
    ensures modelType !in DefaultRelations ==> relations == []
  {
    if modelType in DefaultRelations then DefaultRelations[modelType] else []
  }

  /** `class_basename($class)`: backslashes read as slashes, then `basename`. */
  function ClassBasename(modelClass: string): (b: string)
    ensures '/' !in b && '\\' !in b
  {
    Basename(BackslashesToSlashes(modelClass))
  }

  /** The class basename is the longest tail of the class name after its
      last namespace separator, once trailing separators are dropped. */
  lemma ClassBasenameIsLastSegment(modelClass: string)
    ensures var t := RTrim(BackslashesToSlashes(modelClass), '/'); var b := ClassBasename(modelClass);
      EndsWith(t, b) && (|b| == |t| || t[|t| - |b| - 1] == '/')
  {
    BasenameIsLastSegment(BackslashesToSlashes(modelClass));
  }

  function BackslashesToSlashes(s: string): (r: string)
    ensures |r| == |s| && '\\' !in r
    ensures forall k | 0 <= k < |s| :: r[k] == if s[k] == '\\' then '/' else s[k]
  {
    seq(|s|, k requires 0 <= k < |s| => if s[k] == '\\' then '/' else s[k])
  }

  /** The key `get_with_cache` caches under, below `perf:`. */
  function ModelCacheKey(modelClass: string, id: Value): string {
    ModelPrefix + ClassBasename(modelClass) + ":" + StrVal(id)
  }

  /** The model type `get_with_cache` asks `eager_load` about. */
  function RelationsKey(modelClass: string): string {
    ToLowerAscii(ClassBasename(modelClass) + "s")
  }

  /** `get_with_cache($modelClass, $id, $minutes)`: a read-through call
      keyed by class basename and id whose callback loads the model with
      its default relations; `find` stands for the ORM lookup of `id` with
      the given relations (none meaning a plain `find`). */
  method GetWithCache(store: CacheStore, modelClass: string, id: Value, minutes: int,
                      find: seq<string> -> Value, now: int)
    returns (result: Value, ranCallback: bool)
    modifies store
    ensures var run := ReadThrough(old(store.entries), Prefix + ModelCacheKey(modelClass, id),
                                   Some(now + 60 * minutes), find(EagerLoad(RelationsKey(modelClass))), now);
      result == run.result && ranCallback == run.ranCallback && store.entries == run.entries
    ensures store.driver == old(store.driver)
  {
    var relations := EagerLoad(RelationsKey(modelClass));
    result, ranCallback := CacheResult(store, ModelCacheKey(modelClass, id), minutes, () => find(relations), now);
  }

  /** A model pattern `model:<b>:*` selects exactly the keys of the class
      whose basename is `b`, case-sensitively. */
  lemma ModelPatternSelectsBasename(modelClass: string, id: Value, b: string)
    requires Glob.Literal(b) && ':' !in b && ':' !in ClassBasename(modelClass)
    ensures Glob.Match(ModelPrefix + b + ":*", ModelCacheKey(modelClass, id))
        <==> b == ClassBasename(modelClass)
  {
    PatternSelectsSegment(b, ClassBasename(modelClass), StrVal(id));
  }

  lemma PatternSelectsSegment(b: string, cb: string, rest: string)
    requires Glob.Literal(b) && ':' !in b && ':' !in cb
    ensures Glob.Match(ModelPrefix + b + ":*", ModelPrefix + cb + ":" + rest) <==> b == cb
  {
    var key := ModelPrefix + cb + ":" + rest;
    var lit := ModelPrefix + b + ":";
    assert Glob.Literal(lit) by {
      forall k | 0 <= k < |lit| ensures !Glob.IsWildcard(lit[k]) {
        if 6 <= k < 6 + |b| { assert lit[k] == b[k - 6]; }
      }
    }
    assert ModelPrefix + b + ":*" == lit + "*";
    Glob.PrefixStar(lit, key);
    assert key == ModelPrefix + (cb + ":" + rest);
    assert lit == ModelPrefix + (b + ":");
    CommonPrefix(ModelPrefix, b + ":", cb + ":" + rest);
    SegmentPrefix(b, cb, rest);
  }

  lemma CommonPrefix(p: string, a: string, b: string)
    ensures p + a <= p + b <==> a <= b
  {
    if a <= b {
      assert (p + b)[..|p + a|] == p + b[..|a|];
    }
    if p + a <= p + b {
      assert (p + b)[..|p + a|][|p|..] == b[..|a|];
    }
  }

  /** `b:` begins `cb:rest` exactly when the colon-free segments agree. */
  lemma SegmentPrefix(b: string, cb: string, rest: string)
    requires ':' !in b && ':' !in cb
    ensures b + ":" <= cb + ":" + rest <==> b == cb
  {
    var lit := b + ":";
    var key := cb + ":" + rest;
    if b == cb {
      assert key[..|lit|] == lit;
    }
    if lit <= key {
      // Both segments are the text before the first colon of the key.
      var tail := key[|lit|..];
      assert key == b + [':'] + tail;
      assert key == cb + [':'] + rest;
      SplitAppend(b, tail, ':');
      SplitAppend(cb, rest, ':');
      SplitFree(b, ':');
      SplitFree(cb, ':');
      assert Split(key, ':')[0] == b && Split(key, ':')[0] == cb;
    }
  }

  lemma ProductBasename()
    ensures ClassBasename("App\\Models\\Product") == "Product"
  {
    var slashed := "App/Models/Product";
    assert BackslashesToSlashes("App\\Models\\Product") == slashed;
    assert RTrim(slashed, '/') == slashed;
    assert slashed == "App/Models" + ['/'] + "Product";
    AfterLastTail("App/Models", '/', "Product");
  }

  /** The pattern in the documentation of `invalidate_cache`,
      `model:product:*`, misses the keys `get_with_cache` writes for any
      class whose basename is `Product`, such as `App\Models\Product`
      (ProductBasename): those keys carry the basename's capital letter. */
  lemma LowerCasePatternMissesModelKeys(modelClass: string, id: Value)
    requires ClassBasename(modelClass) == "Product"
    ensures !Glob.Match("model:product:*", ModelCacheKey(modelClass, id))
    ensures Glob.Match("model:Product:*", ModelCacheKey(modelClass, id))
  {
    ProductPatternsLiteral();
    ModelPatternSelectsBasename(modelClass, id, "product");
    ModelPatternSelectsBasename(modelClass, id, "Product");
  }

  lemma ProductPatternsLiteral()
    ensures Glob.Literal("product") && Glob.Literal("Product")
    ensures ':' !in "product" && ':' !in "Product" && "product" != "Product"
    ensures ModelPrefix + "product" + ":*" == "model:product:*"
    ensures ModelPrefix + "Product" + ":*" == "model:Product:*"
  {
    assert forall k | 0 <= k < 7 :: !Glob.IsWildcard("product"[k]) && !Glob.IsWildcard("Product"[k]);
  }

  /** Plural-by-`s` finds the configured relations of products and orders,
      but `Category` becomes `categorys`, which the table does not hold: a
      category is always loaded without its default relations. */
  lemma RelationLookupByPlural()
    ensures EagerLoad(ToLowerAscii("Product" + "s")) == ["category", "images", "attributes"]
    ensures EagerLoad(ToLowerAscii("Order" + "s")) == ["customer", "items"]
    ensures EagerLoad(ToLowerAscii("Category" + "s")) == []
  {
    assert ToLowerAscii("Product" + "s") == "products";
    assert ToLowerAscii("Order" + "s") == "orders";
    assert ToLowerAscii("Category" + "s") == "categorys";
  }

  /** The keys that a pattern invalidation removes. */
  function MatchingKeys(entries: map<string, Entry>, pattern: string): (ks: set<string>)
    ensures forall k | k in ks :: k in entries && Glob.Match(Prefix + pattern, k)
    ensures forall k | k in entries && Glob.Match(Prefix + pattern, k) :: k in ks
  {
    set k | k in entries && Glob.Match(Prefix + pattern, k)
  }

  predicate ScansKeys(driver: string) {
    driver == "file" || driver == "redis"
  }

  /** The store after `invalidate_cache($pattern)`. */
  function Invalidated(entries: map<string, Entry>, pattern: string, driver: string): map<string, Entry> {
    if ScansKeys(driver) then entries - MatchingKeys(entries, pattern) else entries
  }

  /** `invalidate_cache($pattern)`: on the file and redis stores, every key
      matching `perf:` + pattern is listed and forgotten one by one; on any
      other store nothing happens. */
  method InvalidateCache(store: CacheStore, pattern: string)
    modifies store
    ensures store.entries == Invalidated(old(store.entries), pattern, old(store.driver))
    ensures store.driver == old(store.driver)
  {
    if ScansKeys(store.driver) {
      var matching := MatchingKeys(store.entries, pattern);
      var todo := matching;
      while todo != {}
        invariant todo <= matching
        invariant store.entries == old(store.entries) - (matching - todo)
        invariant store.driver == old(store.driver)
        decreases todo
      {
        var key :| key in todo;
        store.Forget(key);
        todo := todo - {key};
      }
    }
  }

  /** Invalidation removes exactly the matching keys on the scanning stores,
      keeps every other entry as it was, and does nothing elsewhere. */
  lemma InvalidatedExactly(entries: map<string, Entry>, pattern: string, driver: string, k: string)
    ensures var after := Invalidated(entries, pattern, driver);
      && (k in after <==> k in entries && !(ScansKeys(driver) && Glob.Match(Prefix + pattern, k)))
      && (k in after ==> after[k] == entries[k])
  {
  }

  /** Invalidating twice is invalidating once. */
  lemma InvalidateIdempotent(entries: map<string, Entry>, pattern: string, driver: string)
    ensures Invalidated(Invalidated(entries, pattern, driver), pattern, driver)
         == Invalidated(entries, pattern, driver)
  {
    var once := Invalidated(entries, pattern, driver);
    assert MatchingKeys(once, pattern) == {} || !ScansKeys(driver);
  }

  /** Invalidating `model:product:*` evicts products 5 and 9 and keeps
      category 1. */
  lemma ProductEviction(v: Value, driver: string)
    requires ScansKeys(driver)
    ensures var entries := map["perf:model:product:5" := Entry(v, None),
                               "perf:model:product:9" := Entry(v, None),
                               "perf:model:category:1" := Entry(v, None)];
      Invalidated(entries, "model:product:*", driver) == map["perf:model:category:1" := Entry(v, None)]
  {
    var lit := "perf:model:product:";
    assert Glob.Literal(lit) by {
      assert forall k | 0 <= k < |lit| :: !Glob.IsWildcard(lit[k]);
    }
    assert Prefix + "model:product:*" == lit + "*";
    Glob.PrefixStar(lit, "perf:model:product:5");
    Glob.PrefixStar(lit, "perf:model:product:9");
    Glob.PrefixStar(lit, "perf:model:category:1");
    assert !(lit <= "perf:model:category:1") by {
      assert "perf:model:category:1"[11] != lit[11];
    }
  }

  /** `measure_performance($label, $callback)`: the callback's result is
      returned unchanged; timing, memory and logging are not modelled. */
  function MeasurePerformance(measureLabel: string, callback: () -> Value): (r: Value)
    ensures r == callback()
  {
    callback()
  }

  /** The monitoring settings that `should_log_query` reads. */
  datatype MonitoringConfig = MonitoringConfig(logSlowQueries: Value, slowQueryThreshold: Option<real>)

  /** The shipped settings: logging on, threshold 1000 ms. */
  const ShippedMonitoring := MonitoringConfig(Bool(true), Some(1000.0))

  function Threshold(cfg: MonitoringConfig): real {
    match cfg.slowQueryThreshold
    case None => 1000.0
    case Some(t) => t
  }

  /** `should_log_query($executionTime)`: false while slow-query logging is
      off; otherwise true exactly above the threshold, 1000 when unset. */
  function ShouldLogQuery(cfg: MonitoringConfig, executionTime: real): (r: bool)
    ensures !Truthy(cfg.logSlowQueries) ==> !r
    ensures Truthy(cfg.logSlowQueries) && cfg.slowQueryThreshold.None? ==> (r <==> executionTime > 1000.0)
    ensures Truthy(cfg.logSlowQueries) && cfg.slowQueryThreshold.Some? ==>
      (r <==> executionTime > cfg.slowQueryThreshold.value)
  {
    if !Truthy(cfg.logSlowQueries) then false else executionTime > Threshold(cfg)
  }

  /** A slower query is logged whenever a faster one is; a query that takes
      exactly the threshold is not. */
  lemma ShouldLogQueryMonotone(cfg: MonitoringConfig, t1: real, t2: real)
    requires t1 <= t2
    ensures ShouldLogQuery(cfg, t1) ==> ShouldLogQuery(cfg, t2)
    ensures !ShouldLogQuery(cfg, Threshold(cfg))
  {
  }

  lemma ShippedMonitoringThreshold(t: real)
    ensures ShouldLogQuery(ShippedMonitoring, t) <==> t > 1000.0
  {
  }
}
