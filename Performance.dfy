/** The in-memory helpers of the backend: a cache whose entries expire, a
    rate limiter over a sliding one-minute window, a per-function timing
    accumulator, a query batcher and a connection-pool counter.

    The clock is the `now` parameter of each operation (seconds, as a real).
    The components are modelled sequentially: the locks that guard them are
    left out, and so is the connection object a new connection would be. */
module Performance {

  import opened Wrappers
  import opened Ratios
  import opened Seqs

  // ---------------------------------------------------------------- cache

  /** A stored value, the time it stops being served and the time it was
      stored. */
  datatype Entry<V> = Entry(value: V, expiresAt: real, createdAt: real)

  /** The time to live a `set` uses: its own unless absent or zero, the
      cache's default otherwise. */
  function EffectiveTtl(ttl: Option<int>, defaultTtl: int): (t: int)
    ensures ttl.Some? && ttl.value != 0 ==> t == ttl.value
    ensures ttl.None? || ttl.value == 0 ==> t == defaultTtl
  {
    match ttl
    case Some(v) => if v != 0 then v else defaultTtl
    case None => defaultTtl
  }

  /** The keys whose entries are no longer served at time `now`. */
  function ExpiredKeys<V>(cache: map<string, Entry<V>>, now: real): (ks: set<string>)
    ensures forall k :: k in ks <==> k in cache && cache[k].expiresAt <= now
  {
    set k | k in cache && cache[k].expiresAt <= now
  }

  /** The cache without its expired entries. */
  function LiveEntries<V>(cache: map<string, Entry<V>>, now: real): (r: map<string, Entry<V>>)
    ensures forall k :: k in r <==> k in cache && cache[k].expiresAt > now
    ensures forall k :: k in r ==> r[k] == cache[k]
  {
    map k | k in cache && cache[k].expiresAt > now :: cache[k]
  }

  /** Every entry is either live or expired: cleaning up removes as many
      entries as there are expired keys. */
  lemma CleanupSizes<V>(cache: map<string, Entry<V>>, now: real)
    ensures |LiveEntries(cache, now)| + |ExpiredKeys(cache, now)| == |cache|
    ensures ExpiredKeys(cache, now) == {} <==> LiveEntries(cache, now) == cache
  {
    var live := LiveEntries(cache, now).Keys;
    var dead := ExpiredKeys(cache, now);
    assert cache.Keys == live + dead;
    assert live * dead == {};
  }

  /** Counters of a cache, as its statistics report them. */
  datatype CacheStats = CacheStats(size: nat, hits: nat, misses: nat, hitRate: real, totalRequests: nat)

  class CacheManager<V> {
    var cache: map<string, Entry<V>>
    const defaultTtl: int
    var hits: nat
    var misses: nat

    constructor (defaultTtl: int)
      ensures cache == map[] && hits == 0 && misses == 0 && this.defaultTtl == defaultTtl
    {
      cache := map[];
      this.defaultTtl := defaultTtl;
      hits := 0;
      misses := 0;
    }

    /** A hit returns the value of an entry that has not expired; anything
        else is a miss, and an expired entry is removed on the way. Exactly
        one of the two counters goes up. */
    method Get(key: string, now: real) returns (r: Option<V>)
      modifies this
      ensures key in old(cache) && old(cache)[key].expiresAt > now ==>
                r == Some(old(cache)[key].value) && hits == old(hits) + 1 && misses == old(misses)
                && cache == old(cache)
      ensures !(key in old(cache) && old(cache)[key].expiresAt > now) ==>
                r == None && misses == old(misses) + 1 && hits == old(hits)
                && cache == old(cache) - {key}
      ensures hits + misses == old(hits) + old(misses) + 1
    {
      if key in cache {
        var entry := cache[key];
        if entry.expiresAt > now {
          hits := hits + 1;
          return Some(entry.value);
        } else {
          cache := cache - {key};
        }
      }
      misses := misses + 1;
      return None;
    }

    /** Stores the value until `now` plus the effective time to live. */
    method Set(key: string, value: V, ttl: Option<int>, now: real)
      modifies this
      ensures cache == old(cache)[key := Entry(value, now + EffectiveTtl(ttl, defaultTtl) as real, now)]
      ensures hits == old(hits) && misses == old(misses)
    {
      var t := EffectiveTtl(ttl, defaultTtl);
      cache := cache[key := Entry(value, now + t as real, now)];
    }

    /** Removes one key, if present. */
    method Delete(key: string)
      modifies this
      ensures cache == old(cache) - {key}
      ensures hits == old(hits) && misses == old(misses)
    {
      if key in cache {
        cache := cache - {key};
      }
    }

    /** Empties the cache and zeroes its counters. */
    method Clear()
      modifies this
      ensures cache == map[] && hits == 0 && misses == 0
    {
      cache := map[];
      hits := 0;
      misses := 0;
    }

    /** The hit rate is the percentage of lookups that hit, or 0 before the
        first lookup. */
    function Stats(): (s: CacheStats)
      reads this
      ensures s.size == |cache| && s.hits == hits && s.misses == misses
      ensures s.totalRequests == hits + misses
      ensures 0.0 <= s.hitRate <= 100.0
      ensures s.totalRequests == 0 ==> s.hitRate == 0.0
      ensures s.totalRequests > 0 ==> (s.hitRate == 100.0 <==> misses == 0)
      ensures s.hitRate == 0.0 <==> hits == 0
    {
      var total := hits + misses;
      var rate := if total > 0 then Ratio(hits, total) * 100.0 else 0.0;
      CacheStats(|cache|, hits, misses, rate, total)
    }

    /** Collects the expired keys, deletes them one by one, and returns how
        many there were. */
    method CleanupExpired(now: real) returns (removed: nat)
      modifies this
      ensures cache == LiveEntries(old(cache), now)
      ensures removed == |ExpiredKeys(old(cache), now)|
      ensures hits == old(hits) && misses == old(misses)
    {
      var expired := ExpiredKeys(cache, now);
      ghost var start := cache;
      var todo := expired;
      while todo != {}
        invariant todo <= expired
        invariant hits == old(hits) && misses == old(misses)
        invariant cache == map k | k in start && k !in expired - todo :: start[k]
        decreases |todo|
      {
        var k :| k in todo;
        cache := cache - {k};
        todo := todo - {k};
      }
      removed := |expired|;
    }
  }

  // --------------------------------------------------------- rate limiter

  /** The bucket after the requests older than the window start are popped
      from its front, as long as the front is older. */
  function DropOld(bucket: seq<real>, windowStart: real): seq<real>
    decreases |bucket|
  {
    if bucket != [] && bucket[0] < windowStart then DropOld(bucket[1..], windowStart) else bucket
  }

  /** What pruning leaves is a suffix of the bucket: everything before it
      is older than the window, and its front is not. */
  lemma {:induction false} DropOldMeaning(bucket: seq<real>, windowStart: real)
    ensures var kept := DropOld(bucket, windowStart);
            && |kept| <= |bucket|
            && kept == bucket[|bucket| - |kept|..]
            && (forall i :: 0 <= i < |bucket| - |kept| ==> bucket[i] < windowStart)
            && (kept != [] ==> kept[0] >= windowStart)
    decreases |bucket|
  {
    if bucket != [] && bucket[0] < windowStart {
      DropOldMeaning(bucket[1..], windowStart);
      var kept := DropOld(bucket, windowStart);
      forall i | 0 <= i < |bucket| - |kept| ensures bucket[i] < windowStart {
        if i > 0 {
          assert bucket[i] == bucket[1..][i - 1];
        }
      }
    }
  }

  /** The seconds until the oldest request leaves the window, or 0 while
      the bucket is under the limit. */
  function WaitTime(bucket: seq<real>, limit: int, now: real): (w: real)
    ensures w >= 0.0
    ensures bucket == [] || |bucket| < limit ==> w == 0.0
    ensures bucket != [] && |bucket| >= limit && bucket[0] <= now ==> w <= 60.0
    ensures bucket != [] && |bucket| >= limit ==> w == Max(0.0, 60.0 - (now - bucket[0]))
  {
    if bucket == [] || |bucket| < limit then 0.0
    else Max(0.0, 60.0 - (now - bucket[0]))
  }

  /** What the statistics of one identifier report. */
  datatype RateStats = RateStats(requestsInWindow: nat, limit: int, remaining: int, waitTime: real)

  class RateLimiter {
    const requestsPerMinute: int
    var buckets: map<string, seq<real>>

    /** No bucket holds more requests than the limit allows. */
    predicate Valid()
      reads this
    {
      forall id :: id in buckets ==> |buckets[id]| <= Cap(requestsPerMinute)
    }

    constructor (requestsPerMinute: int)
      ensures Valid() && buckets == map[] && this.requestsPerMinute == requestsPerMinute
    {
      this.requestsPerMinute := requestsPerMinute;
      buckets := map[];
    }

    /** The bucket of an identifier; looking one up creates it empty. */
    function BucketOf(id: string): seq<real>
      reads this
    {
      if id in buckets then buckets[id] else []
    }

    /** Prunes the bucket to the last minute, then admits the request and
        records its time iff the bucket is under the limit. */
    method IsAllowed(id: string, now: real) returns (allowed: bool)
      requires Valid()
      modifies this
      ensures Valid()
      ensures var kept := DropOld(old(BucketOf(id)), now - 60.0);
              && (allowed <==> |kept| < requestsPerMinute)
              && buckets == old(buckets)[id := if allowed then kept + [now] else kept]
    {
      var windowStart := now - 60.0;
      var bucket := BucketOf(id);
      ghost var original := bucket;
      while bucket != [] && bucket[0] < windowStart
        invariant DropOld(bucket, windowStart) == DropOld(original, windowStart)
        decreases |bucket|
      {
        bucket := bucket[1..];
      }
      DropOldMeaning(original, windowStart);
      if |bucket| < requestsPerMinute {
        buckets := buckets[id := bucket + [now]];
        return true;
      }
      buckets := buckets[id := bucket];
      return false;
    }

    /** The wait before the next request is admitted; the lookup creates an
        empty bucket for a new identifier. */
    method GetWaitTime(id: string, now: real) returns (w: real)
      requires Valid()
      modifies this
      ensures Valid()
      ensures buckets == old(buckets)[id := old(BucketOf(id))]
      ensures w == WaitTime(old(BucketOf(id)), requestsPerMinute, now)
    {
      var bucket := BucketOf(id);
      buckets := buckets[id := bucket];
      w := WaitTime(bucket, requestsPerMinute, now);
    }

    /** Forgets an identifier. */
    method Reset(id: string)
      requires Valid()
      modifies this
      ensures Valid()
      ensures buckets == old(buckets) - {id}
    {
      if id in buckets {
        buckets := buckets - {id};
      }
    }

    /** Prunes the bucket and reports the requests in the window, how many
        more are allowed, and the wait time of the pruned bucket. */
    method GetStats(id: string, now: real) returns (s: RateStats)
      requires Valid()
      modifies this
      ensures Valid()
      ensures var kept := DropOld(old(BucketOf(id)), now - 60.0);
              && buckets == old(buckets)[id := kept]
              && s == RateStats(|kept|, requestsPerMinute, requestsPerMinute - |kept|,
                                WaitTime(kept, requestsPerMinute, now))
      ensures s.requestsInWindow <= Cap(requestsPerMinute)
    {
      var windowStart := now - 60.0;
      var bucket := BucketOf(id);
      ghost var original := bucket;
      while bucket != [] && bucket[0] < windowStart
        invariant DropOld(bucket, windowStart) == DropOld(original, windowStart)
        decreases |bucket|
      {
        bucket := bucket[1..];
      }
      DropOldMeaning(original, windowStart);
      buckets := buckets[id := bucket];
      s := RateStats(|bucket|, requestsPerMinute, requestsPerMinute - |bucket|,
                     WaitTime(bucket, requestsPerMinute, now));
    }
  }

  /** The most requests a bucket can hold under a limit. */
  function Cap(limit: int): nat {
    if limit > 0 then limit else 0
  }

  // ------------------------------------------------------------ monitor

  /** The accumulated timings of one function. */
  datatype FuncMetrics = FuncMetrics(calls: nat, totalTime: real, minTime: real, maxTime: real, errors: nat)

  /** Every entry the monitor holds has been recorded at least once, counts
      no more errors than calls, and spans its timings. */
  predicate Consistent(m: FuncMetrics) {
    m.calls >= 1 && m.errors <= m.calls && m.minTime <= m.maxTime && 0.0 <= m.maxTime
  }

  /** One more call of `time` seconds; `None` is the fresh entry, whose
      minimum is infinite and whose maximum is 0. */
  function Observe(m: Option<FuncMetrics>, time: real, error: bool): (r: FuncMetrics)
    requires m.Some? ==> Consistent(m.value)
    ensures Consistent(r)
    ensures r.calls == (if m.Some? then m.value.calls else 0) + 1
    ensures r.errors == (if m.Some? then m.value.errors else 0) + (if error then 1 else 0)
    ensures r.totalTime == (if m.Some? then m.value.totalTime else 0.0) + time
    ensures r.minTime <= time <= r.maxTime
    ensures m.Some? ==> r.minTime <= m.value.minTime && m.value.maxTime <= r.maxTime
  {
    var e := if error then 1 else 0;
    match m
    case None => FuncMetrics(1, time, time, Max(0.0, time), e)
    case Some(v) => FuncMetrics(v.calls + 1, v.totalTime + time, Min(v.minTime, time), Max(v.maxTime, time), v.errors + e)
  }

  /** An entry as reported: the averages are there only when there are
      calls. */
  datatype MetricsReport = MetricsReport(metrics: FuncMetrics, avgTime: Option<real>, errorRate: Option<real>)

  function ReportOf(m: FuncMetrics): (r: MetricsReport)
    ensures r.metrics == m
    ensures r.avgTime.Some? <==> m.calls > 0
    ensures r.errorRate.Some? <==> m.calls > 0
    ensures Consistent(m) ==> r.errorRate.Some? && 0.0 <= r.errorRate.value <= 100.0
  {
    if m.calls > 0 then
      ErrorRateBounds(m.errors, m.calls);
      MetricsReport(m, Some(m.totalTime / m.calls as real), Some(m.errors as real / m.calls as real * 100.0))
    else MetricsReport(m, None, None)
  }

  lemma ErrorRateBounds(errors: nat, calls: nat)
    requires calls > 0
    ensures errors <= calls ==> 0.0 <= errors as real / calls as real * 100.0 <= 100.0
  {
    if errors <= calls {
      DivBounds(errors as real, calls as real);
    }
  }

  /** What `get_metrics` returns: one entry (none when the name is unknown)
      or all of them. */
  datatype MetricsResult = One(report: Option<MetricsReport>) | All(reports: map<string, MetricsReport>)

  class PerformanceMonitor {
    var metrics: map<string, FuncMetrics>

    predicate Valid()
      reads this
    {
      forall name :: name in metrics ==> Consistent(metrics[name])
    }

    constructor ()
      ensures Valid() && metrics == map[]
    {
      metrics := map[];
    }

    /** Adds one call to the function's entry, creating it on first use. */
    method Record(funcName: string, time: real, error: bool)
      requires Valid()
      modifies this
      ensures Valid()
      ensures metrics == old(metrics)[funcName := Observe(if funcName in old(metrics) then Some(old(metrics)[funcName]) else None, time, error)]
    {
      var m := if funcName in metrics then Some(metrics[funcName]) else None;
      metrics := metrics[funcName := Observe(m, time, error)];
    }

    /** A present, non-empty name selects one entry; otherwise all entries
        are reported. */
    function GetMetrics(funcName: Option<string>): (r: MetricsResult)
      reads this
      ensures funcName.Some? && funcName.value != [] ==>
                r == One(if funcName.value in metrics then Some(ReportOf(metrics[funcName.value])) else None)
      ensures funcName.None? || funcName.value == [] ==>
                r.All? && r.reports.Keys == metrics.Keys
                && forall name :: name in metrics ==> r.reports[name] == ReportOf(metrics[name])
    {
      if funcName.Some? && funcName.value != [] then
        One(if funcName.value in metrics then Some(ReportOf(metrics[funcName.value])) else None)
      else
        All(map name | name in metrics :: ReportOf(metrics[name]))
    }

    /** A present, non-empty name forgets that entry; otherwise everything
        is forgotten. */
    method Reset(funcName: Option<string>)
      requires Valid()
      modifies this
      ensures Valid()
      ensures funcName.Some? && funcName.value != [] ==> metrics == old(metrics) - {funcName.value}
      ensures funcName.None? || funcName.value == [] ==> metrics == map[]
    {
      if funcName.Some? && funcName.value != [] {
        if funcName.value in metrics {
          metrics := metrics - {funcName.value};
        }
      } else {
        metrics := map[];
      }
    }
  }

  // ------------------------------------------------------------- batching

  /** `items[i:i + size]` for `i` in `range(0, len(items), size)`. */
  function Chunks<T>(items: seq<T>, size: nat): (r: seq<seq<T>>)
    requires size > 0
    ensures forall i :: 0 <= i < |r| ==> 0 < |r[i]| <= size
    decreases |items|
  {
    if items == [] then []
    else if |items| <= size then [items]
    else [items[..size]] + Chunks(items[size..], size)
  }

  function Concat<T>(parts: seq<seq<T>>): seq<T>
    decreases |parts|
  {
    if parts == [] then [] else parts[0] + Concat(parts[1..])
  }

  /** The batches' results, in batch order. */
  function ConcatMap<A, B>(parts: seq<seq<A>>, f: seq<A> -> seq<B>): seq<B>
    decreases |parts|
  {
    if parts == [] then [] else f(parts[0]) + ConcatMap(parts[1..], f)
  }

  /** The chunks put back together are the items, in order. */
  lemma {:induction false} ChunksConcat<T>(items: seq<T>, size: nat)
    requires size > 0
    ensures Concat(Chunks(items, size)) == items
    decreases |items|
  {
    if items != [] && |items| > size {
      ChunksConcat(items[size..], size);
      var c := Chunks(items, size);
      assert c[0] == items[..size] && c[1..] == Chunks(items[size..], size);
      assert items == items[..size] + items[size..];
    } else if items != [] {
      assert Chunks(items, size) == [items];
      assert Concat([items]) == items + Concat([]);
    }
  }

  /** A query that answers item by item gives, batched, one answer per
      item in item order. */
  lemma {:induction false} ConcatMapElementwise<A, B>(parts: seq<seq<A>>, f: seq<A> -> seq<B>, g: A -> B)
    requires forall b: seq<A> :: f(b) == Map(b, g)
    ensures ConcatMap(parts, f) == Map(Concat(parts), g)
    decreases |parts|
  {
    if parts != [] {
      ConcatMapElementwise(parts[1..], f, g);
      MapAppend(parts[0], Concat(parts[1..]), g);
    }
  }

  /** `items[i:]`, empty once `i` is past the end. */
  function Drop<T>(items: seq<T>, i: nat): seq<T> {
    if i <= |items| then items[i..] else []
  }

  /** The batching wrapper: a batch size of 0 is an error (`range` refuses
      a zero step), a negative one makes no batch, and a positive one calls
      the query on consecutive slices and concatenates the answers. */
  method BatchQuery<A, B>(query: seq<A> -> seq<B>, batchSize: int, items: seq<A>) returns (r: Result<seq<B>, string>)
    ensures batchSize == 0 ==> r.Failure?
    ensures batchSize < 0 ==> r == Success([])
    ensures batchSize > 0 ==> r == Success(ConcatMap(Chunks(items, batchSize), query))
  {
    if batchSize == 0 {
      return Failure("range() arg 3 must not be zero");
    }
    if batchSize < 0 {
      return Success([]);
    }
    var size: nat := batchSize;
    var results: seq<B> := [];
    var i: nat := 0;
    while i < |items|
      invariant results + ConcatMap(Chunks(Drop(items, i), size), query)
                == ConcatMap(Chunks(items, size), query)
      decreases |items| - i
    {
      var end := if i + size <= |items| then i + size else |items|;
      var batch := items[i..end];
      BatchStep(items, i, size, query);
      results := results + query(batch);
      i := i + size;
    }
    assert Drop(items, i) == [];
    assert Chunks(Drop(items, i), size) == [];
    assert results + [] == results;
    return Success(results);
  }

  /** The answers from position `i` on are the answer to the batch at `i`
      followed by the answers from the next batch on. */
  lemma BatchStep<A, B>(items: seq<A>, i: nat, size: nat, query: seq<A> -> seq<B>)
    requires size > 0 && i < |items|
    ensures var end := if i + size <= |items| then i + size else |items|;
            ConcatMap(Chunks(Drop(items, i), size), query)
            == query(items[i..end]) + ConcatMap(Chunks(Drop(items, i + size), size), query)
  {
    ChunksStep(items, i, size);
  }

  /** One batch taken from position `i` leaves the chunks of the rest. */
  lemma ChunksStep<T>(items: seq<T>, i: nat, size: nat)
    requires size > 0 && i < |items|
    ensures var end := if i + size <= |items| then i + size else |items|;
            Chunks(Drop(items, i), size) == [items[i..end]] + Chunks(Drop(items, i + size), size)
  {
    var rest := items[i..];
    if |rest| <= size {
      assert Drop(items, i + size) == [];
      assert items[i..|items|] == rest;
    } else {
      assert rest[..size] == items[i..i + size];
      assert rest[size..] == items[i + size..];
    }
  }

  // --------------------------------------------------------- connections

  /** How a request for a connection is served: a pooled one is reused, or
      a new one may be created. */
  datatype Acquired<C> = Reused(connection: C) | Created

  class ConnectionPool<C> {
    const maxConnections: int
    var pool: seq<C>
    var inUse: int

    /** Connections handed out plus connections waiting never exceed the
        maximum. */
    predicate Valid()
      reads this
    {
      inUse + |pool| <= Cap(maxConnections)
    }

    constructor (maxConnections: int)
      ensures Valid() && pool == [] && inUse == 0 && this.maxConnections == maxConnections
    {
      this.maxConnections := maxConnections;
      pool := [];
      inUse := 0;
    }

    /** The oldest pooled connection if there is one; otherwise a new one
        while fewer than the maximum are in use; otherwise an error. */
    method GetConnection() returns (r: Result<Acquired<C>, string>)
      requires Valid()
      modifies this
      ensures Valid()
      ensures old(pool) != [] ==> r == Success(Reused(old(pool)[0])) && pool == old(pool)[1..] && inUse == old(inUse) + 1
      ensures old(pool) == [] && old(inUse) < maxConnections ==> r == Success(Created) && pool == [] && inUse == old(inUse) + 1
      ensures old(pool) == [] && old(inUse) >= maxConnections ==> r.Failure? && pool == [] && inUse == old(inUse)
    {
      if pool != [] {
        var c := pool[0];
        pool := pool[1..];
        inUse := inUse + 1;
        return Success(Reused(c));
      } else if inUse < maxConnections {
        inUse := inUse + 1;
        return Success(Created);
      }
      return Failure("Connection pool exhausted");
    }

    /** Puts a connection at the back of the pool. */
    method ReleaseConnection(c: C)
      requires Valid()
      modifies this
      ensures Valid()
      ensures pool == old(pool) + [c] && inUse == old(inUse) - 1
    {
      pool := pool + [c];
      inUse := inUse - 1;
    }

    /** The pool's counters: what waits and what is handed out stay within
        the maximum. */
    function Stats(): (s: (nat, int, int))
      reads this
      requires Valid()
      ensures s.0 == |pool| && s.1 == inUse && s.2 == maxConnections
      ensures s.0 + s.1 <= Cap(s.2)
    {
      (|pool|, inUse, maxConnections)
    }
  }
}
