/**
  Fixed-window rate limits. The in-memory store purges expired buckets now and then and evicts the
  oldest ones when full; the Valkey store counts in keys that expire. Times are in milliseconds.
 */
module RateLimit {
  import opened Prelude

  const MAX_BUCKETS: nat := 20_000
  const PURGE_EVERY: nat := 100

  datatype Bucket = Bucket(count: int, expiresAt: int)

  type Buckets = map<string, Bucket>

  /** `(allowed, retry_after)`: the second is 0 for an allowed hit, else whole seconds. */
  type Answer = (bool, int)

  /** Seconds until a moment `ms` away, rounded up, at least one. */
  function RetryAfter(ms: int): int {
    Max(1, CeilDiv(ms, 1000))
  }

  function CeilDiv(a: int, b: int): int
    requires b > 0
  {
    -((-a) / b)
  }

  /** Rounding up: the result is the least whole number of seconds that is enough. */
  lemma RetryAfterIsEnough(ms: int)
    requires ms > 0
    ensures RetryAfter(ms) * 1000 >= ms && (RetryAfter(ms) - 1) * 1000 < ms
  {
  }

  // ------------------------------------------------------------------ the in-memory store

  function Purged(b: Buckets, now: int): Buckets {
    map k | k in b && b[k].expiresAt > now :: b[k]
  }

  /** The bucket that counts for a key now. */
  function Live(b: Buckets, key: string, now: int): Option<Bucket> {
    if key in b && b[key].expiresAt > now then Some(b[key]) else None
  }

  /** One hit on a store that neither purges nor evicts. */
  function PlainHit(b: Buckets, key: string, limit: int, window: int, now: int): (Buckets, Answer) {
    if limit <= 0 then (b, (true, 0))
    else match Live(b, key, now)
      case None => (b[key := Bucket(1, now + window)], (true, 0))
      case Some(bucket) =>
        if bucket.count >= limit then (b, (false, RetryAfter(bucket.expiresAt - now)))
        else (b[key := bucket.(count := bucket.count + 1)], (true, 0))
  }

  /** `after` is `before` with some buckets evicted, none of which expires later than one kept. */
  ghost predicate EvictedOldest(before: Buckets, after: Buckets) {
    && after.Keys <= before.Keys
    && (forall k :: k in after ==> after[k] == before[k])
    && (forall k, m :: k in before && k !in after && m in after ==> before[k].expiresAt <= before[m].expiresAt)
  }

  class MemoryRateLimitStore {
    var buckets: Buckets
    var hitCount: nat

    constructor ()
      ensures buckets == map[] && hitCount == 0
    {
      buckets, hitCount := map[], 0;
    }

    method PurgeExpired(now: int) returns (removed: nat)
      modifies this`buckets
      ensures buckets == Purged(old(buckets), now)
      ensures removed == |old(buckets)| - |buckets|
    {
      ghost var was := buckets;
      var before := |buckets|;
      var todo := set k | k in buckets && buckets[k].expiresAt <= now;
      while todo != {}
        invariant todo <= buckets.Keys <= was.Keys
        invariant forall k :: k in buckets ==> buckets[k] == was[k]
        invariant forall k :: k in was ==> (k in buckets <==> k in todo || was[k].expiresAt > now)
        decreases todo
      {
        var key :| key in todo;
        buckets := buckets - {key};
        todo := todo - {key};
      }
      assert buckets == Purged(was, now);
      SubMapSmaller(buckets, was);
      removed := before - |buckets|;
    }

    /** The key whose bucket expires first. */
    method Oldest() returns (key: string)
      requires buckets != map[]
      ensures key in buckets && forall k :: k in buckets ==> buckets[key].expiresAt <= buckets[k].expiresAt
    {
      var todo := buckets.Keys;
      key :| key in todo;
      todo := todo - {key};
      while todo != {}
        invariant key in buckets && todo <= buckets.Keys
        invariant forall k :: k in buckets && k !in todo ==> buckets[key].expiresAt <= buckets[k].expiresAt
        decreases todo
      {
        var k :| k in todo;
        todo := todo - {k};
        if buckets[k].expiresAt < buckets[key].expiresAt {
          key := k;
        }
      }
    }

    /** Make room for one bucket: purge, and if that is not enough evict the oldest. */
    method EvictIfNeeded(now: int)
      modifies this`buckets
      ensures |buckets| < MAX_BUCKETS
      ensures |old(buckets)| < MAX_BUCKETS ==> buckets == old(buckets)
      ensures |old(buckets)| >= MAX_BUCKETS ==> EvictedOldest(Purged(old(buckets), now), buckets)
      ensures |old(buckets)| >= MAX_BUCKETS && |Purged(old(buckets), now)| < MAX_BUCKETS ==>
                buckets == Purged(old(buckets), now)
    {
      if |buckets| < MAX_BUCKETS {
        return;
      }
      var _ := PurgeExpired(now);
      ghost var purged := buckets;
      while |buckets| >= MAX_BUCKETS
        invariant EvictedOldest(purged, buckets)
        invariant |purged| < MAX_BUCKETS ==> buckets == purged
        decreases |buckets|
      {
        var key := Oldest();
        RemoveOne(buckets, key);
        buckets := buckets - {key};
      }
    }

    /**
      One hit. `later` is the clock as read again by the eviction. The number of buckets never
      exceeds the maximum, and unless live buckets had to be evicted the answer and the bucket of
      every key are those of the store that never purges.
     */
    method Hit(key: string, limit: int, window: int, now: int, later: int) returns (r: Answer)
      requires now <= later && |buckets| <= MAX_BUCKETS
      modifies this
      ensures |buckets| <= MAX_BUCKETS
      ensures StoreStep(old(buckets), key, limit, window, now, later, buckets, r)
      ensures limit <= 0 ==> buckets == old(buckets) && hitCount == old(hitCount)
      ensures limit > 0 ==> hitCount == old(hitCount) + 1
      ensures limit > 0 && Live(old(buckets), key, now).None? ==>
                key in buckets && buckets[key] == Bucket(1, now + window)
    {
      if limit <= 0 {
        return (true, 0);
      }
      CountHit(now);
      PurgeShrinks(old(buckets), buckets, now, later);
      if key !in buckets || buckets[key].expiresAt <= now {
        OpenBucket(key, window, now, later);
        return (true, 0);
      }
      var bucket := buckets[key];
      if bucket.count >= limit {
        return (false, RetryAfter(bucket.expiresAt - now));
      }
      buckets := buckets[key := bucket.(count := bucket.count + 1)];
      assert buckets.Keys == old(buckets).Keys || buckets.Keys == Purged(old(buckets), now).Keys;
      r := (true, 0);
    }

    /** Every hundredth hit purges. */
    method CountHit(now: int)
      modifies this
      ensures hitCount == old(hitCount) + 1
      ensures buckets == if hitCount % PURGE_EVERY == 0 then Purged(old(buckets), now) else old(buckets)
    {
      hitCount := hitCount + 1;
      if hitCount % PURGE_EVERY == 0 {
        var removed := PurgeExpired(now);
      }
    }

    method OpenBucket(key: string, window: int, now: int, later: int)
      modifies this`buckets
      ensures |buckets| <= MAX_BUCKETS
      ensures key in buckets && buckets[key] == Bucket(1, now + window)
      ensures |Purged(old(buckets), later)| < MAX_BUCKETS ==>
                buckets == old(buckets)[key := Bucket(1, now + window)]
                || buckets == Purged(old(buckets), later)[key := Bucket(1, now + window)]
    {
      EvictIfNeeded(later);
      RoomForOne(buckets, key, Bucket(1, now + window));
      buckets := buckets[key := Bucket(1, now + window)];
    }
  }

  lemma RemoveOne(b: Buckets, key: string)
    requires key in b
    ensures |b - {key}| == |b| - 1
  {
  }

  lemma RoomForOne(b: Buckets, key: string, v: Bucket)
    requires |b| < MAX_BUCKETS
    ensures |b[key := v]| <= MAX_BUCKETS
  {
  }

  lemma SubMapSmaller(a: Buckets, b: Buckets)
    requires a.Keys <= b.Keys
    ensures |a| <= |b|
  {
    assert b.Keys == a.Keys + (b.Keys - a.Keys);
  }

  lemma PurgeShrinks(b: Buckets, mid: Buckets, now: int, later: int)
    requires mid == b || mid == Purged(b, now)
    requires now <= later
    ensures Purged(mid, later) == Purged(b, later)
    ensures |mid| <= |b|
  {
    SubMapSmaller(mid, b);
  }

  /** What a hit answers, and what it leaves while live buckets need not be evicted. */
  ghost predicate StoreStep(
    b: Buckets, key: string, limit: int, window: int, now: int, later: int, b': Buckets, answer: Answer) {
    && answer == PlainHit(b, key, limit, window, now).1
    && (|Purged(b, later)| < MAX_BUCKETS ==> Tidied(PlainHit(b, key, limit, window, now).0, b', key, later))
  }

  /** `b` is `plain` with some buckets missing, all of them other keys' and dead by `later`. */
  ghost predicate Tidied(plain: Buckets, b: Buckets, key: string, later: int) {
    && b.Keys <= plain.Keys
    && (forall k :: k in b ==> b[k] == plain[k])
    && (forall k :: k in plain && k !in b ==> k != key && plain[k].expiresAt <= later)
  }

  // ------------------------------------------------------------------ the Valkey store

  /** A counter key; with no deadline it would never expire. */
  datatype Counter = Counter(count: int, deadline: Option<int>)

  type Counters = map<string, Counter>

  /** Valkey drops a key at its deadline. */
  function LiveCounter(c: Counters, key: string, now: int): Option<Counter> {
    if key in c && (c[key].deadline.None? || c[key].deadline.value > now) then Some(c[key]) else None
  }

  function WindowMs(window: int): int {
    Max(1, window)
  }

  /** One hit: every hit counts, a denied one too; the first hit of a key sets its deadline. */
  function ValkeyHit(c: Counters, key: string, limit: int, window: int, now: int): (Counters, Answer) {
    if limit <= 0 then (c, (true, 0))
    else
      var counter := match LiveCounter(c, key, now)
                     case None => Counter(1, Some(now + WindowMs(window)))
                     case Some(k) => k.(count := k.count + 1);
      var left := if counter.deadline.Some? then counter.deadline.value - now else WindowMs(window);
      (c[key := counter], if counter.count > limit then (false, RetryAfter(left)) else (true, 0))
  }

  class ValkeyRateLimitStore {
    var counters: Counters

    constructor ()
      ensures counters == map[]
    {
      counters := map[];
    }

    /** INCR: a missing or expired key counts from zero and has no deadline. */
    method Incr(key: string, now: int) returns (count: int)
      modifies this
      ensures count == (match LiveCounter(old(counters), key, now) case None => 1 case Some(c) => c.count + 1)
      ensures counters == old(counters)[key :=
                match LiveCounter(old(counters), key, now)
                case None => Counter(1, None)
                case Some(c) => c.(count := c.count + 1)]
    {
      match LiveCounter(counters, key, now) {
        case None =>
          counters := counters[key := Counter(1, None)];
        case Some(c) =>
          counters := counters[key := c.(count := c.count + 1)];
      }
      count := counters[key].count;
    }

    method Hit(key: string, limit: int, window: int, now: int) returns (r: Answer)
      requires forall k :: k in counters ==> counters[k].count >= 1
      modifies this
      ensures counters == ValkeyHit(old(counters), key, limit, window, now).0
      ensures r == ValkeyHit(old(counters), key, limit, window, now).1
      ensures forall k :: k in counters ==> counters[k].count >= 1
    {
      if limit <= 0 {
        return (true, 0);
      }
      var windowMs := WindowMs(window);
      var count := Incr(key, now);
      if count == 1 {
        counters := counters[key := counters[key].(deadline := Some(now + windowMs))];
      }
      if count > limit {
        var left := if counters[key].deadline.Some? then counters[key].deadline.value - now else windowMs;
        return (false, RetryAfter(left));
      }
      r := (true, 0);
    }
  }
}
