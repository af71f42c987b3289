/** What the rate limits promise over every sequence of hits. */
module RateLimitRuns {
  import opened Prelude
  import opened RateLimit

  datatype HitEvent = HitEvent(key: string, limit: int, window: int, now: int)

  /** The clock does not go back. */
  predicate Timed(hits: seq<HitEvent>) {
    forall i, j :: 0 <= i < j < |hits| ==> hits[i].now <= hits[j].now
  }

  /** The buckets of the store that never purges, after some hits. */
  function After(hits: seq<HitEvent>): Buckets {
    if hits == [] then map[]
    else
      var n := |hits| - 1;
      PlainHit(After(hits[..n]), hits[n].key, hits[n].limit, hits[n].window, hits[n].now).0
  }

  /** Its answer to hit `i`. */
  function AnswerTo(hits: seq<HitEvent>, i: nat): Answer
    requires i < |hits|
  {
    PlainHit(After(hits[..i]), hits[i].key, hits[i].limit, hits[i].window, hits[i].now).1
  }

  // ------------------------------------------------------------------ purging changes no answer

  /** One `MemoryRateLimitStore.Hit`. */
  ghost predicate HitStep(b: Buckets, h: HitEvent, later: int, b': Buckets, answer: Answer) {
    StoreStep(b, h.key, h.limit, h.window, h.now, later, b', answer)
  }

  /** What the background sweeper leaves, if it ran: the last of its purges, at the given time. */
  function Swept(b: Buckets, sweep: Option<int>): Buckets {
    match sweep case None => b case Some(at) => Purged(b, at)
  }

  /**
    A run of the in-memory store: `sweeps[i]` is the sweeper's purge between hit `i - 1` and hit `i`,
    `later[i]` the second clock reading of hit `i`.
   */
  ghost predicate StoreRun(hits: seq<HitEvent>, sweeps: seq<Option<int>>, later: seq<int>,
                           states: seq<Buckets>, answers: seq<Answer>)
  {
    && |sweeps| == |later| == |answers| == |hits| && |states| == |hits| + 1
    && states[0] == map[]
    && (forall i :: 0 <= i < |hits| ==> hits[i].now <= later[i])
    && (forall i, j :: 0 <= i < j < |hits| ==> later[i] <= hits[j].now)
    && (forall i :: 0 <= i < |hits| && sweeps[i].Some? ==> sweeps[i].value <= hits[i].now)
    && (forall i :: 0 <= i < |hits| ==>
          HitStep(Swept(states[i], sweeps[i]), hits[i], later[i], states[i + 1], answers[i]))
  }

  /** Fewer live keys than buckets at every hit: nothing live is ever evicted. */
  ghost predicate RoomThroughout(hits: seq<HitEvent>, later: seq<int>)
    requires |later| == |hits|
  {
    forall i :: 0 <= i < |hits| ==> |Purged(After(hits[..i]), later[i])| < MAX_BUCKETS
  }

  /** `kept` is `plain` without some buckets that are dead from `t` on. */
  ghost predicate Missing(plain: Buckets, kept: Buckets, t: int) {
    && kept.Keys <= plain.Keys
    && (forall k :: k in kept ==> kept[k] == plain[k])
    && (forall k :: k in plain && k !in kept ==> plain[k].expiresAt <= t)
  }

  lemma MissingStep(plain: Buckets, kept: Buckets, t: int, h: HitEvent, later: int, kept': Buckets, answer: Answer)
    requires Missing(plain, kept, t) && t <= h.now <= later
    requires |Purged(plain, later)| < MAX_BUCKETS
    requires HitStep(kept, h, later, kept', answer)
    ensures answer == PlainHit(plain, h.key, h.limit, h.window, h.now).1
    ensures Missing(PlainHit(plain, h.key, h.limit, h.window, h.now).0, kept', later)
  {
    assert Live(plain, h.key, h.now) == Live(kept, h.key, h.now);
    SubMapSmaller(Purged(kept, later), Purged(plain, later));
    var plain' := PlainHit(plain, h.key, h.limit, h.window, h.now).0;
    var mid := PlainHit(kept, h.key, h.limit, h.window, h.now).0;
    assert Missing(plain', mid, later);
  }

  /** Sweeping drops only what is dead by the next hit. */
  lemma MissingSwept(plain: Buckets, kept: Buckets, t: int, sweep: Option<int>, now: int)
    requires Missing(plain, kept, t) && t <= now && (sweep.Some? ==> sweep.value <= now)
    ensures Missing(plain, Swept(kept, sweep), now)
  {
  }

  /** The time of the last hit before hit `n`. */
  function PurgedAt(hits: seq<HitEvent>, later: seq<int>, n: nat): int
    requires n <= |hits| == |later| && |hits| > 0
  {
    if n == 0 then hits[0].now else later[n - 1]
  }

  lemma {:induction false} MissingThroughout(
    hits: seq<HitEvent>, sweeps: seq<Option<int>>, later: seq<int>, states: seq<Buckets>, answers: seq<Answer>, n: nat)
    requires StoreRun(hits, sweeps, later, states, answers) && RoomThroughout(hits, later) && n <= |hits| && |hits| > 0
    ensures Missing(After(hits[..n]), states[n], PurgedAt(hits, later, n))
  {
    if n > 0 {
      var i := n - 1;
      MissingThroughout(hits, sweeps, later, states, answers, i);
      assert hits[..n][..i] == hits[..i];
      MissingSwept(After(hits[..i]), states[i], PurgedAt(hits, later, i), sweeps[i], hits[i].now);
      MissingStep(After(hits[..i]), Swept(states[i], sweeps[i]), hits[i].now, hits[i], later[i], states[n], answers[i]);
    }
  }

  /**
    With room for every live key, the store that purges, on hits and in the background, gives the
    answers of one that never does.
   */
  lemma PurgingIsInvisible(
    hits: seq<HitEvent>, sweeps: seq<Option<int>>, later: seq<int>, states: seq<Buckets>, answers: seq<Answer>, i: nat)
    requires StoreRun(hits, sweeps, later, states, answers) && RoomThroughout(hits, later) && i < |hits|
    ensures answers[i] == AnswerTo(hits, i)
  {
    MissingThroughout(hits, sweeps, later, states, answers, i);
    MissingSwept(After(hits[..i]), states[i], PurgedAt(hits, later, i), sweeps[i], hits[i].now);
    MissingStep(After(hits[..i]), Swept(states[i], sweeps[i]), hits[i].now, hits[i], later[i],
                states[i + 1], answers[i]);
  }

  // ------------------------------------------------------------------ how many hits get through

  /** The times of the allowed hits of a key. */
  function Allowed(hits: seq<HitEvent>, key: string): seq<int> {
    if hits == [] then []
    else
      var n := |hits| - 1;
      Allowed(hits[..n], key) + (if hits[n].key == key && AnswerTo(hits, n).0 then [hits[n].now] else [])
  }

  /** The times at which a bucket of the key was opened. */
  function Opened(hits: seq<HitEvent>, key: string): seq<int> {
    if hits == [] then []
    else
      var n := |hits| - 1;
      Opened(hits[..n], key)
      + (if hits[n].key == key && Live(After(hits[..n]), key, hits[n].now).None? then [hits[n].now] else [])
  }

  /** How many times fall in the half-open interval. */
  function CountIn(times: seq<int>, lo: int, hi: int): nat {
    if times == [] then 0
    else
      var n := |times| - 1;
      CountIn(times[..n], lo, hi) + (if lo <= times[n] < hi then 1 else 0)
  }

  lemma CountAppend(times: seq<int>, t: int, lo: int, hi: int)
    ensures CountIn(times + [t], lo, hi) == CountIn(times, lo, hi) + (if lo <= t < hi then 1 else 0)
  {
  }

  lemma {:induction false} CountSplit(times: seq<int>, lo: int, mid: int, hi: int)
    requires lo <= mid <= hi
    ensures CountIn(times, lo, hi) == CountIn(times, lo, mid) + CountIn(times, mid, hi)
  {
    if times != [] {
      CountSplit(times[..|times| - 1], lo, mid, hi);
    }
  }

  lemma {:induction false} CountNested(times: seq<int>, lo: int, hi: int, lo2: int, hi2: int)
    requires lo2 <= lo && forall i :: 0 <= i < |times| ==> times[i] < hi2
    ensures CountIn(times, lo, hi) <= CountIn(times, lo2, hi2)
  {
    if times != [] {
      CountNested(times[..|times| - 1], lo, hi, lo2, hi2);
    }
  }

  /** How many times fall in the window of length `w` that starts at `x`. */
  function InWindow(times: seq<int>, x: int, w: int): nat {
    CountIn(times, x, x + w)
  }

  /**
    The books of one key under limit `l` and window `w`: `s` is the start of the latest bucket and
    `count` its count; `a` and `o` are the allowed hits and the bucket starts so far.
   */
  ghost predicate Books(a: seq<int>, o: seq<int>, s: int, count: int, l: int, w: int) {
    && 1 <= count <= l
    && (forall i :: 0 <= i < |a| ==> a[i] < s + w)
    && CountIn(a, s, s + w) == count
    && (forall x :: s - w < x <= s ==> CountIn(a, x, s) <= l)
    && (forall x :: InWindow(a, x, w) <= 2 * l)
    && (forall j :: 0 <= j < |o| ==> (o[j] == s || o[j] + w <= s) && InWindow(a, o[j], w) <= l)
  }

  /** A hit allowed by the current bucket. */
  lemma BooksSameBucket(a: seq<int>, o: seq<int>, s: int, count: int, l: int, w: int, now: int)
    requires Books(a, o, s, count, l, w) && 0 < w && s <= now < s + w && count < l
    ensures Books(a + [now], o, s, count + 1, l, w)
  {
    var a' := a + [now];
    CountAppend(a, now, s, s + w);
    forall x | s - w < x <= s ensures CountIn(a', x, s) <= l {
      CountAppend(a, now, x, s);
    }
    forall x ensures InWindow(a', x, w) <= 2 * l {
      CountAppend(a, now, x, x + w);
      assert InWindow(a, x, w) <= 2 * l;
      if x <= now < x + w {
        if x <= s {
          CountSplit(a', x, s, x + w);
          CountAppend(a, now, x, s);
        }
        CountNested(a', Max(x, s), x + w, s, s + w);
      }
    }
    forall j | 0 <= j < |o| ensures InWindow(a', o[j], w) <= l {
      CountAppend(a, now, o[j], o[j] + w);
    }
  }

  /** A hit that opens the next bucket. */
  lemma BooksNextBucket(a: seq<int>, o: seq<int>, s: int, count: int, l: int, w: int, now: int)
    requires Books(a, o, s, count, l, w) && 0 < w && s + w <= now
    ensures Books(a + [now], o + [now], now, 1, l, w)
  {
    var a' := a + [now];
    CountAppend(a, now, now, now + w);
    NoneAfter(a, now, now + w);
    forall x | now - w < x <= now ensures CountIn(a', x, now) <= l {
      CountAppend(a, now, x, now);
      CountNested(a, x, now, s, s + w);
    }
    forall x ensures InWindow(a', x, w) <= 2 * l {
      CountAppend(a, now, x, x + w);
      assert InWindow(a, x, w) <= 2 * l;
      if x <= now < x + w {
        CountNested(a, x, x + w, s, s + w);
      }
    }
    forall j | 0 <= j < |o + [now]| ensures InWindow(a', (o + [now])[j], w) <= l {
      CountAppend(a, now, (o + [now])[j], (o + [now])[j] + w);
    }
  }

  lemma {:induction false} NoneAfter(times: seq<int>, lo: int, hi: int)
    requires forall i :: 0 <= i < |times| ==> times[i] < lo
    ensures CountIn(times, lo, hi) == 0
  {
    if times != [] {
      NoneAfter(times[..|times| - 1], lo, hi);
    }
  }

  lemma BooksFirst(now: int, l: int, w: int)
    requires 0 < l && 0 < w
    ensures Books([now], [now], now, 1, l, w)
  {
    forall lo, hi ensures CountIn([now], lo, hi) == if lo <= now < hi then 1 else 0 {
      CountAppend([], now, lo, hi);
      assert [] + [now] == [now];
    }
  }

  /** One key under a fixed positive limit and window. */
  predicate Fixed(hits: seq<HitEvent>, key: string, limit: int, window: int) {
    0 < limit && 0 < window &&
    forall i :: 0 <= i < |hits| && hits[i].key == key ==> hits[i].limit == limit && hits[i].window == window
  }

  function Entry(b: Buckets, key: string): Option<Bucket> {
    if key in b then Some(b[key]) else None
  }

  /** The books of one key, by the entry it has in the store. */
  ghost predicate KeyBooks(b: Option<Bucket>, a: seq<int>, o: seq<int>, limit: int, window: int) {
    match b
    case Some(bucket) => Books(a, o, bucket.expiresAt - window, bucket.count, limit, window)
    case None => a == [] && o == []
  }

  predicate OpenedBy(b: Option<Bucket>, window: int, now: int) {
    b.Some? ==> b.value.expiresAt - window <= now
  }

  /** One hit of the key. */
  lemma KeyBooksStep(b: Buckets, a: seq<int>, o: seq<int>, key: string, limit: int, window: int, now: int)
    requires 0 < limit && 0 < window && KeyBooks(Entry(b, key), a, o, limit, window)
    requires OpenedBy(Entry(b, key), window, now)
    ensures var (b', r) := PlainHit(b, key, limit, window, now);
            && KeyBooks(Entry(b', key), a + (if r.0 then [now] else []),
                        o + (if Live(b, key, now).None? then [now] else []), limit, window)
            && OpenedBy(Entry(b', key), window, now)
  {
    if key !in b {
      BooksFirst(now, limit, window);
      assert a + [now] == [now] && o + [now] == [now];
    } else {
      var s, count := b[key].expiresAt - window, b[key].count;
      assert a + [] == a && o + [] == o;
      if Live(b, key, now).None? {
        BooksNextBucket(a, o, s, count, limit, window, now);
      } else if count < limit {
        BooksSameBucket(a, o, s, count, limit, window, now);
      }
    }
  }

  lemma BooksOfHit(before: seq<HitEvent>, h: HitEvent, key: string, limit: int, window: int)
    requires 0 < limit && 0 < window
    requires KeyBooks(Entry(After(before), key), Allowed(before, key), Opened(before, key), limit, window)
    requires h.key == key && h.limit == limit && h.window == window
    requires OpenedBy(Entry(After(before), key), window, h.now)
    ensures var hits := before + [h];
            && KeyBooks(Entry(After(hits), key), Allowed(hits, key), Opened(hits, key), limit, window)
            && OpenedBy(Entry(After(hits), key), window, h.now)
  {
    OneHitMore(before, h, key);
    KeyBooksStep(After(before), Allowed(before, key), Opened(before, key), key, limit, window, h.now);
  }

  /** A hit of another key changes nothing for this one. */
  lemma HitElsewhere(before: seq<HitEvent>, h: HitEvent, key: string)
    requires h.key != key
    ensures var hits := before + [h];
            && Entry(After(hits), key) == Entry(After(before), key)
            && Allowed(hits, key) == Allowed(before, key) && Opened(hits, key) == Opened(before, key)
  {
    OneHitMore(before, h, key);
  }

  lemma OneHitMore(before: seq<HitEvent>, h: HitEvent, key: string)
    ensures var hits := before + [h];
            var step := PlainHit(After(before), h.key, h.limit, h.window, h.now);
            && After(hits) == step.0
            && Allowed(hits, key) == Allowed(before, key) + (if h.key == key && step.1.0 then [h.now] else [])
            && Opened(hits, key) == Opened(before, key)
                 + (if h.key == key && Live(After(before), key, h.now).None? then [h.now] else [])
  {
    assert (before + [h])[..|before|] == before;
  }

  lemma {:induction false} BooksKept(hits: seq<HitEvent>, key: string, limit: int, window: int)
    requires Timed(hits) && Fixed(hits, key, limit, window)
    ensures KeyBooks(Entry(After(hits), key), Allowed(hits, key), Opened(hits, key), limit, window)
    ensures hits != [] ==> OpenedBy(Entry(After(hits), key), window, hits[|hits| - 1].now)
  {
    if hits != [] {
      var n := |hits| - 1;
      var before, h := hits[..n], hits[n];
      BooksKept(before, key, limit, window);
      assert hits == before + [h];
      assert before != [] ==> before[|before| - 1].now <= h.now;
      if h.key == key {
        BooksOfHit(before, h, key, limit, window);
      } else {
        HitElsewhere(before, h, key);
      }
    }
  }

  /** Any interval one window long sees at most twice the limit. */
  lemma TwiceTheLimit(hits: seq<HitEvent>, key: string, limit: int, window: int, from_: int)
    requires Timed(hits) && Fixed(hits, key, limit, window)
    ensures InWindow(Allowed(hits, key), from_, window) <= 2 * limit
  {
    BooksKept(hits, key, limit, window);
  }

  /** A bucket's own window sees at most the limit. */
  lemma LimitPerBucket(hits: seq<HitEvent>, key: string, limit: int, window: int, j: nat)
    requires Timed(hits) && Fixed(hits, key, limit, window) && j < |Opened(hits, key)|
    ensures InWindow(Allowed(hits, key), Opened(hits, key)[j], window) <= limit
  {
    BooksKept(hits, key, limit, window);
  }

  // ------------------------------------------------------------------ memory against Valkey

  function CountersAfter(hits: seq<HitEvent>): Counters {
    if hits == [] then map[]
    else
      var n := |hits| - 1;
      ValkeyHit(CountersAfter(hits[..n]), hits[n].key, hits[n].limit, hits[n].window, hits[n].now).0
  }

  function ValkeyAnswerTo(hits: seq<HitEvent>, i: nat): Answer
    requires i < |hits|
  {
    ValkeyHit(CountersAfter(hits[..i]), hits[i].key, hits[i].limit, hits[i].window, hits[i].now).1
  }

  /** The two stores count the same window of a key, Valkey possibly higher. */
  ghost predicate Paired(b: Option<Bucket>, c: Option<Counter>) {
    match (b, c)
    case (None, None) => true
    case (Some(bucket), Some(counter)) => counter.deadline == Some(bucket.expiresAt) && bucket.count <= counter.count
    case _ => false
  }

  /** Windows last at least a millisecond. */
  predicate WholeWindows(hits: seq<HitEvent>) {
    forall i :: 0 <= i < |hits| ==> hits[i].window >= 1
  }

  /**
    The stores count the same windows. If Valkey's count is ahead, some past hit of the key was
    denied, at a limit not above memory's count.
   */
  ghost predicate InStep(hits: seq<HitEvent>, b: Buckets, c: Counters, key: string, now: int) {
    && Paired(Live(b, key, now), LiveCounter(c, key, now))
    && (Live(b, key, now).Some? ==> b[key].count >= 1)
    && (Live(b, key, now).Some? && b[key].count < c[key].count ==>
          exists i :: 0 <= i < |hits| && hits[i].key == key && hits[i].limit <= b[key].count)
  }

  lemma StepInStep(before: seq<HitEvent>, h: HitEvent, b: Buckets, c: Counters, key: string)
    requires InStep(before, b, c, key, h.now) && h.window >= 1
    ensures InStep(before + [h], PlainHit(b, h.key, h.limit, h.window, h.now).0,
                   ValkeyHit(c, h.key, h.limit, h.window, h.now).0, key, h.now)
  {
    var hits := before + [h];
    var b' := PlainHit(b, h.key, h.limit, h.window, h.now).0;
    var c' := ValkeyHit(c, h.key, h.limit, h.window, h.now).0;
    if Live(b, key, h.now).Some? && b[key].count < c[key].count {
      var i :| 0 <= i < |before| && before[i].key == key && before[i].limit <= b[key].count;
      assert hits[i] == before[i];
    }
    if Live(b', key, h.now).Some? && b'[key].count < c'[key].count && key == h.key && h.limit > 0 {
      if b'[key].count == b[key].count {
        assert hits[|before|] == h && h.limit <= b'[key].count;
      }
    }
  }

  lemma InStepLater(hits: seq<HitEvent>, b: Buckets, c: Counters, key: string, now: int, later: int)
    requires InStep(hits, b, c, key, now) && now <= later
    ensures InStep(hits, b, c, key, later)
  {
  }

  /** In step after every run of hits, whatever limits they carried. */
  lemma {:induction false} AlwaysInStep(hits: seq<HitEvent>, key: string, now: int)
    requires Timed(hits) && WholeWindows(hits)
    requires hits != [] ==> hits[|hits| - 1].now <= now
    ensures InStep(hits, After(hits), CountersAfter(hits), key, now)
  {
    if hits != [] {
      var n := |hits| - 1;
      var before, h := hits[..n], hits[n];
      AlwaysInStep(before, key, h.now);
      StepInStep(before, h, After(before), CountersAfter(before), key);
      assert hits == before + [h];
      InStepLater(hits, After(hits), CountersAfter(hits), key, h.now, now);
    }
  }

  /** The hit's limit lies above memory's count in the open window and within Valkey's. */
  predicate LimitBetween(hits: seq<HitEvent>, i: nat)
    requires i < |hits|
  {
    var h := hits[i];
    var b, c := Live(After(hits[..i]), h.key, h.now), LiveCounter(CountersAfter(hits[..i]), h.key, h.now);
    h.limit > 0 && b.Some? && c.Some? && b.value.count < h.limit <= c.value.count
  }

  /**
    Over every timed sequence of hits, with whatever limits, memory and Valkey answer a hit alike, the
    wait included, if and only if its limit does not lie between their counts: Valkey has counted the
    hits that were denied in the window, memory has not.
   */
  lemma BackendsAgreeIff(hits: seq<HitEvent>, i: nat)
    requires Timed(hits) && WholeWindows(hits) && i < |hits|
    ensures ValkeyAnswerTo(hits, i) == AnswerTo(hits, i) <==> !LimitBetween(hits, i)
  {
    AlwaysInStep(hits[..i], hits[i].key, hits[i].now);
  }

  /** Limits of a key are not raised during the run. */
  predicate NeverRaised(hits: seq<HitEvent>) {
    forall i, j :: 0 <= i < j < |hits| && hits[i].key == hits[j].key ==> hits[j].limit <= hits[i].limit
  }

  /** A limit can only lie between the counts when it is above one that an earlier hit of the key had. */
  lemma BetweenMeansRaised(hits: seq<HitEvent>, i: nat)
    requires Timed(hits) && WholeWindows(hits) && i < |hits| && LimitBetween(hits, i)
    ensures exists j :: 0 <= j < i && hits[j].key == hits[i].key && hits[j].limit < hits[i].limit
  {
    AlwaysInStep(hits[..i], hits[i].key, hits[i].now);
    var count := After(hits[..i])[hits[i].key].count;
    var j :| 0 <= j < |hits[..i]| && hits[..i][j].key == hits[i].key && hits[..i][j].limit <= count;
    assert hits[..i][j] == hits[j];
  }

  /** While no limit is raised, the two give the same answer to every hit. */
  lemma BackendsAgree(hits: seq<HitEvent>, i: nat)
    requires Timed(hits) && WholeWindows(hits) && NeverRaised(hits) && i < |hits|
    ensures ValkeyAnswerTo(hits, i) == AnswerTo(hits, i)
  {
    BackendsAgreeIff(hits, i);
    if LimitBetween(hits, i) {
      BetweenMeansRaised(hits, i);
    }
  }

  /** A denied hit, then a limit raised within the window: memory lets the next hit through, Valkey does not. */
  lemma RaisedLimitSeparates(key: string)
    ensures var hits := [HitEvent(key, 1, 1000, 0), HitEvent(key, 1, 1000, 1), HitEvent(key, 2, 1000, 2)];
            && Timed(hits) && WholeWindows(hits) && LimitBetween(hits, 2)
            && AnswerTo(hits, 2).0 && !ValkeyAnswerTo(hits, 2).0
  {
    var h0, h1, h2 := HitEvent(key, 1, 1000, 0), HitEvent(key, 1, 1000, 1), HitEvent(key, 2, 1000, 2);
    var hits := [h0, h1, h2];
    assert hits[..2] == [h0, h1] && [h0, h1][..1] == [h0] && [h0][..0] == [];
    assert After([h0])[key] == Bucket(1, 1000);
    assert After([h0, h1]) == After([h0]);
    assert CountersAfter([h0])[key] == Counter(1, Some(1000));
    assert CountersAfter([h0, h1])[key] == Counter(2, Some(1000));
    BackendsAgreeIff(hits, 2);
  }
}
