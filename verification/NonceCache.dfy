/** The nonce cache shared by `VerifyWithBodyHash` and `VerifyProofOfPossession`
    (`pkg/auth/ed25519.go`, `pkg/auth/registration.go`), on values and over whole runs.
    Times are nanoseconds on one clock. */
module NonceCache {
  import opened Text

  const SECOND: int := 1_000_000_000
  const MAX_NONCE_CACHE_SIZE: nat := 250000
  const DEFAULT_MAX_CLOCK_SKEW: int := 30 * SECOND
  const DEFAULT_NONCE_TTL: int := 60 * SECOND

  // ---------- the cache ----------

  datatype Entry = Entry(nonce: string, addedAt: int)

  datatype Cache = Cache(seen: map<string, int>, order: seq<Entry>, lastCleanup: int)

  function EmptyCache(created: int): Cache { Cache(map[], [], created) }

  /** Drops the oldest entry from the queue and its nonce from the map. */
  function DropOldest(c: Cache): Cache
    requires c.order != []
  {
    c.(seen := c.seen - {c.order[0].nonce}, order := c.order[1..])
  }

  /** Drops entries from the head while they were not added after `cutoff`. */
  function Prune(c: Cache, cutoff: int): Cache
    decreases |c.order|
  {
    if c.order != [] && c.order[0].addedAt <= cutoff then Prune(DropOldest(c), cutoff) else c
  }

  function SweepNow(c: Cache, ttl: int, now: int): Cache {
    Prune(c, now - ttl).(lastCleanup := now)
  }

  /** The sweep, at most once a second. */
  function Sweep(c: Cache, ttl: int, now: int): Cache {
    if now - c.lastCleanup >= SECOND then SweepNow(c, ttl, now) else c
  }

  /** Drops entries from the head while the map is full. */
  function Evict(c: Cache, maxCap: nat): Cache
    decreases |c.order|
  {
    if |c.seen| >= maxCap && c.order != [] then Evict(DropOldest(c), maxCap) else c
  }

  function Insert(c: Cache, nonce: string, now: int): Cache {
    c.(seen := c.seen[nonce := now], order := c.order + [Entry(nonce, now)])
  }

  datatype Verdict = Verdict(cache: Cache, accepted: bool)

  /** The locked region: sweep, refuse a known nonce, evict, record. */
  function Admit(c: Cache, ttl: int, maxCap: nat, now: int, nonce: string): Verdict {
    var s := Sweep(c, ttl, now);
    if nonce in s.seen then Verdict(s, false)
    else Verdict(Insert(Evict(s, maxCap), nonce, now), true)
  }

  // ---------- map and queue agree ----------

  /** Distinct nonces; the map holds just the queued nonces, each with its time. */
  ghost predicate Consistent(c: Cache) {
    match c
    case Cache(seen, order, _) =>
      && (forall i, j :: 0 <= i < j < |order| ==> order[i].nonce != order[j].nonce)
      && (forall i :: 0 <= i < |order| ==> order[i].nonce in seen && seen[order[i].nonce] == order[i].addedAt)
      && (forall n :: n in seen ==> Queued(order, n))
      && |seen| == |order|
  }

  /** Whenever the last sweep was. */
  ghost predicate Agrees(c: Cache) { Consistent(Cache(c.seen, c.order, 0)) }

  ghost predicate Queued(order: seq<Entry>, nonce: string) {
    exists i :: 0 <= i < |order| && order[i].nonce == nonce
  }

  lemma DropOldestAgrees(c: Cache)
    requires Agrees(c) && c.order != []
    ensures Agrees(DropOldest(c))
  {
    var d := DropOldest(c);
    assert forall i :: 0 <= i < |d.order| ==> d.order[i] == c.order[i + 1];
    forall n | n in d.seen
      ensures Queued(d.order, n)
    {
      var i :| 0 <= i < |c.order| && c.order[i].nonce == n;
      assert d.order[i - 1].nonce == n;
    }
    var oldest := c.order[0].nonce;
    assert d.seen.Keys == c.seen.Keys - {oldest};
    assert |c.seen.Keys - {oldest}| == |c.seen.Keys| - 1;
  }

  /** `d` is the end of `c`. */
  predicate IsTail(c: seq<Entry>, d: seq<Entry>) {
    |d| <= |c| && d == c[|c| - |d|..]
  }

  lemma TailOfTail(c: seq<Entry>, d: seq<Entry>)
    requires c != [] && IsTail(c[1..], d)
    ensures IsTail(c, d)
  {
    assert c[1..][|c| - 1 - |d|..] == c[|c| - |d|..];
  }

  lemma TailIndex(c: seq<Entry>, d: seq<Entry>)
    requires IsTail(c, d)
    ensures forall i :: 0 <= i < |d| ==> d[i] == c[|c| - |d| + i]
  {
  }

  predicate Expired(order: seq<Entry>, k: int, cutoff: int) {
    forall i :: 0 <= i < k && i < |order| ==> order[i].addedAt <= cutoff
  }

  lemma ExpiredCons(order: seq<Entry>, k: int, cutoff: int)
    requires order != [] && order[0].addedAt <= cutoff && Expired(order[1..], k - 1, cutoff)
    ensures Expired(order, k, cutoff)
  {
    forall i | 0 <= i < k && i < |order|
      ensures order[i].addedAt <= cutoff
    {
      if i > 0 { assert order[i] == order[1..][i - 1]; }
    }
  }

  /** `rest` is `order` without a head segment of expired entries; its own first has not expired. */
  predicate PrunedTo(order: seq<Entry>, rest: seq<Entry>, cutoff: int) {
    && IsTail(order, rest) && Expired(order, |order| - |rest|, cutoff)
    && (rest != [] ==> rest[0].addedAt > cutoff)
  }

  /** A sweep removes a head segment of expired entries and stops at one that is not. */
  lemma {:induction false} SweepPrunes(c: Cache, ttl: int, now: int)
    requires Agrees(c)
    ensures Agrees(SweepNow(c, ttl, now)) && PrunedTo(c.order, SweepNow(c, ttl, now).order, now - ttl)
    decreases |c.order|
  {
    if c.order != [] && c.order[0].addedAt <= now - ttl {
      DropOldestAgrees(c);
      SweepPrunes(DropOldest(c), ttl, now);
      var d := SweepNow(c, ttl, now);
      assert d == SweepNow(DropOldest(c), ttl, now);
      TailOfTail(c.order, d.order);
      ExpiredCons(c.order, |c.order| - |d.order|, now - ttl);
    }
  }

  /** Eviction removes just enough from the head to leave room for one. */
  lemma {:induction false} EvictDrops(c: Cache, maxCap: nat)
    requires Agrees(c) && maxCap > 0
    ensures var d := Evict(c, maxCap);
            && Agrees(d) && d.lastCleanup == c.lastCleanup && IsTail(c.order, d.order)
            && |d.order| == (if |c.order| < maxCap then |c.order| else maxCap - 1)
    decreases |c.order|
  {
    if |c.seen| >= maxCap && c.order != [] {
      DropOldestAgrees(c);
      EvictDrops(DropOldest(c), maxCap);
      var d := Evict(c, maxCap);
      assert d == Evict(DropOldest(c), maxCap);
      TailOfTail(c.order, d.order);
    }
  }

  lemma InsertAgrees(c: Cache, nonce: string, now: int)
    requires Agrees(c) && nonce !in c.seen
    ensures Agrees(Insert(c, nonce, now))
  {
    var d := Insert(c, nonce, now);
    assert forall i :: 0 <= i < |c.order| ==> d.order[i] == c.order[i];
    assert d.order[|c.order|] == Entry(nonce, now);
    forall n | n in d.seen
      ensures Queued(d.order, n)
    {
      if n == nonce {
        assert d.order[|c.order|].nonce == n;
      } else {
        assert Queued(c.order, n);
        var i :| 0 <= i < |c.order| && c.order[i].nonce == n;
        assert d.order[i].nonce == n;
      }
    }
  }

  // ---------- freshness, in 64-bit arithmetic ----------

  const MIN_INT64: int := -0x8000_0000_0000_0000
  const MAX_INT64: int := 0x7FFF_FFFF_FFFF_FFFF
  /** Seconds from year 1 to 1970: what `time.Unix` adds. */
  const UNIX_TO_INTERNAL: int := 62135596800

  predicate IsInt64(n: int) { MIN_INT64 <= n <= MAX_INT64 }

  function Wrap64(n: int): (r: int)
    ensures IsInt64(r)
  {
    (n - MIN_INT64) % 0x1_0000_0000_0000_0000 + MIN_INT64
  }

  /** `time.Unix(ts, 0)` in nanoseconds. */
  function RequestTime(ts: int): int {
    (Wrap64(ts + UNIX_TO_INTERNAL) - UNIX_TO_INTERNAL) * SECOND
  }

  /** `Time.Sub` saturates. */
  function SubSaturated(t: int, u: int): (d: int)
    ensures IsInt64(d)
  {
    if t - u > MAX_INT64 then MAX_INT64 else if t - u < MIN_INT64 then MIN_INT64 else t - u
  }

  /** The skew test: the difference, its sign flipped when negative, against the limit. */
  predicate Fresh(now: int, ts: int, skew: int) {
    var diff := SubSaturated(now, RequestTime(ts));
    var distance := if diff < 0 then Wrap64(-diff) else diff;
    distance <= skew
  }

  predicate Near(now: int, time: int, skew: int) { -skew <= now - time <= skew }

  /** A timestamp passes exactly when it is within the skew, or 2^63 ns or more ahead, where the
      saturated difference has no positive counterpart. */
  lemma FreshExactly(now: int, ts: int, skew: int)
    requires 0 < skew < MAX_INT64
    ensures Fresh(now, ts, skew) <==> Near(now, RequestTime(ts), skew) || now - RequestTime(ts) <= MIN_INT64
    ensures IsInt64(ts + UNIX_TO_INTERNAL) ==> RequestTime(ts) == ts * SECOND
  {
  }

  /** In the year 2024, a timestamp in the year 2318 passes. */
  lemma FarFutureIsFresh()
    ensures Fresh(1_710_000_000 * SECOND, 11_000_000_000, DEFAULT_MAX_CLOCK_SKEW)
    ensures !Near(1_710_000_000 * SECOND, 11_000_000_000 * SECOND, DEFAULT_MAX_CLOCK_SKEW)
  {
    FreshExactly(1_710_000_000 * SECOND, 11_000_000_000, DEFAULT_MAX_CLOCK_SKEW);
  }

  // ---------- whole runs ----------

  /** One request of either verifier: its arrival, nonce and timestamp, and whether all the checks other
      than freshness let it through to the nonce stage. */
  datatype Attempt = Attempt(now: int, nonce: string, ts: int, signed: bool)

  datatype Limits = Limits(skew: int, ttl: int, maxCap: nat) {
    predicate Valid() {
      0 < skew < MAX_INT64 && 0 < ttl <= MAX_INT64 && 0 < maxCap
    }
  }

  const DEFAULTS := Limits(DEFAULT_MAX_CLOCK_SKEW, DEFAULT_NONCE_TTL, MAX_NONCE_CACHE_SIZE)

  function Step(lim: Limits, c: Cache, a: Attempt): Verdict {
    if a.signed && Fresh(a.now, a.ts, lim.skew) then Admit(c, lim.ttl, lim.maxCap, a.now, a.nonce)
    else Verdict(c, false)
  }

  /** One acceptance. */
  datatype Accepted = Accepted(nonce: string, ts: int, at: int)

  datatype Trail = Trail(cache: Cache, log: seq<Accepted>)

  function Extend(lim: Limits, t: Trail, a: Attempt): Trail {
    var v := Step(lim, t.cache, a);
    Trail(v.cache, if v.accepted then t.log + [Accepted(a.nonce, a.ts, a.now)] else t.log)
  }

  /** The cache and the acceptance log after all attempts, from a verifier made at `created`. */
  function Run(lim: Limits, created: int, attempts: seq<Attempt>): Trail {
    if attempts == [] then Trail(EmptyCache(created), [])
    else Extend(lim, Run(lim, created, attempts[..|attempts| - 1]), attempts[|attempts| - 1])
  }

  /** The attempt is recorded, and the swept cache is full. */
  predicate Evicts(lim: Limits, c: Cache, a: Attempt) {
    var s := Sweep(c, lim.ttl, a.now);
    a.signed && Fresh(a.now, a.ts, lim.skew) && a.nonce !in s.seen && |s.seen| >= lim.maxCap
  }

  /** No step of the run evicts anything. */
  predicate NoEviction(lim: Limits, created: int, attempts: seq<Attempt>) {
    if attempts == [] then true
    else
      var init := attempts[..|attempts| - 1];
      NoEviction(lim, created, init) && !Evicts(lim, Run(lim, created, init).cache, attempts[|attempts| - 1])
  }

  function EntryOf(a: Accepted): Entry { Entry(a.nonce, a.at) }

  /** How many acceptances are no longer queued. */
  function Gone(t: Trail): int { |t.log| - |t.cache.order| }

  /** The queue is the end of the acceptance log. */
  ghost predicate QueueIsSuffix(t: Trail) {
    && 0 <= Gone(t)
    && forall i :: 0 <= i < |t.cache.order| ==> t.cache.order[i] == EntryOf(t.log[Gone(t) + i])
  }

  /** Acceptances are gone only because they expired before the last sweep, or, where eviction may happen,
      because more than `maxCap` acceptances, themselves included, are in the log from them on. */
  ghost predicate GoneForCause(lim: Limits, t: Trail, mayEvict: bool) {
    forall i :: 0 <= i < Gone(t) && i < |t.log| ==>
      t.log[i].at + lim.ttl <= t.cache.lastCleanup || (mayEvict && |t.log| - i > lim.maxCap)
  }

  ghost predicate Invariant(lim: Limits, t: Trail, mayEvict: bool) {
    && Agrees(t.cache)
    && |t.cache.order| <= lim.maxCap
    && QueueIsSuffix(t) && GoneForCause(lim, t, mayEvict)
  }

  lemma SuffixAfterDrop(t: Trail, d: Cache)
    requires QueueIsSuffix(t) && IsTail(t.cache.order, d.order)
    ensures QueueIsSuffix(t.(cache := d))
  {
    TailIndex(t.cache.order, d.order);
    var u, k := t.(cache := d), |t.cache.order| - |d.order|;
    forall i | 0 <= i < |d.order|
      ensures d.order[i] == EntryOf(u.log[Gone(u) + i])
    {
      assert t.cache.order[k + i] == EntryOf(t.log[Gone(t) + (k + i)]);
    }
  }

  lemma GoneAfterSweep(lim: Limits, t: Trail, d: Cache, now: int, mayEvict: bool)
    requires QueueIsSuffix(t) && GoneForCause(lim, t, mayEvict) && t.cache.lastCleanup <= now
    requires IsTail(t.cache.order, d.order) && d.lastCleanup == now
    requires Expired(t.cache.order, |t.cache.order| - |d.order|, now - lim.ttl)
    ensures GoneForCause(lim, t.(cache := d), mayEvict)
  {
    var u := t.(cache := d);
    forall i | 0 <= i < Gone(u) && i < |u.log|
      ensures u.log[i].at + lim.ttl <= d.lastCleanup || (mayEvict && |u.log| - i > lim.maxCap)
    {
      if i >= Gone(t) {
        var j := i - Gone(t);
        assert t.cache.order[j] == EntryOf(t.log[Gone(t) + j]);
      }
    }
  }

  lemma SweepAgrees(c: Cache, ttl: int, now: int)
    requires Agrees(c)
    ensures Agrees(Sweep(c, ttl, now))
  {
    SweepPrunes(c, ttl, now);
  }

  /** A sweep keeps everything, and what it removes has expired. */
  lemma SweepKeeps(lim: Limits, t: Trail, now: int, mayEvict: bool)
    requires lim.Valid() && Invariant(lim, t, mayEvict)
    ensures Invariant(lim, t.(cache := Sweep(t.cache, lim.ttl, now)), mayEvict)
  {
    if now - t.cache.lastCleanup >= SECOND {
      var d := SweepNow(t.cache, lim.ttl, now);
      SweepPrunes(t.cache, lim.ttl, now);
      SuffixAfterDrop(t, d);
      GoneAfterSweep(lim, t, d, now, mayEvict);
    }
  }

  lemma SuffixAfterRecord(t: Trail, d: Cache, a: Accepted)
    requires QueueIsSuffix(t) && IsTail(t.cache.order, d.order)
    ensures QueueIsSuffix(Trail(Insert(d, a.nonce, a.at), t.log + [a]))
  {
    SuffixAfterDrop(t, d);
    var s, u := t.(cache := d), Trail(Insert(d, a.nonce, a.at), t.log + [a]);
    assert Gone(u) == Gone(s);
    forall i | 0 <= i < |u.cache.order|
      ensures u.cache.order[i] == EntryOf(u.log[Gone(u) + i])
    {
      if i < |d.order| { assert d.order[i] == EntryOf(s.log[Gone(s) + i]); }
    }
  }

  lemma GoneAfterRecord(lim: Limits, t: Trail, d: Cache, a: Accepted, mayEvict: bool)
    requires QueueIsSuffix(t) && GoneForCause(lim, t, mayEvict) && |t.cache.order| <= lim.maxCap
    requires IsTail(t.cache.order, d.order) && d.lastCleanup == t.cache.lastCleanup
    requires |d.order| == if |t.cache.order| < lim.maxCap then |t.cache.order| else lim.maxCap - 1
    requires mayEvict || |t.cache.order| < lim.maxCap
    ensures GoneForCause(lim, Trail(Insert(d, a.nonce, a.at), t.log + [a]), mayEvict)
  {
    var u := Trail(Insert(d, a.nonce, a.at), t.log + [a]);
    forall i | 0 <= i < Gone(u) && i < |u.log|
      ensures u.log[i].at + lim.ttl <= u.cache.lastCleanup || (mayEvict && |u.log| - i > lim.maxCap)
    {
      if i < Gone(t) { assert u.log[i] == t.log[i]; }
    }
  }

  lemma StillQueued(t: Trail, i: nat)
    requires QueueIsSuffix(t) && Agrees(t.cache) && i < |t.log|
    ensures Gone(t) <= i ==> t.log[i].nonce in t.cache.seen
  {
    if Gone(t) <= i { assert t.cache.order[i - Gone(t)] == EntryOf(t.log[Gone(t) + (i - Gone(t))]); }
  }

  lemma NotSeenAfterDrop(c: Cache, d: Cache, nonce: string)
    requires Agrees(c) && Agrees(d) && IsTail(c.order, d.order) && nonce !in c.seen
    ensures nonce !in d.seen
  {
    TailIndex(c.order, d.order);
  }

  lemma RecordAgrees(c: Cache, maxCap: nat, nonce: string, now: int)
    requires Agrees(c) && maxCap > 0 && nonce !in c.seen
    ensures Agrees(Insert(Evict(c, maxCap), nonce, now))
  {
    EvictDrops(c, maxCap);
    NotSeenAfterDrop(c, Evict(c, maxCap), nonce);
    InsertAgrees(Evict(c, maxCap), nonce, now);
  }

  /** Recording a nonce that is not in the map. */
  lemma RecordKeeps(lim: Limits, t: Trail, a: Accepted, mayEvict: bool)
    requires lim.Valid() && Invariant(lim, t, mayEvict) && a.nonce !in t.cache.seen
    requires mayEvict || |t.cache.seen| < lim.maxCap
    ensures var c := Insert(Evict(t.cache, lim.maxCap), a.nonce, a.at);
            Invariant(lim, Trail(c, t.log + [a]), mayEvict)
  {
    var d := Evict(t.cache, lim.maxCap);
    EvictDrops(t.cache, lim.maxCap);
    RecordAgrees(t.cache, lim.maxCap, a.nonce, a.at);
    SuffixAfterRecord(t, d, a);
    GoneAfterRecord(lim, t, d, a, mayEvict);
  }

  lemma ExtendKeeps(lim: Limits, t: Trail, a: Attempt, mayEvict: bool)
    requires lim.Valid() && Invariant(lim, t, mayEvict) && (mayEvict || !Evicts(lim, t.cache, a))
    ensures Invariant(lim, Extend(lim, t, a), mayEvict)
  {
    if a.signed && Fresh(a.now, a.ts, lim.skew) {
      var s := t.(cache := Sweep(t.cache, lim.ttl, a.now));
      SweepKeeps(lim, t, a.now, mayEvict);
      if a.nonce !in s.cache.seen { RecordKeeps(lim, s, Accepted(a.nonce, a.ts, a.now), mayEvict); }
    }
  }

  /** Over every run, whatever the clock readings and their order: map and queue agree, the queue is the end
      of the acceptance log and never longer than the limit, and whatever left it left for cause; in a run
      without eviction, because it had expired. */
  lemma {:induction false} RunKeeps(lim: Limits, created: int, attempts: seq<Attempt>, mayEvict: bool)
    requires lim.Valid() && (mayEvict || NoEviction(lim, created, attempts))
    ensures Invariant(lim, Run(lim, created, attempts), mayEvict)
  {
    if attempts != [] {
      var n := |attempts| - 1;
      RunKeeps(lim, created, attempts[..n], mayEvict);
      ExtendKeeps(lim, Run(lim, created, attempts[..n]), attempts[n], mayEvict);
    }
  }

  // ---------- clock readings ----------

  /** The clock is read before the lock is taken, so readings may reach the cache out of order: by at most `d`
      after a later one. */
  predicate LateBy(created: int, attempts: seq<Attempt>, d: int) {
    && 0 <= d
    && (forall i :: 0 <= i < |attempts| ==> created - attempts[i].now <= d)
    && (forall i, j :: 0 <= i < j < |attempts| ==> attempts[i].now - attempts[j].now <= d)
  }

  lemma LateByInit(created: int, attempts: seq<Attempt>, d: int)
    requires attempts != [] && LateBy(created, attempts, d)
    ensures LateBy(created, attempts[..|attempts| - 1], d)
    ensures var x := attempts[|attempts| - 1].now + d;
            created <= x && NoneAfter(attempts[..|attempts| - 1], x)
  {
  }

  predicate NoneAfter(attempts: seq<Attempt>, x: int) {
    forall i :: 0 <= i < |attempts| ==> attempts[i].now <= x
  }

  predicate LoggedBy(log: seq<Accepted>, x: int) {
    forall i :: 0 <= i < |log| ==> log[i].at <= x
  }

  /** The last sweep and all acceptances carry readings of the run. */
  lemma {:induction false} ReadingsBound(lim: Limits, created: int, attempts: seq<Attempt>, x: int)
    requires created <= x && NoneAfter(attempts, x)
    ensures Run(lim, created, attempts).cache.lastCleanup <= x
    ensures LoggedBy(Run(lim, created, attempts).log, x)
  {
    if attempts != [] {
      var n := |attempts| - 1;
      ReadingsBound(lim, created, attempts[..n], x);
      CleanupIsReading(lim, Run(lim, created, attempts[..n]).cache, attempts[n]);
    }
  }

  lemma CleanupIsReading(lim: Limits, c: Cache, a: Attempt)
    ensures Step(lim, c, a).cache.lastCleanup in {c.lastCleanup, a.now}
    ensures Sweep(c, lim.ttl, a.now).lastCleanup in {c.lastCleanup, a.now}
  {
    EvictKeepsCleanup(Sweep(c, lim.ttl, a.now), lim.maxCap);
  }

  lemma {:induction false} EvictKeepsCleanup(c: Cache, maxCap: nat)
    ensures Evict(c, maxCap).lastCleanup == c.lastCleanup
    decreases |c.order|
  {
    if |c.seen| >= maxCap && c.order != [] { EvictKeepsCleanup(DropOldest(c), maxCap); }
  }

  // ---------- how far apart acceptances of one nonce are ----------

  /** Two acceptances of one nonce are `gap` apart, or, where eviction may happen, more than `maxCap`
      acceptances apart. */
  ghost predicate Apart(lim: Limits, log: seq<Accepted>, gap: int, mayEvict: bool) {
    forall i, j :: 0 <= i < j < |log| && log[i].nonce == log[j].nonce ==>
      log[j].at - log[i].at >= gap || (mayEvict && j - i > lim.maxCap)
  }

  /** The new acceptance is far from every earlier one of the same nonce: those are gone for cause. */
  lemma RecordedApart(lim: Limits, t: Trail, a: Accepted, d: int, mayEvict: bool)
    requires Invariant(lim, t, mayEvict) && Apart(lim, t.log, lim.ttl - d, mayEvict)
    requires t.cache.lastCleanup <= a.at + d && a.nonce !in t.cache.seen
    ensures Apart(lim, t.log + [a], lim.ttl - d, mayEvict)
  {
    var log := t.log + [a];
    forall i, j | 0 <= i < j < |log| && log[i].nonce == log[j].nonce
      ensures log[j].at - log[i].at >= lim.ttl - d || (mayEvict && j - i > lim.maxCap)
    {
      if j == |t.log| { StillQueued(t, i); }
    }
  }

  lemma ExtendApart(lim: Limits, t: Trail, a: Attempt, d: int, mayEvict: bool)
    requires lim.Valid() && Invariant(lim, t, mayEvict) && Apart(lim, t.log, lim.ttl - d, mayEvict)
    requires 0 <= d && t.cache.lastCleanup <= a.now + d
    ensures Apart(lim, Extend(lim, t, a).log, lim.ttl - d, mayEvict)
  {
    if a.signed && Fresh(a.now, a.ts, lim.skew) {
      var s := t.(cache := Sweep(t.cache, lim.ttl, a.now));
      SweepKeeps(lim, t, a.now, mayEvict);
      CleanupIsReading(lim, t.cache, a);
      if a.nonce !in s.cache.seen { RecordedApart(lim, s, Accepted(a.nonce, a.ts, a.now), d, mayEvict); }
    }
  }

  /** Over every run with readings late by at most `d`, acceptances of one nonce are the time to live less `d`
      apart, or more than `maxCap` acceptances apart; in a run without eviction, always the former. */
  lemma {:induction false} RunApart(lim: Limits, created: int, attempts: seq<Attempt>, d: int, mayEvict: bool)
    requires lim.Valid() && LateBy(created, attempts, d) && (mayEvict || NoEviction(lim, created, attempts))
    ensures Apart(lim, Run(lim, created, attempts).log, lim.ttl - d, mayEvict)
  {
    if attempts != [] {
      var n := |attempts| - 1;
      var t := Run(lim, created, attempts[..n]);
      LateByInit(created, attempts, d);
      RunApart(lim, created, attempts[..n], d, mayEvict);
      RunKeeps(lim, created, attempts[..n], mayEvict);
      ReadingsBound(lim, created, attempts[..n], attempts[n].now + d);
      ExtendApart(lim, t, attempts[n], d, mayEvict);
    }
  }

  // ---------- when a nonce is refused, and when it is not ----------

  lemma AcceptedIsFar(lim: Limits, t: Trail, a: Attempt, gap: int, mayEvict: bool, i: nat)
    requires Apart(lim, Extend(lim, t, a).log, gap, mayEvict) && i < |t.log| && t.log[i].nonce == a.nonce
    ensures Step(lim, t.cache, a).accepted ==>
              a.now - t.log[i].at >= gap || (mayEvict && |t.log| - i > lim.maxCap)
  {
    if Step(lim, t.cache, a).accepted {
      var log := Extend(lim, t, a).log;
      assert log[i] == t.log[i] && log[|t.log|] == Accepted(a.nonce, a.ts, a.now);
    }
  }

  /** A nonce accepted less than `ttl - d` ago, and within the last `maxCap` acceptances or in a run without
      eviction, is refused. */
  lemma RecentNonceRefused(lim: Limits, created: int, attempts: seq<Attempt>, a: Attempt, i: nat, d: int)
    requires lim.Valid() && LateBy(created, attempts + [a], d)
    requires var log := Run(lim, created, attempts).log;
             && i < |log| && log[i].nonce == a.nonce && a.now - log[i].at < lim.ttl - d
             && (|log| - i <= lim.maxCap || NoEviction(lim, created, attempts))
    ensures !Step(lim, Run(lim, created, attempts).cache, a).accepted
  {
    var t, mayEvict := Run(lim, created, attempts), !NoEviction(lim, created, attempts);
    LateByInit(created, attempts + [a], d);
    assert (attempts + [a])[..|attempts|] == attempts;
    RunKeeps(lim, created, attempts, mayEvict);
    RunApart(lim, created, attempts, d, mayEvict);
    ReadingsBound(lim, created, attempts, a.now + d);
    ExtendApart(lim, t, a, d, mayEvict);
    AcceptedIsFar(lim, t, a, lim.ttl - d, mayEvict, i);
  }

  /** What is queued was accepted after the last sweep's cutoff, less `d`. */
  ghost predicate Recent(lim: Limits, t: Trail, d: int) {
    && (forall i, j :: 0 <= i < j < |t.log| ==> t.log[i].at - t.log[j].at <= d)
    && (forall i :: 0 <= i < |t.cache.order| ==> t.cache.order[i].addedAt > t.cache.lastCleanup - lim.ttl - d)
  }

  lemma RecentFromHead(lim: Limits, t: Trail, d: int)
    requires QueueIsSuffix(t) && d >= 0
    requires forall i, j :: 0 <= i < j < |t.log| ==> t.log[i].at - t.log[j].at <= d
    requires t.cache.order != [] ==> t.cache.order[0].addedAt > t.cache.lastCleanup - lim.ttl
    ensures Recent(lim, t, d)
  {
    forall i | 0 <= i < |t.cache.order|
      ensures t.cache.order[i].addedAt > t.cache.lastCleanup - lim.ttl - d
    {
      assert t.cache.order[i] == EntryOf(t.log[Gone(t) + i]) && t.cache.order[0] == EntryOf(t.log[Gone(t) + 0]);
    }
  }

  lemma RecentAfterSweep(lim: Limits, t: Trail, now: int, d: int)
    requires lim.Valid() && Invariant(lim, t, true) && Recent(lim, t, d) && d >= 0
    ensures Recent(lim, t.(cache := Sweep(t.cache, lim.ttl, now)), d)
  {
    if now - t.cache.lastCleanup >= SECOND {
      var s := SweepNow(t.cache, lim.ttl, now);
      SweepPrunes(t.cache, lim.ttl, now);
      SuffixAfterDrop(t, s);
      RecentFromHead(lim, t.(cache := s), d);
    }
  }

  lemma RecentAfterInsert(lim: Limits, t: Trail, e: Cache, a: Accepted, d: int)
    requires lim.Valid() && Recent(lim, t, d)
    requires IsTail(t.cache.order, e.order) && e.lastCleanup == t.cache.lastCleanup
    requires t.cache.lastCleanup <= a.at + d && LoggedBy(t.log, a.at + d)
    ensures Recent(lim, Trail(Insert(e, a.nonce, a.at), t.log + [a]), d)
  {
    TailIndex(t.cache.order, e.order);
    var u := Trail(Insert(e, a.nonce, a.at), t.log + [a]);
    forall i | 0 <= i < |u.cache.order|
      ensures u.cache.order[i].addedAt > u.cache.lastCleanup - lim.ttl - d
    {
      if i < |e.order| { assert u.cache.order[i] == t.cache.order[|t.cache.order| - |e.order| + i]; }
    }
  }

  lemma RecentAfterRecord(lim: Limits, t: Trail, a: Accepted, d: int)
    requires lim.Valid() && Invariant(lim, t, true) && Recent(lim, t, d)
    requires t.cache.lastCleanup <= a.at + d && LoggedBy(t.log, a.at + d)
    ensures Recent(lim, Trail(Insert(Evict(t.cache, lim.maxCap), a.nonce, a.at), t.log + [a]), d)
  {
    EvictDrops(t.cache, lim.maxCap);
    RecentAfterInsert(lim, t, Evict(t.cache, lim.maxCap), a, d);
  }

  lemma {:induction false} RunRecent(lim: Limits, created: int, attempts: seq<Attempt>, d: int)
    requires lim.Valid() && LateBy(created, attempts, d)
    ensures Recent(lim, Run(lim, created, attempts), d)
  {
    if attempts != [] {
      var n := |attempts| - 1;
      var t, a := Run(lim, created, attempts[..n]), attempts[n];
      LateByInit(created, attempts, d);
      RunRecent(lim, created, attempts[..n], d);
      RunKeeps(lim, created, attempts[..n], true);
      ReadingsBound(lim, created, attempts[..n], a.now + d);
      ExtendRecent(lim, t, a, d);
    }
  }

  lemma ExtendRecent(lim: Limits, t: Trail, a: Attempt, d: int)
    requires lim.Valid() && Invariant(lim, t, true) && Recent(lim, t, d) && d >= 0
    requires t.cache.lastCleanup <= a.now + d && LoggedBy(t.log, a.now + d)
    ensures Recent(lim, Extend(lim, t, a), d)
  {
    if a.signed && Fresh(a.now, a.ts, lim.skew) {
      var s := t.(cache := Sweep(t.cache, lim.ttl, a.now));
      SweepKeeps(lim, t, a.now, true);
      RecentAfterSweep(lim, t, a.now, d);
      CleanupIsReading(lim, t.cache, a);
      if a.nonce !in s.cache.seen { RecentAfterRecord(lim, s, Accepted(a.nonce, a.ts, a.now), d); }
    }
  }

  ghost predicate LongGone(lim: Limits, log: seq<Accepted>, nonce: string, now: int, d: int) {
    forall i :: 0 <= i < |log| && log[i].nonce == nonce ==> now - log[i].at >= lim.ttl + SECOND + d
  }

  /** A fresh signed request is accepted once every acceptance of its nonce is `ttl`, one sweep period and `d`
      old. */
  lemma OldNonceAccepted(lim: Limits, created: int, attempts: seq<Attempt>, a: Attempt, d: int)
    requires lim.Valid() && LateBy(created, attempts, d)
    requires a.signed && Fresh(a.now, a.ts, lim.skew)
    requires LongGone(lim, Run(lim, created, attempts).log, a.nonce, a.now, d)
    ensures Step(lim, Run(lim, created, attempts).cache, a).accepted
  {
    var t := Run(lim, created, attempts);
    RunKeeps(lim, created, attempts, true);
    RunRecent(lim, created, attempts, d);
    SweepKeeps(lim, t, a.now, true);
    RecentAfterSweep(lim, t, a.now, d);
    NotQueuedWhenLongGone(lim, t.(cache := Sweep(t.cache, lim.ttl, a.now)), a.nonce, a.now, d);
  }

  /** A nonce is in the map only if one of the acceptances still queued used it. */
  lemma SeenIsLogged(lim: Limits, t: Trail, nonce: string)
    requires Invariant(lim, t, true)
    requires forall i :: 0 <= i < |t.log| && Gone(t) <= i ==> t.log[i].nonce != nonce
    ensures nonce !in t.cache.seen
  {
    forall i | 0 <= i < |t.cache.order|
      ensures t.cache.order[i].nonce != nonce
    {
      assert t.cache.order[i] == EntryOf(t.log[Gone(t) + i]);
    }
    assert !Queued(t.cache.order, nonce);
  }

  lemma NotQueuedWhenLongGone(lim: Limits, t: Trail, nonce: string, now: int, d: int)
    requires Invariant(lim, t, true) && Recent(lim, t, d) && LongGone(lim, t.log, nonce, now, d)
    requires now - t.cache.lastCleanup < SECOND
    ensures nonce !in t.cache.seen
  {
    forall i | 0 <= i < |t.log| && Gone(t) <= i
      ensures t.log[i].nonce != nonce
    {
      assert t.cache.order[i - Gone(t)] == EntryOf(t.log[Gone(t) + (i - Gone(t))]);
    }
    SeenIsLogged(lim, t, nonce);
  }

  // ---------- the bound of eviction is tight ----------

  function Numbered(now: int, ts: int, k: nat): Attempt { Attempt(now, Dec(k), ts, true) }

  /** `n` different nonces at one instant. */
  function Flood(now: int, ts: int, n: nat): seq<Attempt> {
    seq(n, k requires 0 <= k => Numbered(now, ts, k))
  }

  function AcceptedAs(a: Attempt): Accepted { Accepted(a.nonce, a.ts, a.now) }

  /** All were accepted, and no sweep ran. */
  ghost predicate FloodLogged(t: Trail, now: int, ts: int, n: nat) {
    && |t.log| == n && t.cache.lastCleanup == now
    && forall k :: 0 <= k < n ==> t.log[k] == AcceptedAs(Numbered(now, ts, k))
  }

  /** Number `k` is accepted when it was never used, or has been evicted. */
  lemma NumberAccepted(lim: Limits, t: Trail, now: int, ts: int, n: nat, k: nat)
    requires lim.Valid() && Fresh(now, ts, lim.skew)
    requires Invariant(lim, t, true) && FloodLogged(t, now, ts, n) && (k == n || k < Gone(t))
    ensures var u := Extend(lim, t, Numbered(now, ts, k));
            u.log == t.log + [AcceptedAs(Numbered(now, ts, k))] && u.cache.lastCleanup == now
  {
    forall i | 0 <= i < |t.log| && Gone(t) <= i
      ensures t.log[i].nonce != Dec(k)
    {
      assert t.log[i].nonce == Dec(i);
      DecValueOfDec(i);
      DecValueOfDec(k);
    }
    SeenIsLogged(lim, t, Dec(k));
    CleanupIsReading(lim, t.cache, Numbered(now, ts, k));
  }

  lemma FloodSnoc(now: int, ts: int, n: nat)
    ensures Flood(now, ts, n + 1) == Flood(now, ts, n) + [Numbered(now, ts, n)]
  {
  }

  lemma FloodGrows(lim: Limits, t: Trail, now: int, ts: int, n: nat)
    requires lim.Valid() && Fresh(now, ts, lim.skew)
    requires Invariant(lim, t, true) && FloodLogged(t, now, ts, n)
    ensures FloodLogged(Extend(lim, t, Numbered(now, ts, n)), now, ts, n + 1)
  {
    hide Extend, Fresh, Invariant;
    NumberAccepted(lim, t, now, ts, n, n);
  }

  lemma {:induction false} FloodRuns(lim: Limits, now: int, ts: int, n: nat)
    requires lim.Valid() && Fresh(now, ts, lim.skew)
    ensures FloodLogged(Run(lim, now, Flood(now, ts, n)), now, ts, n)
  {
    if n > 0 {
      hide Run, Extend, Fresh, Invariant, NoEviction, Evicts, Flood, FloodLogged;
      var init := Flood(now, ts, n - 1);
      FloodRuns(lim, now, ts, n - 1);
      RunKeeps(lim, now, init, true);
      FloodGrows(lim, Run(lim, now, init), now, ts, n - 1);
      FloodSnoc(now, ts, n - 1);
      RunSnoc(lim, now, init, Numbered(now, ts, n - 1));
    }
  }

  lemma SomeGone(lim: Limits, t: Trail)
    requires Invariant(lim, t, true)
    ensures |t.log| > lim.maxCap ==> 0 < Gone(t)
  {
  }

  lemma FloodInOrder(now: int, ts: int, n: nat, k: nat)
    ensures LateBy(now, Flood(now, ts, n) + [Numbered(now, ts, k)], 0)
  {
  }

  /** With `maxCap` other nonces after it, a nonce evicted within its time to live is accepted again at the same
      instant: `RunApart` allows just this many acceptances in between. */
  lemma EvictionReplays(lim: Limits, now: int, ts: int)
    requires lim.Valid() && Fresh(now, ts, lim.skew)
    ensures var attempts := Flood(now, ts, lim.maxCap + 1) + [Numbered(now, ts, 0)];
            && LateBy(now, attempts, 0)
            && var log := Run(lim, now, attempts).log;
               |log| == lim.maxCap + 2 && log[0] == log[lim.maxCap + 1]
  {
    hide Run, Extend, Fresh, NoEviction, Evicts, Invariant, LateBy, Flood;
    var n := lim.maxCap + 1;
    var attempts := Flood(now, ts, n);
    var t := Run(lim, now, attempts);
    FloodRuns(lim, now, ts, n);
    RunKeeps(lim, now, attempts, true);
    SomeGone(lim, t);
    FloodInOrder(now, ts, n, 0);
    NumberAccepted(lim, t, now, ts, n, 0);
    RunSnoc(lim, now, attempts, Numbered(now, ts, 0));
  }

  // ---------- no replay ----------

  /** Some (nonce, timestamp) pair was accepted twice. */
  ghost predicate Replayed(log: seq<Accepted>) {
    exists i, j :: 0 <= i < j < |log| && log[i].nonce == log[j].nonce && log[i].ts == log[j].ts
  }

  /** The timestamp is 2^63 ns or more ahead of the clock, where the skew test passes by overflow. */
  predicate FarAhead(now: int, ts: int) { now - RequestTime(ts) <= MIN_INT64 }

  predicate NoneFarAhead(attempts: seq<Attempt>) {
    forall i :: 0 <= i < |attempts| ==> !FarAhead(attempts[i].now, attempts[i].ts)
  }

  predicate AllFresh(lim: Limits, log: seq<Accepted>) {
    forall i :: 0 <= i < |log| ==> Fresh(log[i].at, log[i].ts, lim.skew)
  }

  lemma {:induction false} AcceptedAreFresh(lim: Limits, created: int, attempts: seq<Attempt>)
    ensures AllFresh(lim, Run(lim, created, attempts).log)
  {
    if attempts != [] {
      AcceptedAreFresh(lim, created, attempts[..|attempts| - 1]);
    }
  }

  ghost predicate NearAhead(log: seq<Accepted>) {
    forall i :: 0 <= i < |log| ==> !FarAhead(log[i].at, log[i].ts)
  }

  lemma {:induction false} AcceptedAreNearAhead(lim: Limits, created: int, attempts: seq<Attempt>)
    requires NoneFarAhead(attempts)
    ensures NearAhead(Run(lim, created, attempts).log)
  {
    if attempts != [] {
      var n := |attempts| - 1;
      assert forall i :: 0 <= i < n ==> attempts[..n][i] == attempts[i];
      AcceptedAreNearAhead(lim, created, attempts[..n]);
    }
  }

  /** With no capacity eviction, or few acceptances in between, a pair accepted twice was accepted at least
      `ttl - d` apart, and at most twice the skew apart unless its timestamp was far ahead at the first use. */
  lemma ReplayNeedsShortTtl(lim: Limits, created: int, attempts: seq<Attempt>, d: int, i: nat, j: nat)
    requires lim.Valid() && LateBy(created, attempts, d)
    requires NoEviction(lim, created, attempts) || j - i <= lim.maxCap
    requires var log := Run(lim, created, attempts).log;
             i < j < |log| && log[i].nonce == log[j].nonce && log[i].ts == log[j].ts
    ensures var log := Run(lim, created, attempts).log;
            && lim.ttl - d <= log[j].at - log[i].at
            && (log[j].at - log[i].at <= 2 * lim.skew || FarAhead(log[i].at, log[i].ts))
  {
    RunApart(lim, created, attempts, d, !NoEviction(lim, created, attempts));
    AcceptedAreFresh(lim, created, attempts);
    var log := Run(lim, created, attempts).log;
    FreshExactly(log[i].at, log[i].ts, lim.skew);
    FreshExactly(log[j].at, log[j].ts, lim.skew);
  }

  /** At the defaults 60 s = 2 * 30 s, with readings in order and the timestamp not far ahead, one instant is
      left over: exactly 60 s apart, the timestamp midway. */
  lemma DefaultsLeaveOneInstant(created: int, attempts: seq<Attempt>, i: nat, j: nat)
    requires LateBy(created, attempts, 0)
    requires NoEviction(DEFAULTS, created, attempts) || j - i <= 250000
    requires var log := Run(DEFAULTS, created, attempts).log;
             i < j < |log| && log[i].nonce == log[j].nonce && log[i].ts == log[j].ts
    ensures var log := Run(DEFAULTS, created, attempts).log;
            || FarAhead(log[i].at, log[i].ts)
            || (log[j].at == log[i].at + 60 * SECOND && RequestTime(log[i].ts) == log[i].at + 30 * SECOND)
  {
    ReplayNeedsShortTtl(DEFAULTS, created, attempts, 0, i, j);
    AcceptedAreFresh(DEFAULTS, created, attempts);
    var log := Run(DEFAULTS, created, attempts).log;
    FreshExactly(log[i].at, log[i].ts, DEFAULT_MAX_CLOCK_SKEW);
    FreshExactly(log[j].at, log[j].ts, DEFAULT_MAX_CLOCK_SKEW);
  }

  /** A creation time that puts no sweep on an attempt at the first moment `ts` is fresh. */
  function ReplayCreated(lim: Limits, ts: int): int { ts * SECOND - lim.skew - (SECOND - 1) }

  function FirstUse(lim: Limits, ts: int): Attempt { Attempt(ts * SECOND - lim.skew, "n", ts, true) }

  /** Somebody else's request, when the first use expires, under the whole second before. */
  function Sweeper(lim: Limits, ts: int): Attempt {
    var at := FirstUse(lim, ts).now + lim.ttl;
    Attempt(at, "m", (at + lim.skew) / SECOND, true)
  }

  /** The second use: as the first expires, if that is still fresh, or else by a reading taken `ttl - 2 * skew`
      before it reaches the cache. */
  function SecondUse(lim: Limits, ts: int): Attempt {
    Attempt(FirstUse(lim, ts).now + if lim.ttl <= 2 * lim.skew then lim.ttl else 2 * lim.skew, "n", ts, true)
  }

  /** With the time to live within twice the skew the second use can follow the first; otherwise somebody
      else's sweep comes between. */
  function ReplayAttempts(lim: Limits, ts: int): seq<Attempt> {
    [FirstUse(lim, ts)] + (if lim.ttl <= 2 * lim.skew then [] else [Sweeper(lim, ts)]) + [SecondUse(lim, ts)]
  }

  lemma RunSnoc(lim: Limits, created: int, attempts: seq<Attempt>, a: Attempt)
    ensures Run(lim, created, attempts + [a]) == Extend(lim, Run(lim, created, attempts), a)
    ensures NoEviction(lim, created, attempts + [a])
            <==> NoEviction(lim, created, attempts) && !Evicts(lim, Run(lim, created, attempts).cache, a)
  {
    assert (attempts + [a])[..|attempts|] == attempts;
  }

  /** The first acceptance, within the first sweep period. */
  lemma FirstRuns(lim: Limits, created: int, a: Attempt)
    requires lim.Valid() && a.signed && Fresh(a.now, a.ts, lim.skew) && a.now - created < SECOND
    ensures var t := Run(lim, created, [a]);
            && t.cache == Insert(EmptyCache(created), a.nonce, a.now)
            && t.log == [Accepted(a.nonce, a.ts, a.now)]
    ensures NoEviction(lim, created, [a])
  {
    RunSnoc(lim, created, [], a);
    assert [] + [a] == [a];
    assert Evict(EmptyCache(created), lim.maxCap) == EmptyCache(created);
  }

  /** Once its time to live is over, a sweep drops the one nonce there is. */
  lemma SweepDropsTheOne(nonce: string, at: int, created: int, ttl: int)
    requires at + ttl - created >= SECOND
    ensures Sweep(Insert(EmptyCache(created), nonce, at), ttl, at + ttl) == EmptyCache(at + ttl)
  {
    var c := Insert(EmptyCache(created), nonce, at);
    assert c.order == [Entry(nonce, at)];
    assert DropOldest(c) == EmptyCache(created);
    assert Prune(c, at) == EmptyCache(created);
  }

  /** A nonce recorded in an empty cache. */
  lemma AloneInCache(lim: Limits, t: Trail, a: Attempt)
    requires lim.Valid() && a.signed && Fresh(a.now, a.ts, lim.skew)
    requires Sweep(t.cache, lim.ttl, a.now) == EmptyCache(a.now)
    ensures Extend(lim, t, a) == Trail(Insert(EmptyCache(a.now), a.nonce, a.now), t.log + [Accepted(a.nonce, a.ts, a.now)])
    ensures !Evicts(lim, t.cache, a)
  {
    assert Evict(EmptyCache(a.now), lim.maxCap) == EmptyCache(a.now);
  }

  /** A pair that is fresh once more when its first use expires is accepted again. */
  lemma AgainAfterTtl(lim: Limits, created: int, a: Attempt, b: Attempt)
    requires lim.Valid() && a.signed && b == a.(now := a.now + lim.ttl)
    requires Fresh(a.now, a.ts, lim.skew) && Fresh(b.now, b.ts, lim.skew)
    requires a.now - created < SECOND <= b.now - created
    ensures NoEviction(lim, created, [a] + [b]) && Replayed(Run(lim, created, [a] + [b]).log)
  {
    hide Run, NoEviction, Extend, Fresh;
    var t := Run(lim, created, [a]);
    FirstRuns(lim, created, a);
    SweepDropsTheOne(a.nonce, a.now, created, lim.ttl);
    assert Sweep(t.cache, lim.ttl, b.now) == EmptyCache(b.now);
    AloneInCache(lim, t, b);
    RunSnoc(lim, created, [a], b);
    var log := Run(lim, created, [a] + [b]).log;
    assert log[0].nonce == log[1].nonce && log[0].ts == log[1].ts;
  }

  lemma ShortTtlReplays(lim: Limits, ts: int)
    requires lim.Valid() && lim.ttl <= 2 * lim.skew && IsInt64(ts + UNIX_TO_INTERNAL)
    ensures var created, attempts := ReplayCreated(lim, ts), ReplayAttempts(lim, ts);
            && LateBy(created, attempts, 0) && NoneFarAhead(attempts) && NoEviction(lim, created, attempts)
            && Replayed(Run(lim, created, attempts).log)
  {
    hide Run, NoEviction, Replayed;
    var created, a, b := ReplayCreated(lim, ts), FirstUse(lim, ts), SecondUse(lim, ts);
    FreshExactly(a.now, ts, lim.skew);
    FreshExactly(b.now, ts, lim.skew);
    AgainAfterTtl(lim, created, a, b);
    assert ReplayAttempts(lim, ts) == [a] + [b];
  }

  lemma SweeperIsFresh(lim: Limits, ts: int)
    requires lim.Valid() && 2 * lim.skew >= SECOND && 0 <= ts <= 2_000_000_000
    ensures var m := Sweeper(lim, ts);
            Fresh(m.now, m.ts, lim.skew) && !FarAhead(m.now, m.ts)
  {
    var m := Sweeper(lim, ts);
    var x := m.now + lim.skew;
    assert m.ts * SECOND <= x < m.ts * SECOND + SECOND;
    FreshExactly(m.now, m.ts, lim.skew);
  }

  lemma SweeperRuns(lim: Limits, ts: int)
    requires lim.Valid() && 2 * lim.skew >= SECOND && 0 <= ts <= 2_000_000_000
    ensures var created, a, m := ReplayCreated(lim, ts), FirstUse(lim, ts), Sweeper(lim, ts);
            && Run(lim, created, [a] + [m]).cache == Insert(EmptyCache(m.now), "m", m.now)
            && Run(lim, created, [a] + [m]).log == [Accepted("n", ts, a.now)] + [Accepted("m", m.ts, m.now)]
            && NoEviction(lim, created, [a] + [m])
  {
    var created, a, m := ReplayCreated(lim, ts), FirstUse(lim, ts), Sweeper(lim, ts);
    FreshExactly(a.now, ts, lim.skew);
    FirstRuns(lim, created, a);
    SweeperIsFresh(lim, ts);
    SweepDropsTheOne("n", a.now, created, lim.ttl);
    var t := Run(lim, created, [a]);
    assert Sweep(t.cache, lim.ttl, m.now) == EmptyCache(m.now);
    AloneInCache(lim, t, m);
    RunSnoc(lim, created, [a], m);
  }

  lemma LateReplays(lim: Limits, ts: int, d: int)
    requires lim.Valid() && lim.maxCap >= 2 && 2 * lim.skew >= SECOND && 2 * lim.skew < lim.ttl <= 2 * lim.skew + d
    requires 0 <= ts <= 2_000_000_000
    ensures var created, attempts := ReplayCreated(lim, ts), ReplayAttempts(lim, ts);
            && LateBy(created, attempts, d) && NoneFarAhead(attempts) && NoEviction(lim, created, attempts)
            && Replayed(Run(lim, created, attempts).log)
  {
    var created, a, m, b := ReplayCreated(lim, ts), FirstUse(lim, ts), Sweeper(lim, ts), SecondUse(lim, ts);
    SweeperRuns(lim, ts);
    SweeperIsFresh(lim, ts);
    FreshExactly(b.now, ts, lim.skew);
    RunSnoc(lim, created, [a] + [m], b);
    var t := Run(lim, created, [a] + [m]);
    assert Sweep(t.cache, lim.ttl, b.now) == t.cache;
    var log := Run(lim, created, [a] + [m] + [b]).log;
    assert log == t.log + [Accepted("n", ts, b.now)];
    assert log[0].nonce == log[2].nonce && log[0].ts == log[2].ts;
  }

  /** A timestamp in the year 5138. */
  const FAR_FUTURE: int := 100_000_000_000

  /** In the year 2024 and once more a time to live later. */
  function FarUse(lim: Limits, k: int): Attempt {
    Attempt(1_710_000_000 * SECOND + k * lim.ttl, "n", FAR_FUTURE, true)
  }

  /** A timestamp far ahead is a replay whatever the limits, with readings in order and no eviction. */
  lemma FarFutureReplays(lim: Limits)
    requires lim.Valid()
    ensures var created, attempts := FarUse(lim, 0).now - (SECOND - 1), [FarUse(lim, 0), FarUse(lim, 1)];
            && LateBy(created, attempts, 0) && NoEviction(lim, created, attempts)
            && Replayed(Run(lim, created, attempts).log)
  {
    hide Run, NoEviction, Replayed;
    var a, b := FarUse(lim, 0), FarUse(lim, 1);
    FreshExactly(a.now, FAR_FUTURE, lim.skew);
    FreshExactly(b.now, FAR_FUTURE, lim.skew);
    AgainAfterTtl(lim, a.now - (SECOND - 1), a, b);
    assert [a] + [b] == [a, b];
  }

  /** No run without eviction, with readings late by at most `d` and no timestamp far ahead, accepts a
      (nonce, timestamp) pair twice. */
  ghost predicate NeverReplays(lim: Limits, d: int) {
    forall created, attempts ::
      LateBy(created, attempts, d) && NoneFarAhead(attempts) && NoEviction(lim, created, attempts) ==>
        !Replayed(Run(lim, created, attempts).log)
  }

  /** The exact condition, for timestamps not far ahead: there is no replay if and only if the time to live
      exceeds twice the clock skew by more than readings can be late.  For late readings the only-if needs a
      skew of half a second, since timestamps are whole seconds.  Timestamps far ahead replay whatever the
      limits (`FarFutureReplays`). */
  lemma NoReplayIff(lim: Limits, d: int)
    requires lim.Valid() && lim.maxCap >= 2 && d >= 0
    ensures lim.ttl > 2 * lim.skew + d ==> NeverReplays(lim, d)
    ensures d == 0 || 2 * lim.skew >= SECOND ==> (NeverReplays(lim, d) <==> lim.ttl > 2 * lim.skew + d)
  {
    if lim.ttl > 2 * lim.skew + d {
      forall created, attempts |
        LateBy(created, attempts, d) && NoneFarAhead(attempts) && NoEviction(lim, created, attempts)
        ensures !Replayed(Run(lim, created, attempts).log)
      {
        var log := Run(lim, created, attempts).log;
        if i, j :| 0 <= i < j < |log| && log[i].nonce == log[j].nonce && log[i].ts == log[j].ts {
          ReplayNeedsShortTtl(lim, created, attempts, d, i, j);
          AcceptedAreNearAhead(lim, created, attempts);
          assert false;
        }
      }
    } else if lim.ttl <= 2 * lim.skew {
      ShortTtlReplays(lim, 1_710_000_000);
    } else if 2 * lim.skew >= SECOND {
      LateReplays(lim, 1_710_000_000, d);
    }
  }
}
