/**
 The token-bucket limiter: real-valued buckets in a bounded map whose full buckets are evicted.

 The program's state transition is `CheckStep`; `RateLimiter.Check` is the program proved equal to
 it. `UnboundedStep` is the limiter nobody would deploy, which never forgets a key; the theorems
 compare the two over whole runs.
 */
module RateLimit {

  datatype Decision = Decision(allowed: bool, limit: nat, remaining: nat, retryAfterSecs: nat, resetSecs: nat)

  /** Available tokens, and the instant (in seconds) at which they were last topped up. */
  datatype Bucket = Bucket(tokens: real, lastRefill: real)

  /** The fields `with_burst` computes once. */
  datatype Limits = Limits(maxRequests: nat, window: nat, refillPerSec: real, capacity: real, maxKeys: nat)

  const U32_MAX: nat := 0xFFFF_FFFF
  const MAX_KEYS: nat := 100_000

  function WithBurst(maxRequests: nat, windowSecs: nat, burst: nat): (l: Limits)
    ensures l.maxRequests == maxRequests && l.window == (if windowSecs == 0 then 1 else windowSecs)
    ensures l.capacity >= 1.0 && l.maxKeys == 100_000
    ensures maxRequests == 0 ==> l.refillPerSec == 0.0 && l.capacity == (if burst == 0 then 1 else burst) as real
    ensures maxRequests > 0 ==> l.refillPerSec > 0.0 && l.refillPerSec * l.window as real == maxRequests as real
    ensures maxRequests > 0 && burst > 0 ==> Limit(l) == burst && l.capacity == burst as real
    ensures maxRequests > 0 && burst == 0 ==> Limit(l) == maxRequests && l.capacity == maxRequests as real
  {
    var window := if windowSecs >= 1 then windowSecs else 1;
    var capacity := if maxRequests == 0 then (if burst >= 1 then burst as real else 1.0)
                    else if burst == 0 then maxRequests as real
                    else burst as real;
    var rate := if maxRequests == 0 then 0.0 else maxRequests as real / window as real;
    Limits(maxRequests, window, rate, capacity, MAX_KEYS)
  }

  function Limit(l: Limits): nat {
    if l.maxRequests == 0 || l.capacity < 0.0 then 0 else l.capacity.Floor
  }

  // ------------------------------------------------------------------ one check

  function Min(x: real, y: real): real { if x <= y then x else y }

  /** Elapsed time saturates at zero, as `Instant::duration_since` does. */
  function Refill(b: Bucket, capacity: real, rate: real, now: real): Bucket {
    if now > b.lastRefill then Bucket(Min(b.tokens + (now - b.lastRefill) * rate, capacity), now) else b
  }

  function Ceil(x: real): int { -((-x).Floor) }

  function SecsUntil(tokens: real, target: real, rate: real): nat {
    if tokens >= target || rate <= 0.0 then 0
    else var n := Ceil((target - tokens) / rate); if n >= 1 then n else 1
  }

  function AtLeastOne(n: nat): nat { if n >= 1 then n else 1 }

  /** `retain`: every bucket is topped up, and only those still below capacity stay. */
  function Retain(l: Limits, m: map<string, Bucket>, now: real): map<string, Bucket> {
    map k | k in m && Refill(m[k], l.capacity, l.refillPerSec, now).tokens < l.capacity
      :: Refill(m[k], l.capacity, l.refillPerSec, now)
  }

  /** Top the bucket up, then take one token if there is one. */
  function Spend(l: Limits, b: Bucket, now: real): (Bucket, Decision) {
    var full := Refill(b, l.capacity, l.refillPerSec, now);
    if full.tokens >= 1.0 then
      var left := full.tokens - 1.0;
      (full.(tokens := left),
       Decision(true, Limit(l), if left.Floor >= 0 then left.Floor else 0, 0,
                SecsUntil(left, l.capacity, l.refillPerSec)))
    else
      (full,
       Decision(false, Limit(l), 0, AtLeastOne(SecsUntil(full.tokens, 1.0, l.refillPerSec)),
                AtLeastOne(SecsUntil(full.tokens, l.capacity, l.refillPerSec))))
  }

  datatype State = State(buckets: map<string, Bucket>, lastSweep: real)

  function SweepInterval(l: Limits): real { if l.window <= 60 then l.window as real else 60.0 }

  /** The throttled sweep at half capacity. */
  function PeriodicSweep(l: Limits, s: State, now: real): State {
    var sinceSweep := if now > s.lastSweep then now - s.lastSweep else 0.0;
    if |s.buckets| >= l.maxKeys / 2 && sinceSweep >= SweepInterval(l)
    then State(Retain(l, s.buckets, now), now) else s
  }

  /** The second, unthrottled sweep when the map is at capacity. */
  function Swept(l: Limits, s: State, now: real): State {
    var p := PeriodicSweep(l, s, now);
    if |p.buckets| >= l.maxKeys then p.(buckets := Retain(l, p.buckets, now)) else p
  }

  /** The fail-closed branch: still full after both sweeps, and the key is unknown. */
  predicate FailsClosed(l: Limits, s: State, key: string, now: real) {
    && l.maxRequests > 0
    && |PeriodicSweep(l, s, now).buckets| >= l.maxKeys
    && |Swept(l, s, now).buckets| >= l.maxKeys && key !in Swept(l, s, now).buckets
  }

  function BucketOr(l: Limits, m: map<string, Bucket>, key: string, now: real): Bucket {
    if key in m then m[key] else Bucket(l.capacity, now)
  }

  const DISABLED := Decision(true, 0, U32_MAX, 0, 0)

  function CheckStep(l: Limits, s: State, key: string, now: real): (State, Decision) {
    if l.maxRequests == 0 then (s, DISABLED)
    else
      var w := Swept(l, s, now);
      if FailsClosed(l, s, key, now) then (w, Decision(false, Limit(l), 0, 1, AtLeastOne(l.window)))
      else
        var (b, d) := Spend(l, BucketOr(l, w.buckets, key, now), now);
        (w.(buckets := w.buckets[key := b]), d)
  }

  /** The program. `last_sweep` is only ever locked under the buckets lock, so its `try_lock` succeeds. */
  class RateLimiter {
    const limits: Limits
    var buckets: map<string, Bucket>
    var lastSweep: real

    function Contents(): State
      reads this
    {
      State(buckets, lastSweep)
    }

    constructor (maxRequests: nat, windowSecs: nat, burst: nat, now: real)
      ensures limits == WithBurst(maxRequests, windowSecs, burst)
      ensures Contents() == State(map[], now)
    {
      limits := WithBurst(maxRequests, windowSecs, burst);
      buckets := map[];
      lastSweep := now;
    }

    method Check(key: string, now: real) returns (d: Decision)
      modifies this
      ensures (Contents(), d) == CheckStep(limits, old(Contents()), key, now)
    {
      hide Retain, Refill, SecsUntil, SweepInterval, Limit, AtLeastOne;
      if limits.maxRequests == 0 { return DISABLED; }
      var sinceSweep := if now > lastSweep then now - lastSweep else 0.0;
      if |buckets| >= limits.maxKeys / 2 && sinceSweep >= SweepInterval(limits) {
        buckets := Retain(limits, buckets, now);
        lastSweep := now;
      }
      assert Contents() == PeriodicSweep(limits, old(Contents()), now);
      if |buckets| >= limits.maxKeys {
        buckets := Retain(limits, buckets, now);
        if |buckets| >= limits.maxKeys && key !in buckets {
          return Decision(false, Limit(limits), 0, 1, AtLeastOne(limits.window));
        }
      }
      assert Contents() == Swept(limits, old(Contents()), now);
      var entry := if key in buckets then buckets[key] else Bucket(limits.capacity, now);
      var bucket := Refill(entry, limits.capacity, limits.refillPerSec, now);
      if bucket.tokens >= 1.0 {
        bucket := bucket.(tokens := bucket.tokens - 1.0);
        d := Decision(true, Limit(limits), if bucket.tokens.Floor >= 0 then bucket.tokens.Floor else 0, 0,
                      SecsUntil(bucket.tokens, limits.capacity, limits.refillPerSec));
      } else {
        d := Decision(false, Limit(limits), 0, AtLeastOne(SecsUntil(bucket.tokens, 1.0, limits.refillPerSec)),
                      AtLeastOne(SecsUntil(bucket.tokens, limits.capacity, limits.refillPerSec)));
      }
      buckets := buckets[key := bucket];
    }
  }

  // ------------------------------------------------------------------ levels

  ghost predicate Enabled(l: Limits) {
    l.maxRequests > 0 && l.capacity >= 1.0 && l.refillPerSec > 0.0
  }

  ghost predicate Sound(l: Limits, m: map<string, Bucket>, now: real) {
    forall k :: k in m ==> 0.0 <= m[k].tokens <= l.capacity && m[k].lastRefill <= now
  }

  /** What a check of `key` at `now` would find: a missing key counts as full. */
  ghost function Level(l: Limits, m: map<string, Bucket>, key: string, now: real): real {
    if key in m then Refill(m[key], l.capacity, l.refillPerSec, now).tokens else l.capacity
  }

  lemma Gained(dt: real, rate: real)
    requires dt >= 0.0 && rate >= 0.0
    ensures dt * rate >= 0.0
  {
  }

  /** Refilling at `t1` and again at `t2` is refilling once at `t2`. */
  lemma RefillComposes(b: Bucket, capacity: real, rate: real, t1: real, t2: real)
    requires b.lastRefill <= t1 <= t2 && rate >= 0.0 && b.tokens <= capacity
    ensures Refill(Refill(b, capacity, rate, t1), capacity, rate, t2) == Refill(b, capacity, rate, t2)
  {
    Gained(t1 - b.lastRefill, rate);
    Gained(t2 - t1, rate);
    assert (t2 - b.lastRefill) * rate == (t1 - b.lastRefill) * rate + (t2 - t1) * rate;
  }

  lemma LevelAdvances(l: Limits, m: map<string, Bucket>, key: string, t1: real, t2: real)
    requires Enabled(l) && Sound(l, m, t1) && t1 <= t2
    ensures Level(l, m, key, t2) == Min(Level(l, m, key, t1) + (t2 - t1) * l.refillPerSec, l.capacity)
    ensures 0.0 <= Level(l, m, key, t1) <= l.capacity
  {
    Gained(t2 - t1, l.refillPerSec);
    if key in m {
      Gained(t1 - m[key].lastRefill, l.refillPerSec);
      RefillComposes(m[key], l.capacity, l.refillPerSec, t1, t2);
    }
  }

  /** A sweep changes no level: an evicted bucket is exactly a full one. */
  lemma RetainKeepsLevel(l: Limits, m: map<string, Bucket>, k: string, now: real)
    requires Enabled(l) && Sound(l, m, now)
    ensures var r := Retain(l, m, now);
      && Level(l, r, k, now) == Level(l, m, k, now)
      && (k in r ==> 0.0 <= r[k].tokens <= l.capacity && r[k].lastRefill <= now)
  {
    if k in m { Gained(now - m[k].lastRefill, l.refillPerSec); }
  }

  lemma RetainKeepsLevels(l: Limits, m: map<string, Bucket>, now: real)
    requires Enabled(l) && Sound(l, m, now)
    ensures Sound(l, Retain(l, m, now), now) && Retain(l, m, now).Keys <= m.Keys
    ensures forall k :: Level(l, Retain(l, m, now), k, now) == Level(l, m, k, now)
  {
    hide Refill, Level;
    forall k
      ensures Level(l, Retain(l, m, now), k, now) == Level(l, m, k, now)
      ensures k in Retain(l, m, now) ==> 0.0 <= Retain(l, m, now)[k].tokens <= l.capacity
                                         && Retain(l, m, now)[k].lastRefill <= now
    {
      RetainKeepsLevel(l, m, k, now);
    }
  }

  lemma KeysBoundSize<K, V, W>(a: map<K, V>, b: map<K, W>)
    requires a.Keys <= b.Keys
    ensures |a| <= |b|
  {
    assert b.Keys == a.Keys + (b.Keys - a.Keys);
  }

  lemma SweptKeepsLevels(l: Limits, s: State, now: real)
    requires Enabled(l) && Sound(l, s.buckets, now)
    ensures var w := Swept(l, s, now);
      && Sound(l, w.buckets, now) && w.buckets.Keys <= s.buckets.Keys && |w.buckets| <= |s.buckets|
      && forall k :: Level(l, w.buckets, k, now) == Level(l, s.buckets, k, now)
  {
    RetainKeepsLevels(l, s.buckets, now);
    var p := PeriodicSweep(l, s, now);
    RetainKeepsLevels(l, p.buckets, now);
    KeysBoundSize(Swept(l, s, now).buckets, s.buckets);
  }

  /** The keys that have spent something not yet refilled. */
  ghost function Busy(l: Limits, m: map<string, Bucket>, now: real): set<string> {
    set k | k in m && Level(l, m, k, now) < l.capacity
  }

  lemma RetainIsBusy(l: Limits, m: map<string, Bucket>, now: real)
    requires Enabled(l) && Sound(l, m, now)
    ensures Retain(l, m, now).Keys == Busy(l, m, now)
  {
    hide Refill;
  }

  /** When a check fails closed does not depend on when sweeps ran: exactly when `maxKeys` keys
      are below capacity and the key is not one of them. */
  lemma FailsClosedExactly(l: Limits, s: State, key: string, now: real)
    requires Enabled(l) && Sound(l, s.buckets, now)
    ensures FailsClosed(l, s, key, now)
            <==> |Busy(l, s.buckets, now)| >= l.maxKeys && key !in Busy(l, s.buckets, now)
  {
    hide Refill, Level, Retain, SweepInterval;
    var p := PeriodicSweep(l, s, now);
    RetainKeepsLevels(l, s.buckets, now);
    RetainIsBusy(l, s.buckets, now);
    RetainIsBusy(l, p.buckets, now);
    BusyAgrees(l, s.buckets, Retain(l, s.buckets, now), now);
    KeysBoundSize(Retain(l, p.buckets, now), p.buckets);
    assert |Retain(l, p.buckets, now)| == |Busy(l, s.buckets, now)| by {
      KeysBoundSize(Retain(l, p.buckets, now), Retain(l, s.buckets, now));
      KeysBoundSize(Retain(l, s.buckets, now), Retain(l, p.buckets, now));
    }
  }

  lemma BusyAgrees(l: Limits, a: map<string, Bucket>, b: map<string, Bucket>, now: real)
    requires forall k :: Level(l, a, k, now) == Level(l, b, k, now)
    ensures Busy(l, a, now) == Busy(l, b, now)
  {
    forall k ensures k in Busy(l, a, now) <==> k in Busy(l, b, now) {
      assert Level(l, a, k, now) == Level(l, b, k, now);
    }
  }

  /** A decision is a function of the level alone, and moves only its own key's level. */
  ghost function Answer(l: Limits, level: real): Decision {
    if level >= 1.0 then
      Decision(true, Limit(l), (level - 1.0).Floor, 0, SecsUntil(level - 1.0, l.capacity, l.refillPerSec))
    else
      Decision(false, Limit(l), 0, AtLeastOne(SecsUntil(level, 1.0, l.refillPerSec)),
               AtLeastOne(SecsUntil(level, l.capacity, l.refillPerSec)))
  }

  lemma SpendByLevel(l: Limits, m: map<string, Bucket>, key: string, now: real)
    requires Enabled(l) && Sound(l, m, now)
    ensures var (b, d) := Spend(l, BucketOr(l, m, key, now), now);
      && d == Answer(l, Level(l, m, key, now))
      && Sound(l, m[key := b], now)
      && Level(l, m[key := b], key, now) == Level(l, m, key, now) - (if d.allowed then 1.0 else 0.0)
      && forall k :: k != key ==> Level(l, m[key := b], k, now) == Level(l, m, k, now)
  {
    LevelAdvances(l, m, key, now, now);
  }

  lemma {:induction false} CheckByLevel(l: Limits, s: State, key: string, now: real)
    requires Enabled(l) && Sound(l, s.buckets, now)
    ensures var (s', d) := CheckStep(l, s, key, now);
      && Sound(l, s'.buckets, now)
      && (FailsClosed(l, s, key, now) ==> d == Decision(false, Limit(l), 0, 1, if l.window == 0 then 1 else l.window))
      && (!FailsClosed(l, s, key, now) ==> d == Answer(l, Level(l, s.buckets, key, now)))
      && Level(l, s'.buckets, key, now) == Level(l, s.buckets, key, now) - (if d.allowed then 1.0 else 0.0)
      && (forall k :: k != key ==> Level(l, s'.buckets, k, now) == Level(l, s.buckets, k, now))
      && (|s.buckets| <= l.maxKeys ==> |s'.buckets| <= l.maxKeys)
  {
    SweptKeepsLevels(l, s, now);
    SpendByLevel(l, Swept(l, s, now).buckets, key, now);
  }

  /** Sweeps come when they are due and not before: from half capacity on once a minute, or once a window if
      that is shorter, and whenever the map is full. A sweep leaves no full bucket but the checked key's. */
  lemma SweepsWhenDue(l: Limits, s: State, key: string, now: real)
    requires Enabled(l) && Sound(l, s.buckets, now) && s.lastSweep <= now
    ensures var s' := CheckStep(l, s, key, now).0;
      var due := |s.buckets| >= l.maxKeys / 2 && (now - s.lastSweep >= 60.0 || now - s.lastSweep >= l.window as real);
      && s'.lastSweep == (if due then now else s.lastSweep)
      && (due || |s.buckets| >= l.maxKeys ==>
            forall k :: k in s'.buckets && k != key ==> Level(l, s'.buckets, k, now) < l.capacity)
      && (!due && |s.buckets| < l.maxKeys ==> s.buckets.Keys <= s'.buckets.Keys)
  {
    hide Refill, Level, Retain, Spend, FailsClosed;
    CheckByLevel(l, s, key, now);
    var p := PeriodicSweep(l, s, now);
    RetainKeepsLevels(l, s.buckets, now);
    RetainIsBusy(l, s.buckets, now);
    RetainKeepsLevels(l, p.buckets, now);
    RetainIsBusy(l, p.buckets, now);
  }

  // ------------------------------------------------------------------ runs

  datatype Event = Event(key: string, now: real)

  ghost predicate Ordered(events: seq<Event>, from: real, to: real) {
    && (forall i :: 0 <= i < |events| ==> from <= events[i].now <= to)
    && (forall i, j :: 0 <= i < j < |events| ==> events[i].now <= events[j].now)
  }

  ghost function After(l: Limits, s: State, events: seq<Event>): State
    decreases |events|
  {
    if |events| == 0 then s
    else After(l, CheckStep(l, s, events[0].key, events[0].now).0, events[1..])
  }

  /** The decisions of a run, without those of the fail-closed branch. */
  ghost function BoundedAnswers(l: Limits, s: State, events: seq<Event>): seq<Decision>
    decreases |events|
  {
    if |events| == 0 then []
    else
      var (s', d) := CheckStep(l, s, events[0].key, events[0].now);
      (if FailsClosed(l, s, events[0].key, events[0].now) then [] else [d]) + BoundedAnswers(l, s', events[1..])
  }

  /** The events of a run that the fail-closed branch did not reject. */
  ghost function Served(l: Limits, s: State, events: seq<Event>): seq<Event>
    decreases |events|
  {
    if |events| == 0 then []
    else
      var s' := CheckStep(l, s, events[0].key, events[0].now).0;
      (if FailsClosed(l, s, events[0].key, events[0].now) then [] else [events[0]]) + Served(l, s', events[1..])
  }

  /** The reference limiter: a map that only grows. */
  ghost function UnboundedStep(l: Limits, m: map<string, Bucket>, e: Event): (map<string, Bucket>, Decision) {
    var (b, d) := Spend(l, BucketOr(l, m, e.key, e.now), e.now);
    (m[e.key := b], d)
  }

  ghost function UnboundedAnswers(l: Limits, m: map<string, Bucket>, events: seq<Event>): seq<Decision>
    decreases |events|
  {
    if |events| == 0 then []
    else
      var (m', d) := UnboundedStep(l, m, events[0]);
      [d] + UnboundedAnswers(l, m', events[1..])
  }

  ghost predicate Agree(l: Limits, a: map<string, Bucket>, b: map<string, Bucket>, now: real) {
    forall k :: Level(l, a, k, now) == Level(l, b, k, now)
  }

  lemma UnboundedByLevel(l: Limits, m: map<string, Bucket>, e: Event)
    requires Enabled(l) && Sound(l, m, e.now)
    ensures var (m', d) := UnboundedStep(l, m, e);
      && d == Answer(l, Level(l, m, e.key, e.now))
      && Sound(l, m', e.now)
      && Level(l, m', e.key, e.now) == Level(l, m, e.key, e.now) - (if d.allowed then 1.0 else 0.0)
      && forall k :: k != e.key ==> Level(l, m', k, e.now) == Level(l, m, k, e.now)
  {
    SpendByLevel(l, m, e.key, e.now);
  }

  lemma AgreeLater(l: Limits, a: map<string, Bucket>, b: map<string, Bucket>, now: real, later: real)
    requires Enabled(l) && Sound(l, a, now) && Sound(l, b, now) && Agree(l, a, b, now) && now <= later
    ensures Sound(l, a, later) && Sound(l, b, later) && Agree(l, a, b, later)
  {
    forall k ensures Level(l, a, k, later) == Level(l, b, k, later) {
      LevelAdvances(l, a, k, now, later);
      LevelAdvances(l, b, k, now, later);
    }
  }

  lemma {:induction false} AgreeForever(
    l: Limits, s: State, m: map<string, Bucket>, events: seq<Event>, from: real, to: real)
    requires Enabled(l) && Sound(l, s.buckets, from) && Sound(l, m, from) && Agree(l, s.buckets, m, from)
    requires Ordered(events, from, to)
    ensures BoundedAnswers(l, s, events) == UnboundedAnswers(l, m, Served(l, s, events))
    decreases |events|
  {
    hide CheckStep, FailsClosed, UnboundedStep, Level, Answer;
    if |events| > 0 {
      var e, rest := events[0], events[1..];
      AgreeLater(l, s.buckets, m, from, e.now);
      CheckByLevel(l, s, e.key, e.now);
      UnboundedByLevel(l, m, e);
      var s' := CheckStep(l, s, e.key, e.now).0;
      if FailsClosed(l, s, e.key, e.now) {
        AgreeForever(l, s', m, rest, e.now, to);
        assert BoundedAnswers(l, s, events) == BoundedAnswers(l, s', rest);
        assert Served(l, s, events) == Served(l, s', rest);
      } else {
        var m' := UnboundedStep(l, m, e).0;
        AgreeForever(l, s', m', rest, e.now, to);
        assert Served(l, s, events)[1..] == Served(l, s', rest);
      }
    }
  }

  ghost function Fresh(start: real): State { State(map[], start) }

  /** Eviction is lossless: over any run with a nondecreasing clock, every decision, in all its
      fields, is the one the never-evicting limiter gives on the checks that were served. */
  lemma {:induction false} EvictionIsLossless(
    maxRequests: nat, windowSecs: nat, burst: nat, start: real, events: seq<Event>, to: real)
    requires maxRequests > 0 && Ordered(events, start, to)
    ensures var l := WithBurst(maxRequests, windowSecs, burst);
      BoundedAnswers(l, Fresh(start), events) == UnboundedAnswers(l, map[], Served(l, Fresh(start), events))
  {
    AgreeForever(WithBurst(maxRequests, windowSecs, burst), Fresh(start), map[], events, start, to);
  }

  /** A budget of zero switches the limiter off: every check of every run is answered alike, and nothing is stored. */
  lemma {:induction false} DisabledAllowsEverything(windowSecs: nat, burst: nat, s: State, events: seq<Event>)
    ensures var l := WithBurst(0, windowSecs, burst);
      && After(l, s, events) == s && Served(l, s, events) == events
      && |BoundedAnswers(l, s, events)| == |events|
      && forall d :: d in BoundedAnswers(l, s, events) ==> d == Decision(true, 0, 0xFFFF_FFFF, 0, 0)
    decreases |events|
  {
    if |events| > 0 { DisabledAllowsEverything(windowSecs, burst, s, events[1..]); }
  }

  /** How many checks of `key` a run allows. */
  ghost function Allowed(l: Limits, s: State, events: seq<Event>, key: string): nat
    decreases |events|
  {
    if |events| == 0 then 0
    else
      var (s', d) := CheckStep(l, s, events[0].key, events[0].now);
      Allowed(l, s', events[1..], key) + if events[0].key == key && d.allowed then 1 else 0
  }

  /** Tokens are conserved: what a run spends on `key` plus what is left never exceeds what it
      started with plus the refill. */
  lemma {:induction false} Conservation(l: Limits, s: State, events: seq<Event>, from: real, to: real, key: string)
    requires Enabled(l) && Sound(l, s.buckets, from) && Ordered(events, from, to) && from <= to
    ensures Sound(l, After(l, s, events).buckets, to)
    ensures Allowed(l, s, events, key) as real + Level(l, After(l, s, events).buckets, key, to)
            <= Level(l, s.buckets, key, from) + (to - from) * l.refillPerSec
    ensures |s.buckets| <= l.maxKeys ==> |After(l, s, events).buckets| <= l.maxKeys
    decreases |events|
  {
    hide CheckStep, FailsClosed, Level, Answer, Sound;
    if |events| == 0 {
      NoMoreThanRefilled(l, s.buckets, key, from, to);
    } else {
      var e := events[0];
      var (s', d) := CheckStep(l, s, e.key, e.now);
      OneCheckConserves(l, s, e, from, key);
      Conservation(l, s', events[1..], e.now, to, key);
      Distribute(from, e.now, to, l.refillPerSec);
    }
  }

  lemma Distribute(a: real, b: real, c: real, rate: real)
    ensures (c - a) * rate == (c - b) * rate + (b - a) * rate
  {
  }

  lemma NoMoreThanRefilled(l: Limits, m: map<string, Bucket>, key: string, from: real, to: real)
    requires Enabled(l) && Sound(l, m, from) && from <= to
    ensures Sound(l, m, to) && Level(l, m, key, to) <= Level(l, m, key, from) + (to - from) * l.refillPerSec
  {
    hide Level;
    LevelAdvances(l, m, key, from, to);
    SoundLater(l, m, from, to);
  }

  lemma OneCheckConserves(l: Limits, s: State, e: Event, from: real, key: string)
    requires Enabled(l) && Sound(l, s.buckets, from) && from <= e.now
    ensures var (s', d) := CheckStep(l, s, e.key, e.now);
      && Sound(l, s'.buckets, e.now) && (|s.buckets| <= l.maxKeys ==> |s'.buckets| <= l.maxKeys)
      && (if e.key == key && d.allowed then 1.0 else 0.0) + Level(l, s'.buckets, key, e.now)
         <= Level(l, s.buckets, key, from) + (e.now - from) * l.refillPerSec
  {
    hide CheckStep, FailsClosed, Level, Answer, Sound;
    NoMoreThanRefilled(l, s.buckets, key, from, e.now);
    CheckByLevel(l, s, e.key, e.now);
  }

  lemma {:induction false} RunStaysSound(l: Limits, s: State, events: seq<Event>, from: real, to: real)
    requires Enabled(l) && Sound(l, s.buckets, from) && Ordered(events, from, to) && from <= to
    ensures Sound(l, After(l, s, events).buckets, to)
    ensures |s.buckets| <= l.maxKeys ==> |After(l, s, events).buckets| <= l.maxKeys
  {
    Conservation(l, s, events, from, to, "");
  }

  lemma BurstFrom(l: Limits, s: State, events: seq<Event>, from: real, to: real, key: string)
    requires Enabled(l) && Sound(l, s.buckets, from) && Ordered(events, from, to) && from <= to
    ensures Allowed(l, s, events, key) as real <= l.capacity + (to - from) * l.refillPerSec
  {
    Conservation(l, s, events, from, to, key);
    LevelAdvances(l, s.buckets, key, from, from);
    LevelAdvances(l, After(l, s, events).buckets, key, to, to);
  }

  lemma BurstAfter(l: Limits, start: real, before: seq<Event>, from: real, during: seq<Event>, to: real, key: string)
    requires Enabled(l) && Ordered(before, start, from) && start <= from <= to && Ordered(during, from, to)
    ensures var s := After(l, Fresh(start), before);
      && Allowed(l, s, during, key) as real <= l.capacity + (to - from) * l.refillPerSec
      && |s.buckets| <= l.maxKeys
  {
    hide CheckStep, Ordered;
    RunStaysSound(l, Fresh(start), before, start, from);
    BurstFrom(l, After(l, Fresh(start), before), during, from, to, key);
  }

  /** Burst bound: whatever happened before, any interval [from, to] allows each key at most
      capacity + rate * (to - from) checks; the map never exceeds its cap. */
  lemma {:induction false} BurstBound(
    maxRequests: nat, windowSecs: nat, burst: nat, start: real, before: seq<Event>, from: real, during: seq<Event>,
    to: real, key: string)
    requires maxRequests > 0 && Ordered(before, start, from) && start <= from <= to && Ordered(during, from, to)
    ensures var l := WithBurst(maxRequests, windowSecs, burst);
      var s := After(l, Fresh(start), before);
      && Allowed(l, s, during, key) as real <= l.capacity + (to - from) * l.refillPerSec
      && |s.buckets| <= 100_000
  {
    hide WithBurst, CheckStep, Ordered, After, Allowed;
    BurstAfter(WithBurst(maxRequests, windowSecs, burst), start, before, from, during, to, key);
  }

  // ------------------------------------------------------------------ retry metadata

  lemma CeilIsLeast(x: real, n: int)
    ensures n >= Ceil(x) <==> n as real >= x
  {
  }

  /** `SecsUntil` is the least whole number of seconds that brings `tokens` up to `target`. */
  lemma SecsUntilIsLeast(tokens: real, target: real, rate: real, n: nat)
    requires rate > 0.0 && tokens < target
    ensures n >= SecsUntil(tokens, target, rate) <==> tokens + n as real * rate >= target
  {
    var x := (target - tokens) / rate;
    assert x * rate == target - tokens;
    CeilIsLeast(x, n);
    if n as real >= x { Gained(n as real - x, rate); }
    if n as real < x { assert (x - n as real) * rate > 0.0; }
  }

  lemma WhenFull(level: real, capacity: real, rate: real, n: nat)
    requires rate > 0.0 && level < capacity
    ensures Min(level + n as real * rate, capacity) == capacity <==> n >= SecsUntil(level, capacity, rate)
    ensures SecsUntil(level, capacity, rate) >= 1
  {
    SecsUntilIsLeast(level, capacity, rate, n);
  }

  lemma WhenAccepted(level: real, capacity: real, rate: real, n: nat)
    requires rate > 0.0 && level < 1.0 <= capacity
    ensures Min(level + n as real * rate, capacity) >= 1.0 <==> n >= SecsUntil(level, 1.0, rate)
    ensures 1 <= SecsUntil(level, 1.0, rate) <= SecsUntil(level, capacity, rate)
  {
    var reset := SecsUntil(level, capacity, rate);
    SecsUntilIsLeast(level, 1.0, rate, n);
    SecsUntilIsLeast(level, 1.0, rate, reset);
    SecsUntilIsLeast(level, capacity, rate, reset);
  }

  /** The waiting times in an answer are those of the level it leaves behind. */
  lemma AnswerIsTimely(l: Limits, level: real, n: nat)
    requires Enabled(l) && 0.0 <= level <= l.capacity
    ensures var d := Answer(l, level);
      var left := if d.allowed then level - 1.0 else level;
      && (d.allowed <==> level >= 1.0)
      && (Min(left + n as real * l.refillPerSec, l.capacity) == l.capacity <==> n >= d.resetSecs)
      && (!d.allowed ==> 1 <= d.retryAfterSecs <= d.resetSecs)
      && (!d.allowed ==> (Min(left + n as real * l.refillPerSec, l.capacity) >= 1.0 <==> n >= d.retryAfterSecs))
  {
    hide SecsUntil, Limit;
    if level >= 1.0 {
      WhenFull(level - 1.0, l.capacity, l.refillPerSec, n);
    } else {
      WhenFull(level, l.capacity, l.refillPerSec, n);
      WhenAccepted(level, l.capacity, l.refillPerSec, n);
    }
  }

  lemma {:induction false} OthersLeaveLevel(l: Limits, s: State, events: seq<Event>, from: real, to: real, key: string)
    requires Enabled(l) && Sound(l, s.buckets, from) && Ordered(events, from, to) && from <= to
    requires forall e :: e in events ==> e.key != key
    ensures Sound(l, After(l, s, events).buckets, to)
    ensures Level(l, After(l, s, events).buckets, key, to) == Level(l, s.buckets, key, to)
    decreases |events|
  {
    hide CheckStep, FailsClosed, Level, Answer, Sound;
    if |events| == 0 {
      assert After(l, s, events) == s;
      SoundLater(l, s.buckets, from, to);
    } else {
      var e := events[0];
      assert e in events && e.key != key;
      SoundLater(l, s.buckets, from, e.now);
      CheckByLevel(l, s, e.key, e.now);
      var s' := CheckStep(l, s, e.key, e.now).0;
      LevelAdvances(l, s.buckets, key, e.now, to);
      LevelAdvances(l, s'.buckets, key, e.now, to);
      assert Level(l, s'.buckets, key, to) == Level(l, s.buckets, key, to);
      OthersLeaveLevel(l, s', events[1..], e.now, to, key);
    }
  }

  lemma SoundLater(l: Limits, m: map<string, Bucket>, now: real, later: real)
    requires Sound(l, m, now) && now <= later
    ensures Sound(l, m, later)
  {
  }

  /** Retry metadata is exact. After any answer from a bucket, whatever other keys do meanwhile,
      the bucket is full again after n seconds exactly when n >= resetSecs; and after a rejection
      a retry n seconds later is allowed exactly when n >= retryAfterSecs, unless the map is then
      too full to hold the key. */
  lemma {:induction false} RetryIsExact(l: Limits, s: State, key: string, now: real, others: seq<Event>, n: nat)
    requires Enabled(l) && Sound(l, s.buckets, now) && !FailsClosed(l, s, key, now)
    requires Ordered(others, now, now + n as real) && forall e :: e in others ==> e.key != key
    ensures var (s1, d) := CheckStep(l, s, key, now);
      var later := After(l, s1, others);
      && (Level(l, later.buckets, key, now + n as real) == l.capacity <==> n >= d.resetSecs)
      && (!d.allowed ==>
            && 1 <= d.retryAfterSecs <= d.resetSecs
            && (!FailsClosed(l, later, key, now + n as real) ==>
                  (CheckStep(l, later, key, now + n as real).1.allowed <==> n >= d.retryAfterSecs)))
  {
    hide CheckStep, FailsClosed, Level, After, Sound, Ordered, Answer;
    var (s1, d) := CheckStep(l, s, key, now);
    var level := Level(l, s.buckets, key, now);
    var later := After(l, s1, others);
    var t := now + n as real;
    LevelWhileWaiting(l, s, key, now, others, n);
    AnswerIsTimely(l, level, n);
    CheckByLevel(l, later, key, t);
    AnswerAllows(l, Level(l, later.buckets, key, t));
  }

  lemma AnswerAllows(l: Limits, level: real)
    ensures Answer(l, level).allowed <==> level >= 1.0
  {
  }

  /** The level a key has spent from, n seconds later, whatever other keys did. */
  lemma LevelWhileWaiting(l: Limits, s: State, key: string, now: real, others: seq<Event>, n: nat)
    requires Enabled(l) && Sound(l, s.buckets, now) && !FailsClosed(l, s, key, now)
    requires Ordered(others, now, now + n as real) && forall e :: e in others ==> e.key != key
    ensures var (s1, d) := CheckStep(l, s, key, now);
      var later, level := After(l, s1, others), Level(l, s.buckets, key, now);
      && 0.0 <= level <= l.capacity && d == Answer(l, level) && Sound(l, later.buckets, now + n as real)
      && Level(l, later.buckets, key, now + n as real)
         == Min((if d.allowed then level - 1.0 else level) + n as real * l.refillPerSec, l.capacity)
  {
    hide CheckStep, FailsClosed, Level, After, Sound, Ordered, Answer;
    var (s1, d) := CheckStep(l, s, key, now);
    var t := now + n as real;
    CheckByLevel(l, s, key, now);
    OthersLeaveLevel(l, s1, others, now, t, key);
    LevelAdvances(l, s.buckets, key, now, now);
    LevelAdvances(l, s1.buckets, key, now, t);
    assert t - now == n as real;
  }

  ghost function Occurrences(events: seq<Event>, key: string): nat {
    if |events| == 0 then 0 else Occurrences(events[1..], key) + if events[0].key == key then 1 else 0
  }

  lemma {:induction false} SameInstant(l: Limits, s: State, key: string, now: real, events: seq<Event>)
    requires Enabled(l) && Sound(l, s.buckets, now)
    requires Level(l, s.buckets, key, now) <= l.capacity - 1.0
    requires forall e :: e in events ==> e.now == now
    ensures Allowed(l, s, events, key) ==
      var left := Level(l, s.buckets, key, now).Floor;
      if Occurrences(events, key) <= left then Occurrences(events, key) else left
    decreases |events|
  {
    LevelAdvances(l, s.buckets, key, now, now);
    if |events| > 0 {
      var e := events[0];
      CheckByLevel(l, s, e.key, now);
      SweptKeepsLevels(l, s, now);
      var s' := CheckStep(l, s, e.key, now).0;
      SameInstant(l, s', key, now, events[1..]);
    }
  }

  /** After an acceptance, exactly `remaining` further checks of the key at the same instant
      succeed, however other keys' checks are interleaved. */
  lemma {:induction false} RemainingIsExact(l: Limits, s: State, key: string, now: real, events: seq<Event>)
    requires Enabled(l) && Sound(l, s.buckets, now)
    requires forall e :: e in events ==> e.now == now
    ensures var (s1, d) := CheckStep(l, s, key, now);
      d.allowed ==>
        Allowed(l, s1, events, key)
        == if Occurrences(events, key) <= d.remaining then Occurrences(events, key) else d.remaining
  {
    var (s1, d) := CheckStep(l, s, key, now);
    CheckByLevel(l, s, key, now);
    LevelAdvances(l, s.buckets, key, now, now);
    if d.allowed { SameInstant(l, s1, key, now, events); }
  }
}
