/**
 The login lockout tracker: five failures inside ten minutes lock an address for fifteen.

 `LoginAttemptTracker` is the program, a bounded map of attempt records updated in place. The
 specification is `Standing`, a fold over one address's own calls that knows nothing of maps,
 eviction or other addresses; `CallsFollowHistory` relates the two over every interleaving.
 */
module Lockout {
  import opened Common

  type Address = string
  type Instant = real

  const MAX_ATTEMPTS: nat := 5
  const WINDOW: real := 600.0
  const LOCK_DURATION: real := 900.0
  const MAX_TRACKED_IPS: nat := 10_000

  datatype Attempts = Attempts(count: nat, windowStart: Instant, lockedUntil: Option<Instant>)

  type Tracked = map<Address, Attempts>

  /** `Instant::duration_since`, which saturates at zero. */
  function Since(now: Instant, start: Instant): real { if now > start then now - start else 0.0 }

  // ------------------------------------------------------------------ transitions

  function IsLockedStep(m: Tracked, ip: Address, now: Instant): (Tracked, bool) {
    if ip !in m then (m, false)
    else
      var entry := m[ip];
      if entry.lockedUntil.None? && Since(now, entry.windowStart) >= WINDOW then (m - {ip}, false)
      else
        match entry.lockedUntil
        case Some(until) => if now < until then (m, true) else (m - {ip}, false)
        case None => (m, false)
  }

  predicate Current(entry: Attempts, now: Instant) {
    match entry.lockedUntil
    case Some(until) => now < until
    case None => Since(now, entry.windowStart) < WINDOW
  }

  function EvictExpired(m: Tracked, now: Instant): Tracked {
    map k | k in m && Current(m[k], now) :: m[k]
  }

  /** The record dropped under pressure, if any: one with the oldest window. */
  ghost predicate IsVictim(m: Tracked, ip: Address, victim: Option<Address>) {
    if |m| >= MAX_TRACKED_IPS && ip !in m then
      && victim.Some? && victim.value in m
      && forall k :: k in m ==> m[victim.value].windowStart <= m[k].windowStart
    else victim.None?
  }

  function Fail(entry: Attempts, now: Instant): Attempts {
    var e := if Since(now, entry.windowStart) >= WINDOW then Attempts(0, now, None) else entry;
    e.(count := e.count + 1,
       lockedUntil := if e.count + 1 >= MAX_ATTEMPTS then Some(now + LOCK_DURATION) else e.lockedUntil)
  }

  /** `record_failure` reads the clock twice: for the eviction and for the record. */
  function FailureStep(m: Tracked, ip: Address, evictAt: Instant, now: Instant, victim: Option<Address>): Tracked {
    var kept := EvictExpired(m, evictAt);
    var room := if victim.Some? then kept - {victim.value} else kept;
    var entry := if ip in room then room[ip] else Attempts(0, now, None);
    room[ip := Fail(entry, now)]
  }

  class LoginAttemptTracker {
    var entries: Tracked

    constructor ()
      ensures entries == map[]
    {
      entries := map[];
    }

    method IsLocked(ip: Address, now: Instant) returns (locked: bool)
      modifies this
      ensures (entries, locked) == IsLockedStep(old(entries), ip, now)
    {
      if ip !in entries { return false; }
      var entry := entries[ip];
      if entry.lockedUntil.None? && Since(now, entry.windowStart) >= WINDOW {
        entries := entries - {ip};
        return false;
      }
      match entry.lockedUntil
      case Some(until) =>
        if now < until { return true; }
        entries := entries - {ip};
        return false;
      case None => return false;
    }

    /** `min_by_key` over the window starts. */
    method OldestWindow() returns (oldest: Address)
      requires entries != map[]
      ensures oldest in entries
      ensures forall k :: k in entries ==> entries[oldest].windowStart <= entries[k].windowStart
    {
      oldest :| oldest in entries;
      var rest := entries.Keys - {oldest};
      while rest != {}
        invariant oldest in entries && rest <= entries.Keys
        invariant forall k :: k in entries.Keys - rest ==> entries[oldest].windowStart <= entries[k].windowStart
        decreases rest
      {
        var k :| k in rest;
        if entries[k].windowStart < entries[oldest].windowStart { oldest := k; }
        rest := rest - {k};
      }
    }

    method RecordFailure(ip: Address, evictAt: Instant, now: Instant) returns (ghost victim: Option<Address>)
      modifies this
      ensures IsVictim(EvictExpired(old(entries), evictAt), ip, victim)
      ensures entries == FailureStep(old(entries), ip, evictAt, now, victim)
      ensures |old(entries)| <= MAX_TRACKED_IPS ==> |entries| <= MAX_TRACKED_IPS
    {
      ghost var before := entries;
      entries := EvictExpired(entries, evictAt);
      victim := None;
      if |entries| >= MAX_TRACKED_IPS && ip !in entries {
        var oldest := OldestWindow();
        victim := Some(oldest);
        entries := entries - {oldest};
      }
      var entry := if ip in entries then entries[ip] else Attempts(0, now, None);
      if Since(now, entry.windowStart) >= WINDOW {
        entry := Attempts(0, now, None);
      }
      entry := entry.(count := entry.count + 1);
      if entry.count >= MAX_ATTEMPTS {
        entry := entry.(lockedUntil := Some(now + LOCK_DURATION));
      }
      entries := entries[ip := entry];
      if |before| <= MAX_TRACKED_IPS { FailureKeepsBound(before, ip, evictAt, now, victim); }
    }

    method RecordSuccess(ip: Address)
      modifies this
      ensures entries == old(entries) - {ip}
    {
      entries := entries - {ip};
    }

    /** Any number of calls for other logins, between two calls of one login. */
    method Others(ghost start: Tracked, ghost before: seq<Call>, ghost dropped: seq<Option<Address>>)
      returns (ghost calls: seq<Call>, ghost victims: seq<Option<Address>>)
      requires Made(start, before, dropped, entries)
      modifies this
      ensures Made(start, calls, victims, entries) && before <= calls
    {
      hide CallStep, LegalCall;
      calls, victims := before, dropped;
      var n: nat :| true;
      while n > 0
        invariant Made(start, calls, victims, entries) && before <= calls
      {
        var c: Call := *;
        ghost var victim := Make(c);
        OneMoreCall(start, calls, victims, c, victim);
        calls, victims := calls + [c], victims + [victim];
        n := n - 1;
      }
    }

    method Make(c: Call) returns (ghost victim: Option<Address>)
      modifies this
      ensures LegalCall(old(entries), c, victim) && entries == CallStep(old(entries), c, victim)
    {
      hide IsLockedStep, FailureStep, IsVictim;
      victim := None;
      match c
      case Ask(ip, now) => var _ := IsLocked(ip, now);
      case Succeeded(ip, _) => RecordSuccess(ip);
      case Failed(ip, evictAt, now) => victim := RecordFailure(ip, evictAt, now);
    }

    /** The login handler: the guard, then a success or a failure. The lock is released in between, so
        calls of other logins may come there. */
    method PostLogin(a: Login)
      returns (response: Response, ghost calls: seq<Call>, ghost victims: seq<Option<Address>>)
      modifies this
      ensures Made(old(entries), calls, victims, entries) && |calls| > 0
      ensures calls[0] == Ask(a.ip, a.guardAt)
      ensures response == Respond(old(entries), a)
      ensures response.TooManyRequests? ==> |calls| == 1
      ensures response.SignedIn? ==>
        a.credentialsMatch && |calls| > 1 && calls[|calls| - 1] == Succeeded(a.ip, a.failAt) && a.ip !in entries
      ensures response.Unauthorized? ==>
        !a.credentialsMatch && |calls| > 1 && calls[|calls| - 1] == Failed(a.ip, a.evictAt, a.failAt)
        && a.ip in entries
    {
      hide IsLockedStep, FailureStep, IsVictim;
      ghost var m := entries;
      calls, victims := [Ask(a.ip, a.guardAt)], [None];
      OneMoreCall(m, [], [], calls[0], None);
      assert [] + calls == calls && [] + victims == victims;
      var locked := IsLocked(a.ip, a.guardAt);
      if locked { return TooManyRequests, calls, victims; }
      calls, victims := Others(m, calls, victims);
      ghost var victim := None;
      if a.credentialsMatch {
        RecordSuccess(a.ip);
        response := SignedIn;
      } else {
        ghost var before := entries;
        victim := RecordFailure(a.ip, a.evictAt, a.failAt);
        FailureIsTracked(before, a.ip, a.evictAt, a.failAt, victim);
        response := Unauthorized;
      }
      OneMoreCall(m, calls, victims, RecordOf(a), victim);
      calls, victims := calls + [RecordOf(a)], victims + [victim];
    }
  }

  lemma FailureIsTracked(m: Tracked, ip: Address, evictAt: Instant, now: Instant, victim: Option<Address>)
    ensures ip in FailureStep(m, ip, evictAt, now, victim)
  {
  }

  /** Under any run, with or without the guard, at most `MAX_TRACKED_IPS` addresses are tracked. */
  lemma FailureKeepsBound(m: Tracked, ip: Address, evictAt: Instant, now: Instant, victim: Option<Address>)
    requires |m| <= MAX_TRACKED_IPS && IsVictim(EvictExpired(m, evictAt), ip, victim)
    ensures |FailureStep(m, ip, evictAt, now, victim)| <= MAX_TRACKED_IPS
  {
    hide Current, Fail;
    var kept := EvictExpired(m, evictAt);
    SubsetIsSmaller(kept.Keys, m.Keys);
    var m' := FailureStep(m, ip, evictAt, now, victim);
    var room := if victim.Some? then kept.Keys - {victim.value} else kept.Keys;
    assert m'.Keys == room + {ip};
    if victim.Some? {
      assert kept.Keys == room + {victim.value};
    } else if ip in kept {
      assert room + {ip} == room;
    }
  }

  // ------------------------------------------------------------------ calls

  /** One call under the lock, with the clock readings it makes; `at` of a success is only its place in time. */
  datatype Call =
    | Ask(ip: Address, at: Instant)
    | Failed(ip: Address, evictAt: Instant, at: Instant)
    | Succeeded(ip: Address, at: Instant)

  function CallStep(m: Tracked, c: Call, victim: Option<Address>): Tracked {
    match c
    case Ask(ip, at) => IsLockedStep(m, ip, at).0
    case Failed(ip, evictAt, at) => FailureStep(m, ip, evictAt, at, victim)
    case Succeeded(ip, _) => m - {ip}
  }

  ghost predicate LegalCall(m: Tracked, c: Call, victim: Option<Address>) {
    if c.Failed? then IsVictim(EvictExpired(m, c.evictAt), c.ip, victim) else victim.None?
  }

  ghost function AfterCalls(m: Tracked, calls: seq<Call>, victims: seq<Option<Address>>): Tracked
    requires |victims| == |calls|
    decreases |calls|
  {
    var n := |calls| - 1;
    if n < 0 then m else CallStep(AfterCalls(m, calls[..n], victims[..n]), calls[n], victims[n])
  }

  /** The records dropped for room are ones the program may choose. */
  ghost predicate LegalCalls(m: Tracked, calls: seq<Call>, victims: seq<Option<Address>>)
    requires |victims| == |calls|
    decreases |calls|
  {
    var n := |calls| - 1;
    n >= 0 ==> LegalCalls(m, calls[..n], victims[..n])
               && LegalCall(AfterCalls(m, calls[..n], victims[..n]), calls[n], victims[n])
  }

  /** These calls, legally made from `m`, lead to `m'`. */
  ghost predicate Made(m: Tracked, calls: seq<Call>, victims: seq<Option<Address>>, m': Tracked) {
    |victims| == |calls| && LegalCalls(m, calls, victims) && m' == AfterCalls(m, calls, victims)
  }

  lemma OneMoreCall(m: Tracked, calls: seq<Call>, victims: seq<Option<Address>>, c: Call, victim: Option<Address>)
    requires |victims| == |calls| && LegalCalls(m, calls, victims)
    ensures AfterCalls(m, calls + [c], victims + [victim]) == CallStep(AfterCalls(m, calls, victims), c, victim)
    ensures LegalCalls(m, calls + [c], victims + [victim]) <==> LegalCall(AfterCalls(m, calls, victims), c, victim)
  {
    assert (calls + [c])[..|calls|] == calls && (victims + [victim])[..|calls|] == victims;
  }

  // ------------------------------------------------------------------ logins

  /** One login: the clock readings it would make, in order, and whether the credentials match. */
  datatype Login = Login(ip: Address, credentialsMatch: bool, guardAt: Instant, evictAt: Instant, failAt: Instant)

  datatype Response = TooManyRequests | SignedIn | Unauthorized

  /** What a login that passes the guard records. */
  function RecordOf(a: Login): Call {
    if a.credentialsMatch then Succeeded(a.ip, a.failAt) else Failed(a.ip, a.evictAt, a.failAt)
  }

  /** What a login whose guard sees `m` answers. */
  function Respond(m: Tracked, a: Login): Response {
    if IsLockedStep(m, a.ip, a.guardAt).1 then TooManyRequests
    else if a.credentialsMatch then SignedIn else Unauthorized
  }

  // ------------------------------------------------------------------ the specification

  /** One address's standing, from its own history alone. */
  datatype Standing = Clear | Counting(count: nat, since: Instant) | Locked(until: Instant, since: Instant)

  /** The standing at `now`: windows and locks lapse by themselves. */
  ghost function Lapsed(st: Standing, now: Instant): Standing {
    match st
    case Clear => Clear
    case Counting(_, since) => if now - since >= WINDOW then Clear else st
    case Locked(until, _) => if now >= until then Clear else st
  }

  /** A failure that lands on a lock prolongs it, or, once the window it grew from is over, replaces it. */
  ghost function AfterFailure(st: Standing, now: Instant): Standing {
    match Lapsed(st, now)
    case Clear => Counting(1, now)
    case Counting(count, since) =>
      if count + 1 >= MAX_ATTEMPTS then Locked(now + LOCK_DURATION, since) else Counting(count + 1, since)
    case Locked(_, since) => if now - since >= WINDOW then Counting(1, now) else Locked(now + LOCK_DURATION, since)
  }

  ghost function SpecCall(st: Standing, c: Call): Standing {
    match c
    case Ask(_, _) => st
    case Failed(_, _, at) => AfterFailure(st, at)
    case Succeeded(_, _) => Clear
  }

  ghost function CallHistory(calls: seq<Call>, ip: Address): Standing {
    if |calls| == 0 then Clear
    else
      var st := CallHistory(calls[..|calls| - 1], ip);
      var c := calls[|calls| - 1];
      if c.ip == ip then SpecCall(st, c) else st
  }

  ghost function SpecRespond(st: Standing, a: Login): Response {
    if Lapsed(st, a.guardAt).Locked? then TooManyRequests
    else if a.credentialsMatch then SignedIn else Unauthorized
  }

  /** The program's record of an address and its specified standing, at or after `now`. */
  ghost predicate Matches(m: Tracked, ip: Address, st: Standing, now: Instant) {
    if ip !in m then Lapsed(st, now).Clear?
    else
      match m[ip].lockedUntil
      case None =>
        && st == Counting(m[ip].count, m[ip].windowStart) && m[ip].count < MAX_ATTEMPTS
        && m[ip].windowStart <= now
      case Some(until) =>
        && st == Locked(until, m[ip].windowStart) && m[ip].count >= MAX_ATTEMPTS
        && m[ip].windowStart <= now && m[ip].windowStart + LOCK_DURATION <= until
  }

  lemma MatchesLater(m: Tracked, ip: Address, st: Standing, now: Instant, later: Instant)
    requires Matches(m, ip, st, now) && now <= later
    ensures Matches(m, ip, st, later)
  {
  }

  lemma GuardMatches(m: Tracked, asked: Address, ip: Address, st: Standing, now: Instant)
    requires Matches(m, ip, st, now)
    ensures Matches(IsLockedStep(m, asked, now).0, ip, st, now)
    ensures asked == ip ==> IsLockedStep(m, asked, now).1 == Lapsed(st, now).Locked?
  {
  }

  lemma FailureMatches(m: Tracked, failed: Address, ip: Address, st: Standing, evictAt: Instant, now: Instant,
                       victim: Option<Address>)
    requires Matches(m, ip, st, evictAt) && evictAt <= now && victim != Some(ip)
    ensures Matches(FailureStep(m, failed, evictAt, now, victim), ip,
                    if failed == ip then AfterFailure(st, now) else st, now)
  {
    hide IsVictim;
    var kept := EvictExpired(m, evictAt);
    assert Matches(kept, ip, st, evictAt);
    MatchesLater(kept, ip, st, evictAt, now);
  }

  lemma SuccessMatches(m: Tracked, cleared: Address, ip: Address, st: Standing, now: Instant)
    requires Matches(m, ip, st, now)
    ensures Matches(m - {cleared}, ip, if cleared == ip then Clear else st, now)
  {
  }

  /** The first clock reading of a call; its last is `at`. */
  function Opens(c: Call): Instant { if c.Failed? then c.evictAt else c.at }

  /** One call keeps the match for every address it does not displace. */
  lemma CallMatches(m: Tracked, c: Call, ip: Address, st: Standing, victim: Option<Address>, now: Instant)
    requires now <= Opens(c) <= c.at && victim != Some(ip) && Matches(m, ip, st, now)
    ensures Matches(CallStep(m, c, victim), ip, if c.ip == ip then SpecCall(st, c) else st, c.at)
  {
    MatchesLater(m, ip, st, now, Opens(c));
    hide Matches, FailureStep, IsLockedStep, AfterFailure;
    match c
    case Ask(asked, at) => GuardMatches(m, asked, ip, st, at);
    case Failed(failed, evictAt, at) => FailureMatches(m, failed, ip, st, evictAt, at, victim);
    case Succeeded(cleared, at) => SuccessMatches(m, cleared, ip, st, at);
  }

  // ------------------------------------------------------------------ interleaved calls

  ghost predicate CallsInOrder(calls: seq<Call>) {
    && (forall i :: 0 <= i < |calls| ==> Opens(calls[i]) <= calls[i].at)
    && (forall i, j :: 0 <= i < j < |calls| ==> calls[i].at <= Opens(calls[j]))
  }

  lemma MatchesEmpty(ip: Address, now: Instant)
    ensures Matches(map[], ip, Clear, now)
  {
  }

  lemma {:induction false} CallsMatch(calls: seq<Call>, victims: seq<Option<Address>>, ip: Address, now: Instant)
    requires |victims| == |calls| && CallsInOrder(calls) && Some(ip) !in victims
    requires |calls| > 0 ==> calls[|calls| - 1].at <= now
    ensures Matches(AfterCalls(map[], calls, victims), ip, CallHistory(calls, ip), now)
    decreases |calls|
  {
    hide Matches, CallStep, SpecCall;
    var n := |calls| - 1;
    if n < 0 {
      MatchesEmpty(ip, now);
    } else {
      var c, st := calls[n], CallHistory(calls[..n], ip);
      CallsMatch(calls[..n], victims[..n], ip, Opens(c));
      var m := AfterCalls(map[], calls[..n], victims[..n]);
      CallMatches(m, c, ip, st, victims[n], Opens(c));
      MatchesLater(CallStep(m, c, victims[n]), ip, if c.ip == ip then SpecCall(st, c) else st, c.at, now);
    }
  }

  /** Over every interleaving of the calls of any number of concurrent logins, guarded or not, for an
      address whose own record is never dropped for room, `is_locked` answers what that address's own
      calls say. */
  lemma {:induction false} CallsFollowHistory(
    calls: seq<Call>, victims: seq<Option<Address>>, ip: Address, now: Instant)
    requires |victims| == |calls| && CallsInOrder(calls) && Some(ip) !in victims
    requires |calls| > 0 ==> calls[|calls| - 1].at <= now
    ensures IsLockedStep(AfterCalls(map[], calls, victims), ip, now).1 <==> Lapsed(CallHistory(calls, ip), now).Locked?
  {
    hide Matches, IsLockedStep, Lapsed;
    CallsMatch(calls, victims, ip, now);
    GuardMatches(AfterCalls(map[], calls, victims), ip, ip, CallHistory(calls, ip), now);
  }

  // ------------------------------------------------------------------ what is kept, and for how long

  /** A record still says something at `now`: its lock stands, or its window of ten minutes is open. */
  predicate IsLive(entry: Attempts, now: Instant) {
    if entry.lockedUntil.Some? then now < entry.lockedUntil.value else now - entry.windowStart < 600.0
  }

  /** A guard drops its address's record exactly when it is no longer live, and touches no other. */
  lemma GuardForgets(m: Tracked, ip: Address, now: Instant)
    ensures var (m', locked) := IsLockedStep(m, ip, now);
      && m' == (if ip in m && !IsLive(m[ip], now) then m - {ip} else m)
      && (locked <==> ip in m && m[ip].lockedUntil.Some? && now < m[ip].lockedUntil.value)
  {
  }

  /** A failure drops exactly the records of others that are no longer live, and the displaced one. */
  lemma FailureForgets(m: Tracked, ip: Address, evictAt: Instant, now: Instant, victim: Option<Address>, k: Address)
    requires k != ip
    ensures var m' := FailureStep(m, ip, evictAt, now, victim);
      && (k in m' <==> k in m && IsLive(m[k], evictAt) && victim != Some(k))
      && (k in m' ==> m'[k] == m[k])
  {
  }

  ghost function LiveIn(m: Tracked, now: Instant): set<Address> { set k | k in m && IsLive(m[k], now) }

  /** In every run, a record is displaced only by a new address while 10,000 records are live, all of them
      with windows at least as young. */
  lemma DisplacedOnlyWhenFull(calls: seq<Call>, victims: seq<Option<Address>>, n: nat)
    requires |victims| == |calls| && LegalCalls(map[], calls, victims) && n < |calls| && victims[n].Some?
    ensures calls[n].Failed?
    ensures var m, live := AfterCalls(map[], calls[..n], victims[..n]),
                           LiveIn(AfterCalls(map[], calls[..n], victims[..n]), calls[n].evictAt);
      && |live| == 10_000 && calls[n].ip !in live && victims[n].value in live
      && forall k :: k in live ==> m[victims[n].value].windowStart <= m[k].windowStart
  {
    hide CallStep;
    PrefixIsLegal(calls, victims, n);
    var m := AfterCalls(map[], calls[..n], victims[..n]);
    CallsAreBounded(calls[..n], victims[..n]);
    LiveIsKept(m, calls[n].evictAt);
    SubsetIsSmaller(LiveIn(m, calls[n].evictAt), m.Keys);
  }

  lemma LiveIsKept(m: Tracked, now: Instant)
    ensures EvictExpired(m, now).Keys == LiveIn(m, now)
  {
  }

  lemma {:induction false} PrefixIsLegal(calls: seq<Call>, victims: seq<Option<Address>>, n: nat)
    requires |victims| == |calls| && LegalCalls(map[], calls, victims) && n < |calls|
    ensures LegalCalls(map[], calls[..n], victims[..n])
    ensures LegalCall(AfterCalls(map[], calls[..n], victims[..n]), calls[n], victims[n])
    decreases |calls|
  {
    hide CallStep, LegalCall;
    var last := |calls| - 1;
    if n < last {
      PrefixIsLegal(calls[..last], victims[..last], n);
      assert calls[..last][..n] == calls[..n] && victims[..last][..n] == victims[..n];
    }
  }

  /** The memory bound holds under every interleaving, whoever is displaced. */
  lemma {:induction false} CallsAreBounded(calls: seq<Call>, victims: seq<Option<Address>>)
    requires |victims| == |calls| && LegalCalls(map[], calls, victims)
    ensures |AfterCalls(map[], calls, victims)| <= 10_000
    decreases |calls|
  {
    var n := |calls| - 1;
    if n >= 0 {
      CallsAreBounded(calls[..n], victims[..n]);
      CallKeepsBound(AfterCalls(map[], calls[..n], victims[..n]), calls[n], victims[n]);
    }
  }

  lemma CallKeepsBound(m: Tracked, c: Call, victim: Option<Address>)
    requires |m| <= MAX_TRACKED_IPS && LegalCall(m, c, victim)
    ensures |CallStep(m, c, victim)| <= MAX_TRACKED_IPS
  {
    hide FailureStep, IsVictim;
    match c
    case Ask(ip, at) => SubsetIsSmaller(IsLockedStep(m, ip, at).0.Keys, m.Keys);
    case Failed(ip, evictAt, at) => FailureKeepsBound(m, ip, evictAt, at, victim);
    case Succeeded(ip, _) => SubsetIsSmaller((m - {ip}).Keys, m.Keys);
  }
}
