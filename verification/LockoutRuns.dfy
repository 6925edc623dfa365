/**
 Locks and logins over whole runs of interleaved calls: what a login answers, what locks an address,
 and exactly when a lock stands until its time.
 */
module LockoutRuns {
  import opened Common
  import opened Lockout

  /** Whether `is_locked` says yes to `ip` at `t`, after the first n calls. */
  ghost predicate LockedAt(calls: seq<Call>, victims: seq<Option<Address>>, ip: Address, n: nat, t: Instant)
    requires |victims| == |calls| && n <= |calls|
  {
    IsLockedStep(AfterCalls(map[], calls[..n], victims[..n]), ip, t).1
  }

  /** What the address's own calls among the first n say. */
  ghost function StandingAt(calls: seq<Call>, ip: Address, n: nat): Standing
    requires n <= |calls|
  {
    CallHistory(calls[..n], ip)
  }

  lemma StandingMoves(calls: seq<Call>, ip: Address, n: nat)
    requires n < |calls|
    ensures StandingAt(calls, ip, n + 1) ==
      if calls[n].ip == ip then SpecCall(StandingAt(calls, ip, n), calls[n]) else StandingAt(calls, ip, n)
  {
    assert calls[..n + 1][..n] == calls[..n];
  }

  lemma AnswerAt(calls: seq<Call>, victims: seq<Option<Address>>, ip: Address, n: nat, t: Instant)
    requires |victims| == |calls| && n <= |calls| && CallsInOrder(calls) && Some(ip) !in victims
    requires n > 0 ==> calls[n - 1].at <= t
    ensures LockedAt(calls, victims, ip, n, t) <==> Lapsed(StandingAt(calls, ip, n), t).Locked?
  {
    CallsFollowHistory(calls[..n], victims[..n], ip, t);
  }

  /** Logins answer as their address's own history says, however their calls are interleaved. */
  lemma LoginsFollowHistory(calls: seq<Call>, victims: seq<Option<Address>>, a: Login, g: nat)
    requires |victims| == |calls| && CallsInOrder(calls) && Some(a.ip) !in victims
    requires g < |calls| && calls[g] == Ask(a.ip, a.guardAt)
    ensures Respond(AfterCalls(map[], calls[..g], victims[..g]), a) == SpecRespond(StandingAt(calls, a.ip, g), a)
  {
    hide IsLockedStep, Lapsed;
    AnswerAt(calls, victims, a.ip, g, a.guardAt);
  }

  // ------------------------------------------------------------------ what locks an address

  /** The successes and failures of one address, in order. */
  ghost function Records(calls: seq<Call>, ip: Address): seq<Call> {
    if |calls| == 0 then []
    else
      var n := |calls| - 1;
      Records(calls[..n], ip) + if calls[n].ip == ip && !calls[n].Ask? then [calls[n]] else []
  }

  ghost function Fold(st: Standing, records: seq<Call>): Standing {
    if |records| == 0 then st else SpecCall(Fold(st, records[..|records| - 1]), records[|records| - 1])
  }

  lemma FoldGrows(st: Standing, records: seq<Call>, c: Call)
    ensures Fold(st, records + [c]) == SpecCall(Fold(st, records), c)
  {
    assert (records + [c])[..|records|] == records;
  }

  lemma RecordsGrow(calls: seq<Call>, ip: Address)
    requires calls != []
    ensures var n := |calls| - 1;
      Records(calls, ip) == if calls[n].ip == ip && !calls[n].Ask? then Records(calls[..n], ip) + [calls[n]]
                            else Records(calls[..n], ip)
  {
  }

  lemma HistoryGrows(calls: seq<Call>, c: Call, ip: Address)
    ensures CallHistory(calls + [c], ip) ==
      if c.ip == ip then SpecCall(CallHistory(calls, ip), c) else CallHistory(calls, ip)
  {
    assert (calls + [c])[..|calls|] == calls;
  }

  lemma NothingFolds(calls: seq<Call>, ip: Address)
    ensures CallHistory(calls + [], ip) == Fold(CallHistory(calls, ip), Records([], ip))
  {
    assert calls + [] == calls;
  }

  /** Guards, and the calls of other addresses, never change a standing. */
  lemma {:induction false} HistoryIsFold(calls: seq<Call>, more: seq<Call>, ip: Address)
    ensures CallHistory(calls + more, ip) == Fold(CallHistory(calls, ip), Records(more, ip))
    decreases |more|
  {
    hide Fold, Records, CallHistory;
    var n := |more| - 1;
    if n < 0 {
      assert more == [];
      NothingFolds(calls, ip);
    } else {
      HistoryIsFold(calls, more[..n], ip);
      RecordsGrow(more, ip);
      FoldGrows(CallHistory(calls, ip), Records(more[..n], ip), more[n]);
      assert calls + more == (calls + more[..n]) + [more[n]];
      HistoryGrows(calls + more[..n], more[n], ip);
    }
  }

  lemma {:induction false} FailuresFold(st: Standing, f: seq<Call>)
    requires 0 < |f| && forall i :: 0 <= i < |f| ==> f[i].Failed?
    requires forall i, j :: 0 <= i < j < |f| ==> f[i].at <= f[j].at < f[i].at + WINDOW
    requires Lapsed(st, f[0].at).Clear?
    ensures Fold(st, f) ==
      if |f| < MAX_ATTEMPTS then Counting(|f|, f[0].at) else Locked(f[|f| - 1].at + LOCK_DURATION, f[0].at)
    decreases |f|
  {
    if |f| == 1 {
      assert Fold(st, f[..0]) == st;
    } else {
      FailuresFold(st, f[..|f| - 1]);
    }
  }

  /** From a standing that has lapsed, n failures inside one window opened by the first lock the address
      exactly when n reaches five, until fifteen minutes after the fifth, whatever guards of this address
      and calls of others come in between. */
  lemma FiveFailuresLock(calls: seq<Call>, more: seq<Call>, ip: Address)
    requires var f := Records(more, ip);
      && 0 < |f| && (forall i :: 0 <= i < |f| ==> f[i].Failed?)
      && (forall i, j :: 0 <= i < j < |f| ==> f[i].at <= f[j].at < f[i].at + WINDOW)
      && Lapsed(CallHistory(calls, ip), f[0].at).Clear?
    ensures var f := Records(more, ip);
      CallHistory(calls + more, ip) ==
      if |f| < MAX_ATTEMPTS then Counting(|f|, f[0].at) else Locked(f[|f| - 1].at + LOCK_DURATION, f[0].at)
  {
    hide CallHistory, Records, Fold;
    HistoryIsFold(calls, more, ip);
    FailuresFold(CallHistory(calls, ip), Records(more, ip));
  }

  // ------------------------------------------------------------------ how long a lock stands

  /** A success, or a failure once the window that the lock grew from is over. */
  predicate Lifts(c: Call, ip: Address, since: Instant) {
    c.ip == ip && (c.Succeeded? || (c.Failed? && c.at - since >= WINDOW))
  }

  /** Of the calls made for an address while it is locked, exactly those lift the lock; any other failure
      prolongs it. */
  lemma LockSurvives(st: Standing, c: Call)
    requires st.Locked? && c.at < st.until
    ensures SpecCall(st, c).Locked? <==> !Lifts(c, c.ip, st.since)
    ensures SpecCall(st, c).Locked? ==>
      SpecCall(st, c) == Locked(if c.Failed? then c.at + LOCK_DURATION else st.until, st.since)
    ensures !SpecCall(st, c).Locked? ==> !Lapsed(SpecCall(st, c), c.at).Locked?
  {
  }

  /** A lock was set, or last prolonged, by a failure fifteen minutes before its end. */
  lemma {:induction false} LockIsRecent(calls: seq<Call>, ip: Address, n: nat)
    requires n <= |calls| && CallsInOrder(calls) && StandingAt(calls, ip, n).Locked?
    ensures n > 0 && StandingAt(calls, ip, n).until <= calls[n - 1].at + LOCK_DURATION
  {
    hide SpecCall;
    if n > 0 {
      StandingMoves(calls, ip, n - 1);
      var st := StandingAt(calls, ip, n - 1);
      hide StandingAt;
      if calls[n - 1].ip == ip { LockIsSetByFailure(st, calls[n - 1]); }
      if st.Locked? && (calls[n - 1].ip != ip || calls[n - 1].Ask?) { LockIsRecent(calls, ip, n - 1); }
    }
  }

  lemma LockIsSetByFailure(st: Standing, c: Call)
    ensures SpecCall(st, c).Locked? ==>
      if c.Ask? then SpecCall(st, c) == st else SpecCall(st, c).until == c.at + LOCK_DURATION
  {
  }

  /** No call from `from` up to `n` lifts a lock that grew from `since`. */
  ghost predicate NoneLifts(calls: seq<Call>, ip: Address, from: nat, n: nat, since: Instant)
    requires n <= |calls|
  {
    forall i :: from <= i < n ==> !Lifts(calls[i], ip, since)
  }

  lemma {:induction false} LockedUpTo(calls: seq<Call>, ip: Address, from: nat, n: nat, until: Instant, since: Instant)
    requires from <= n <= |calls| && CallsInOrder(calls) && StandingAt(calls, ip, from) == Locked(until, since)
    requires NoneLifts(calls, ip, from, n, since) && (n > from ==> calls[n - 1].at < until)
    ensures StandingAt(calls, ip, n).Locked?
    ensures StandingAt(calls, ip, n).since == since && StandingAt(calls, ip, n).until >= until
  {
    hide StandingAt, SpecCall, Lapsed;
    if n > from {
      assert n > from + 1 ==> calls[n - 2].at <= Opens(calls[n - 1]) <= calls[n - 1].at;
      LockedUpTo(calls, ip, from, n - 1, until, since);
      StandingMoves(calls, ip, n - 1);
      LockSurvives(StandingAt(calls, ip, n - 1), calls[n - 1]);
      LockIsRecent(calls, ip, from);
      assert calls[from - 1].at <= Opens(calls[n - 1]) <= calls[n - 1].at;
    }
  }

  /** `is_locked` says yes at every moment from the n-th call on until `until`. */
  ghost predicate HoldsUntil(calls: seq<Call>, victims: seq<Option<Address>>, ip: Address, from: nat, until: Instant)
    requires |victims| == |calls|
  {
    forall n: nat, t: Instant :: from <= n <= |calls| && (n > 0 ==> calls[n - 1].at <= t) && t < until ==>
      LockedAt(calls, victims, ip, n, t)
  }

  lemma LocksHold(calls: seq<Call>, victims: seq<Option<Address>>, ip: Address, from: nat, until: Instant,
                  since: Instant, n: nat, t: Instant)
    requires |victims| == |calls| && CallsInOrder(calls) && Some(ip) !in victims
    requires from <= n <= |calls| && StandingAt(calls, ip, from) == Locked(until, since)
    requires NoneLifts(calls, ip, from, n, since) && (n > 0 ==> calls[n - 1].at <= t) && t < until
    ensures LockedAt(calls, victims, ip, n, t)
  {
    hide LockedAt, StandingAt;
    LockedUpTo(calls, ip, from, n, until, since);
    AnswerAt(calls, victims, ip, n, t);
  }

  /** The first lifting call ends the lock at once. */
  lemma LiftEndsLock(calls: seq<Call>, victims: seq<Option<Address>>, ip: Address, from: nat, until: Instant,
                     since: Instant, k: nat)
    requires |victims| == |calls| && CallsInOrder(calls) && Some(ip) !in victims
    requires from <= k < |calls| && StandingAt(calls, ip, from) == Locked(until, since)
    requires NoneLifts(calls, ip, from, k, since) && Lifts(calls[k], ip, since) && calls[k].at < until
    ensures !LockedAt(calls, victims, ip, k + 1, calls[k].at)
  {
    hide LockedAt, StandingAt, SpecCall, Lapsed;
    assert k > from ==> calls[k - 1].at <= Opens(calls[k]) <= calls[k].at;
    LockedUpTo(calls, ip, from, k, until, since);
    StandingMoves(calls, ip, k);
    LockSurvives(StandingAt(calls, ip, k), calls[k]);
    AnswerAt(calls, victims, ip, k + 1, calls[k].at);
  }

  /** Over every interleaving, a lock stands until its time if and only if, before that time, no success of
      its address and no failure after the end of its window gets through. */
  lemma LockHoldsExactly(calls: seq<Call>, victims: seq<Option<Address>>, ip: Address, from: nat, until: Instant,
                         since: Instant)
    requires |victims| == |calls| && CallsInOrder(calls) && Some(ip) !in victims
    requires from <= |calls| && StandingAt(calls, ip, from) == Locked(until, since)
    ensures HoldsUntil(calls, victims, ip, from, until) <==>
      forall i :: from <= i < |calls| && calls[i].at < until ==> !Lifts(calls[i], ip, since)
  {
    hide LockedAt, StandingAt, Lifts;
    if forall i :: from <= i < |calls| && calls[i].at < until ==> !Lifts(calls[i], ip, since) {
      forall n: nat, t: Instant | from <= n <= |calls| && (n > 0 ==> calls[n - 1].at <= t) && t < until
        ensures LockedAt(calls, victims, ip, n, t)
      {
        forall i | from <= i < n ensures !Lifts(calls[i], ip, since) {
          assert i < n - 1 ==> calls[i].at <= Opens(calls[n - 1]) <= calls[n - 1].at;
        }
        LocksHold(calls, victims, ip, from, until, since, n, t);
      }
    } else {
      var i :| from <= i < |calls| && calls[i].at < until && Lifts(calls[i], ip, since);
      var k := from;
      while !Lifts(calls[k], ip, since)
        invariant from <= k <= i && NoneLifts(calls, ip, from, k, since)
        decreases i - k
      {
        k := k + 1;
      }
      assert k < i ==> calls[k].at <= Opens(calls[i]) <= calls[i].at;
      LiftEndsLock(calls, victims, ip, from, until, since, k);
      assert !LockedAt(calls, victims, ip, k + 1, calls[k].at);
    }
  }

  // ------------------------------------------------------------------ a slow login lifts a lock

  ghost function Repeat(c: Call, n: nat): seq<Call> { seq(n, _ => c) }

  /** Six logins ask at time zero; five of them fail at once, and the sixth at 700. */
  ghost function SlowRun(ip: Address): (calls: seq<Call>)
    ensures |calls| == 12
  {
    Repeat(Ask(ip, 0.0), 6) + Repeat(Failed(ip, 0.0, 0.0), 5) + [Failed(ip, 700.0, 700.0)]
  }

  ghost function Nobody(n: nat): seq<Option<Address>> { seq(n, _ => None) }

  /** Calls for a single address leave room, so nothing is dropped. */
  lemma {:induction false} OneAddressDropsNothing(calls: seq<Call>, ip: Address)
    requires forall i :: 0 <= i < |calls| ==> calls[i].ip == ip
    ensures LegalCalls(map[], calls, Nobody(|calls|)) && AfterCalls(map[], calls, Nobody(|calls|)).Keys <= {ip}
    decreases |calls|
  {
    var n := |calls| - 1;
    if n >= 0 {
      OneAddressDropsNothing(calls[..n], ip);
      assert Nobody(n + 1)[..n] == Nobody(n);
      CallForOneAddress(AfterCalls(map[], calls[..n], Nobody(n)), calls[n]);
    }
  }

  lemma CallForOneAddress(m: Tracked, c: Call)
    requires m.Keys <= {c.ip}
    ensures LegalCall(m, c, None) && CallStep(m, c, None).Keys <= {c.ip}
  {
    SubsetIsSmaller(m.Keys, {c.ip});
    if c.Failed? { SubsetIsSmaller(EvictExpired(m, c.evictAt).Keys, {c.ip}); }
  }

  lemma {:induction false} SlowRunStandings(ip: Address, n: nat)
    requires n <= 12
    ensures StandingAt(SlowRun(ip), ip, n) ==
      if n <= 6 then Clear
      else if n <= 10 then Counting(n - 6, 0.0)
      else if n == 11 then Locked(900.0, 0.0)
      else Counting(1, 700.0)
  {
    if n > 0 {
      SlowRunStandings(ip, n - 1);
      StandingMoves(SlowRun(ip), ip, n - 1);
      hide StandingAt;
    }
  }

  /** A run of the program in which every guard finds the address open, five failures lock it until 900,
      and the sixth login, failing at 700, opens it again at once. */
  lemma LateFailureUnlocks(ip: Address)
    ensures var calls, victims := SlowRun(ip), Nobody(12);
      && CallsInOrder(calls) && LegalCalls(map[], calls, victims)
      && (forall g :: 0 <= g < 6 ==> calls[g] == Ask(ip, 0.0) && !LockedAt(calls, victims, ip, g, 0.0))
      && calls[11] == Failed(ip, 700.0, 700.0)
      && LockedAt(calls, victims, ip, 11, 700.0) && !LockedAt(calls, victims, ip, 12, 700.0)
  {
    hide LockedAt, StandingAt, LegalCalls, AfterCalls;
    var calls, victims := SlowRun(ip), Nobody(12);
    OneAddressDropsNothing(calls, ip);
    forall g | 0 <= g < 6 ensures !LockedAt(calls, victims, ip, g, 0.0) {
      SlowRunStandings(ip, g);
      AnswerAt(calls, victims, ip, g, 0.0);
    }
    SlowRunStandings(ip, 11);
    AnswerAt(calls, victims, ip, 11, 700.0);
    SlowRunStandings(ip, 12);
    AnswerAt(calls, victims, ip, 12, 700.0);
  }

  // ------------------------------------------------------------------ logins of one address in turn

  /** The record at `i` belongs to a login whose guard, the last call of its address before it, found no lock. */
  ghost predicate FollowsItsGuard(calls: seq<Call>, victims: seq<Option<Address>>, ip: Address, i: nat)
    requires |victims| == |calls| && i < |calls|
  {
    exists g :: 0 <= g < i && IsGuardOf(calls, victims, ip, i, g)
  }

  ghost predicate IsGuardOf(calls: seq<Call>, victims: seq<Option<Address>>, ip: Address, i: nat, g: nat)
    requires |victims| == |calls| && g < i < |calls|
  {
    && calls[g].Ask? && calls[g].ip == ip && !LockedAt(calls, victims, ip, g, calls[g].at)
    && forall k :: g < k < i ==> calls[k].ip != ip
  }

  /** The address only asks. */
  ghost predicate OnlyAsks(calls: seq<Call>, ip: Address, from: nat, n: nat)
    requires n <= |calls|
  {
    forall i :: from <= i < n && calls[i].ip == ip ==> calls[i].Ask?
  }

  lemma {:induction false} AskingChangesNothing(calls: seq<Call>, ip: Address, from: nat, n: nat)
    requires from <= n <= |calls| && OnlyAsks(calls, ip, from, n)
    ensures StandingAt(calls, ip, n) == StandingAt(calls, ip, from)
  {
    hide StandingAt;
    if from < n {
      AskingChangesNothing(calls, ip, from, n - 1);
      StandingMoves(calls, ip, n - 1);
    }
  }

  /** While the lock stands, no record that follows its guard can come. */
  lemma NoRecordOnLock(calls: seq<Call>, victims: seq<Option<Address>>, ip: Address, from: nat, i: nat)
    requires |victims| == |calls| && CallsInOrder(calls) && Some(ip) !in victims
    requires from <= i < |calls| && StandingAt(calls, ip, from).Locked? && OnlyAsks(calls, ip, from, i)
    requires calls[i].at < StandingAt(calls, ip, from).until
    ensures !FollowsItsGuard(calls, victims, ip, i)
  {
    hide StandingAt, LockedAt;
    if FollowsItsGuard(calls, victims, ip, i) {
      var g: nat :| g < i && IsGuardOf(calls, victims, ip, i, g);
      if g < from { AskingChangesNothing(calls, ip, g, from); } else { AskingChangesNothing(calls, ip, from, g); }
      assert g > 0 ==> calls[g - 1].at <= Opens(calls[g]) <= calls[g].at;
      assert calls[g].at <= Opens(calls[i]) <= calls[i].at;
      AnswerAt(calls, victims, ip, g, calls[g].at);
      assert false;
    }
  }

  lemma {:induction false} OnlyAsksWhileLocked(
    calls: seq<Call>, victims: seq<Option<Address>>, ip: Address, from: nat, n: nat)
    requires |victims| == |calls| && CallsInOrder(calls) && Some(ip) !in victims
    requires from <= n <= |calls| && StandingAt(calls, ip, from).Locked?
    requires n > from ==> calls[n - 1].at < StandingAt(calls, ip, from).until
    requires forall i :: from <= i < n && calls[i].ip == ip && !calls[i].Ask? ==> FollowsItsGuard(calls, victims, ip, i)
    ensures OnlyAsks(calls, ip, from, n)
  {
    hide StandingAt, FollowsItsGuard;
    if from < n {
      assert n > from + 1 ==> calls[n - 2].at <= Opens(calls[n - 1]) <= calls[n - 1].at;
      OnlyAsksWhileLocked(calls, victims, ip, from, n - 1);
      NoRecordOnLock(calls, victims, ip, from, n - 1);
    }
  }

  /** An address whose logins come one after the other, each record right after its own guard, is never
      unlocked early nor locked longer, however logins of other addresses are interleaved. */
  lemma LockLasts(calls: seq<Call>, victims: seq<Option<Address>>, ip: Address, from: nat, n: nat)
    requires |victims| == |calls| && CallsInOrder(calls) && Some(ip) !in victims
    requires from <= n <= |calls| && StandingAt(calls, ip, from).Locked?
    requires n > from ==> calls[n - 1].at < StandingAt(calls, ip, from).until
    requires forall i :: from <= i < n && calls[i].ip == ip && !calls[i].Ask? ==> FollowsItsGuard(calls, victims, ip, i)
    ensures StandingAt(calls, ip, n) == StandingAt(calls, ip, from)
    ensures forall t: Instant :: (n > 0 ==> calls[n - 1].at <= t) ==>
      (LockedAt(calls, victims, ip, n, t) <==> t < StandingAt(calls, ip, from).until)
  {
    hide StandingAt, LockedAt, FollowsItsGuard;
    OnlyAsksWhileLocked(calls, victims, ip, from, n);
    AskingChangesNothing(calls, ip, from, n);
    forall t: Instant | n > 0 ==> calls[n - 1].at <= t
      ensures LockedAt(calls, victims, ip, n, t) <==> t < StandingAt(calls, ip, from).until
    {
      AnswerAt(calls, victims, ip, n, t);
    }
  }

  // ------------------------------------------------------------------ from logins to answers

  /** A login that asked at call `g` and left its record at call `k`. */
  datatype Placed = Placed(login: Login, g: nat, k: nat)

  /** The login was let through and left what `PostLogin` leaves. */
  ghost predicate Served(calls: seq<Call>, victims: seq<Option<Address>>, p: Placed, response: Response)
    requires |victims| == |calls|
  {
    var a := p.login;
    && p.g < p.k < |calls| && calls[p.g] == Ask(a.ip, a.guardAt)
    && response == Respond(AfterCalls(map[], calls[..p.g], victims[..p.g]), a)
    && match response
       case TooManyRequests => false
       case SignedIn => calls[p.k] == Succeeded(a.ip, a.failAt)
       case Unauthorized => calls[p.k] == Failed(a.ip, a.evictAt, a.failAt)
  }

  /** Logins of one address, all answered Unauthorized within ten minutes of the first; between their records
      the address makes no other. */
  ghost predicate AllUnauthorized(calls: seq<Call>, victims: seq<Option<Address>>, ip: Address, ps: seq<Placed>)
    requires |victims| == |calls|
  {
    && 0 < |ps|
    && (forall j :: 0 <= j < |ps| ==> ps[j].login.ip == ip && Served(calls, victims, ps[j], Unauthorized))
    && (forall j :: 0 <= j < |ps| ==> ps[j].login.failAt < ps[0].login.failAt + 600.0)
    && forall j {:trigger ps[j]} :: 0 < j < |ps| ==> Follows(calls, ip, ps[j - 1].k, ps[j].k)
  }

  ghost predicate Follows(calls: seq<Call>, ip: Address, k: nat, next: nat) {
    k < next <= |calls| && OnlyAsks(calls, ip, k + 1, next)
  }

  /** The first of them opens a window: nothing that the address did before still counts. */
  ghost predicate OpensWindow(calls: seq<Call>, ip: Address, k: nat)
    requires k < |calls|
  {
    Lapsed(StandingAt(calls, ip, k), calls[k].at).Clear?
  }

  lemma PlacedAt(calls: seq<Call>, victims: seq<Option<Address>>, ip: Address, ps: seq<Placed>, j: nat)
    requires |victims| == |calls| && j < |ps| && AllUnauthorized(calls, victims, ip, ps)
    ensures var a := ps[j].login;
      && ps[j].k < |calls| && calls[ps[j].k] == Failed(ip, a.evictAt, a.failAt)
      && a.failAt < ps[0].login.failAt + 600.0
    ensures j > 0 ==> Follows(calls, ip, ps[j - 1].k, ps[j].k)
  {
    hide Respond;
    assert Served(calls, victims, ps[j], Unauthorized) && ps[j].login.ip == ip;
  }

  /** The standing after n failures, the first at `first` and the last at `last`. */
  ghost function AfterFailures(n: nat, first: Instant, last: Instant): Standing {
    if n == 0 then Clear else if n < 5 then Counting(n, first) else Locked(last + 900.0, first)
  }

  lemma OneMoreFailure(n: nat, first: Instant, last: Instant, c: Call)
    requires 0 < n && c.Failed? && first <= last <= c.at < first + 600.0
    ensures SpecCall(AfterFailures(n, first, last), c) == AfterFailures(n + 1, first, c.at)
  {
  }

  lemma FirstFailure(st: Standing, c: Call)
    requires c.Failed? && Lapsed(st, c.at).Clear?
    ensures SpecCall(st, c) == AfterFailures(1, c.at, c.at)
  {
  }

  lemma {:induction false} FailuresCount(
    calls: seq<Call>, victims: seq<Option<Address>>, ip: Address, ps: seq<Placed>, j: nat)
    requires |victims| == |calls| && CallsInOrder(calls) && AllUnauthorized(calls, victims, ip, ps)
    requires j < |ps| && ps[0].k < |calls| && OpensWindow(calls, ip, ps[0].k)
    ensures ps[j].k < |calls| && ps[0].login.failAt <= ps[j].login.failAt
    ensures StandingAt(calls, ip, ps[j].k + 1) == AfterFailures(j + 1, ps[0].login.failAt, ps[j].login.failAt)
    decreases j
  {
    hide StandingAt, AllUnauthorized, SpecCall, Lapsed, AfterFailures;
    PlacedAt(calls, victims, ip, ps, 0);
    PlacedAt(calls, victims, ip, ps, j);
    StandingMoves(calls, ip, ps[j].k);
    if j == 0 {
      FirstFailure(StandingAt(calls, ip, ps[0].k), calls[ps[0].k]);
    } else {
      FailuresCount(calls, victims, ip, ps, j - 1);
      PlacedAt(calls, victims, ip, ps, j - 1);
      AskingChangesNothing(calls, ip, ps[j - 1].k + 1, ps[j].k);
      assert calls[ps[j - 1].k].at <= Opens(calls[ps[j].k]) <= calls[ps[j].k].at;
      OneMoreFailure(j, ps[0].login.failAt, ps[j - 1].login.failAt, calls[ps[j].k]);
    }
  }

  /** Five logins of an address answered Unauthorized inside one window, opened by the first and with no sign-in
      in between, lock it: however logins are interleaved, it is answered TooManyRequests until fifteen minutes
      after the last of them, unless a sign-in or a failure past the window gets through first; and with no
      further record it is let in again then. Fewer than five lock nothing. */
  lemma FiveUnauthorizedLock(calls: seq<Call>, victims: seq<Option<Address>>, ip: Address, ps: seq<Placed>,
                             b: Login, g: nat)
    requires |victims| == |calls| && CallsInOrder(calls) && Some(ip) !in victims
    requires 0 < |ps| && ps[0].k < |calls|
    requires AllUnauthorized(calls, victims, ip, ps) && OpensWindow(calls, ip, ps[0].k)
    requires ps[|ps| - 1].k < g < |calls| && calls[g] == Ask(ip, b.guardAt) && b.ip == ip
    ensures var first, last := ps[0].login.failAt, ps[|ps| - 1];
      var answer := Respond(AfterCalls(map[], calls[..g], victims[..g]), b);
      && (|ps| >= 5 && NoLift(calls, ip, last.k + 1, g, first) && b.guardAt < last.login.failAt + 900.0 ==>
            answer == TooManyRequests)
      && (OnlyAsks(calls, ip, last.k + 1, g) && (|ps| < 5 || b.guardAt >= last.login.failAt + 900.0) ==>
            answer == if b.credentialsMatch then SignedIn else Unauthorized)
  {
    hide StandingAt, AfterCalls, AllUnauthorized, OpensWindow, IsLockedStep;
    var n := |ps| - 1;
    FailuresCount(calls, victims, ip, ps, n);
    PlacedAt(calls, victims, ip, ps, n);
    LoginsFollowHistory(calls, victims, b, g);
    assert forall i :: ps[n].k < i < g ==> calls[i].at <= b.guardAt by {
      forall i | ps[n].k < i < g ensures calls[i].at <= b.guardAt { assert calls[i].at <= Opens(calls[g]); }
    }
    var st := StandingAt(calls, ip, ps[n].k + 1);
    if NoLift(calls, ip, ps[n].k + 1, g, ps[0].login.failAt) && |ps| >= 5 && b.guardAt < st.until {
      LockedUpTo(calls, ip, ps[n].k + 1, g, st.until, st.since);
    }
    if OnlyAsks(calls, ip, ps[n].k + 1, g) { AskingChangesNothing(calls, ip, ps[n].k + 1, g); }
  }

  /** Neither a success of the address nor a failure ten minutes after `since` comes between the calls. */
  ghost predicate NoLift(calls: seq<Call>, ip: Address, from: nat, n: nat, since: Instant)
    requires n <= |calls|
  {
    forall i :: from <= i < n && calls[i].ip == ip ==>
      !calls[i].Succeeded? && !(calls[i].Failed? && calls[i].at >= since + 600.0)
  }

  /** After a sign-in the address is let in, whatever came before it. */
  lemma SignInClears(calls: seq<Call>, victims: seq<Option<Address>>, p: Placed, b: Login, g: nat)
    requires |victims| == |calls| && CallsInOrder(calls) && Some(b.ip) !in victims
    requires Served(calls, victims, p, SignedIn) && p.login.ip == b.ip
    requires p.k < g < |calls| && calls[g] == Ask(b.ip, b.guardAt) && OnlyAsks(calls, b.ip, p.k + 1, g)
    ensures Respond(AfterCalls(map[], calls[..g], victims[..g]), b)
         == if b.credentialsMatch then SignedIn else Unauthorized
    ensures OpensWindow(calls, b.ip, g)
  {
    hide StandingAt, AfterCalls, IsLockedStep;
    StandingMoves(calls, b.ip, p.k);
    AskingChangesNothing(calls, b.ip, p.k + 1, g);
    LoginsFollowHistory(calls, victims, b, g);
  }

  /** A window is open for the first record that an address ever makes. */
  lemma FirstRecordOpensWindow(calls: seq<Call>, ip: Address, k: nat)
    requires k < |calls| && OnlyAsks(calls, ip, 0, k)
    ensures OpensWindow(calls, ip, k)
  {
    AskingChangesNothing(calls, ip, 0, k);
    assert calls[..0] == [];
  }

  /** And for one made fifteen minutes after the last before it. */
  lemma LateRecordOpensWindow(calls: seq<Call>, ip: Address, m: nat, k: nat)
    requires m < k < |calls| && CallsInOrder(calls) && calls[m].ip == ip && OnlyAsks(calls, ip, m + 1, k)
    requires calls[m].at + 900.0 <= calls[k].at
    ensures OpensWindow(calls, ip, k)
  {
    hide StandingAt;
    AskingChangesNothing(calls, ip, m + 1, k);
    CountingIsPast(calls, ip, m + 1);
    if StandingAt(calls, ip, m + 1).Locked? { LockIsRecent(calls, ip, m + 1); }
  }

  lemma {:induction false} CountingIsPast(calls: seq<Call>, ip: Address, n: nat)
    requires 0 < n <= |calls| && CallsInOrder(calls)
    ensures StandingAt(calls, ip, n).Counting? ==> StandingAt(calls, ip, n).since <= calls[n - 1].at
  {
    StandingMoves(calls, ip, n - 1);
    hide StandingAt;
    if n > 1 {
      CountingIsPast(calls, ip, n - 1);
      assert calls[n - 2].at <= Opens(calls[n - 1]) <= calls[n - 1].at;
    } else {
      NothingHappened(calls, ip);
    }
  }

  lemma NothingHappened(calls: seq<Call>, ip: Address)
    ensures StandingAt(calls, ip, 0) == Clear
  {
    assert calls[..0] == [];
  }

  ghost function SpreadRun(ip: Address): (calls: seq<Call>)
    ensures |calls| == 6
  {
    [Failed(ip, 0.0, 0.0), Failed(ip, 500.0, 500.0), Failed(ip, 600.0, 600.0), Failed(ip, 700.0, 700.0),
     Failed(ip, 800.0, 800.0), Failed(ip, 900.0, 900.0)]
  }

  lemma {:induction false} SpreadRunStandings(ip: Address, n: nat)
    requires n <= 6
    ensures StandingAt(SpreadRun(ip), ip, n) ==
      if n == 0 then Clear else if n <= 2 then Counting(n, 0.0) else Counting(n - 2, 600.0)
  {
    if n > 0 {
      SpreadRunStandings(ip, n - 1);
      StandingMoves(SpreadRun(ip), ip, n - 1);
      hide StandingAt;
    }
  }

  /** Windows do not slide: five failures between 500 and 900 lock nothing when an earlier one, at zero, had
      opened the window that ended at 600. */
  lemma FiveInTenMinutesMayNotLock(ip: Address)
    ensures var calls, victims := SpreadRun(ip), Nobody(6);
      CallsInOrder(calls) && LegalCalls(map[], calls, victims) && !LockedAt(calls, victims, ip, 6, 900.0)
  {
    hide LockedAt, StandingAt, LegalCalls, AfterCalls;
    OneAddressDropsNothing(SpreadRun(ip), ip);
    SpreadRunStandings(ip, 6);
    AnswerAt(SpreadRun(ip), Nobody(6), ip, 6, 900.0);
  }
}
