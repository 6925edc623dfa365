/** Idempotency keys over whole runs: one job per key, and every answer traces back to an admission. */
module JobKeys {
  import opened Common
  import opened Jobs
  import opened JobInvariant
  import opened JobTheorems

  /** The request was sent by this principal under this key. */
  predicate Bears(r: Request, key: ScopedKey) { r.key == Some(key.key) && r.owner == key.owner }

  /** Event `i` admits a job under `key`. */
  ghost predicate AdmitsUnder(run: seq<State>, events: seq<Event>, i: nat, key: ScopedKey) {
    && |run| == |events| + 1 && i < |events| && events[i].action.Admit?
    && run[i].lock.Admitting? && Bears(run[i].lock.r, key)
  }

  /** In `run[n]` the retention of the request that event `i` admits has not run out. */
  ghost predicate InWindow(run: seq<State>, events: seq<Event>, i: nat, n: nat)
    requires |run| == |events| + 1 && i < |events| && n <= |events| && events[i].action.Admit?
    requires run[i].lock.Admitting?
  {
    run[n].now < events[i].action.at + run[i].lock.r.retention
  }

  /** The record such an event leaves. */
  ghost function RecordOf(run: seq<State>, events: seq<Event>, i: nat): Record
    requires |run| == |events| + 1 && i < |events| && events[i].action.Admit? && run[i].lock.Admitting?
  {
    Record(run[i].lock.r.fingerprint, events[i].action.id, events[i].action.at, run[i].lock.r.retention)
  }

  ghost predicate Evicts(event: Event, key: ScopedKey) { event.action.Admit? && event.action.victim == Some(key) }

  ghost predicate EvictedBetween(events: seq<Event>, i: nat, n: nat, key: ScopedKey) {
    exists m :: i < m < n && m < |events| && Evicts(events[m], key)
  }

  /** The cap evicts a record only from a full table, and only one of the oldest. */
  lemma EvictionNeedsFullTable(run: seq<State>, events: seq<Event>, m: nat, key: ScopedKey)
    requires IsRun(run, events) && m < |events| && Evicts(events[m], key)
    ensures |run[m].records| == 1024 && key in run[m].records
    ensures forall k :: k in run[m].records ==> run[m].records[key].recorded <= run[m].records[k].recorded
  {
    assert StepOf(run, events, m);
    RunKeepsInv(run, events, m);
    hide IsRun, EntriesOk, CounterOk, CountsOk, TasksOk, UsedOk, LockOk, RecordOk;
  }

  ghost predicate Holds(s: State, key: ScopedKey, rec: Record) { key in s.records && s.records[key] == rec }

  /** A record inside its window survives every step but its own eviction. */
  lemma StepKeepsRecord(s: State, a: Action, s': State, reply: Reply, key: ScopedKey, rec: Record)
    requires Inv(s) && Step(s, a, s', reply) && Holds(s, key, rec) && !Lapsed(rec, s'.now)
    requires !(a.Admit? && a.victim == Some(key))
    ensures Holds(s', key, rec)
  {
    hide Inv, Step;
    RecordInWindowIsVisible(s, key);
    if s.lock.Admitting? && KeyOf(s.lock.r).Some? { AdmittingHasNoRecord(s); }
    if a.Lookup? || a.ReadFound? || a.Admit? {
      LockKeepsRecord(s, a, s', reply, key, rec);
    } else {
      RecordsOnlyMoveUnderTheLock(s, a, s', reply);
    }
  }

  lemma LockKeepsRecord(s: State, a: Action, s': State, reply: Reply, key: ScopedKey, rec: Record)
    requires Step(s, a, s', reply) && (a.Lookup? || a.ReadFound? || a.Admit?)
    requires Holds(s, key, rec) && !Lapsed(rec, s'.now) && !(a.Admit? && a.victim == Some(key))
    requires !Lapsed(rec, s.now) ==> Visible(s.entries, rec.jobId, key.owner)
    requires s.lock.Admitting? ==> KeyOf(s.lock.r) != Some(key)
    ensures Holds(s', key, rec)
  {
    hide Reaped, CounterAfterReap, HasRoom, IsOldest;
  }

  lemma RecordsOnlyMoveUnderTheLock(s: State, a: Action, s': State, reply: Reply)
    requires Step(s, a, s', reply) && !a.Lookup? && !a.ReadFound? && !a.Admit?
    ensures s'.records == s.records
  {
    hide Reaped, CounterAfterReap, CounterAfterFinish, Finish, HasRoom, LooksAt;
  }

  lemma RecordInWindowIsVisible(s: State, key: ScopedKey)
    requires Inv(s) && key in s.records
    ensures !Lapsed(s.records[key], s.now) ==> Visible(s.entries, s.records[key].jobId, key.owner)
  {
    assert RecordOk(key, s.records[key], s.entries, s.now);
  }

  lemma AdmittingHasNoRecord(s: State)
    requires Inv(s) && s.lock.Admitting? && KeyOf(s.lock.r).Some?
    ensures KeyOf(s.lock.r).value !in s.records
  {
  }

  lemma AdmissionRecords(run: seq<State>, events: seq<Event>, i: nat, key: ScopedKey)
    requires IsRun(run, events) && AdmitsUnder(run, events, i, key)
    ensures Holds(run[i + 1], key, RecordOf(run, events, i))
  {
    assert StepOf(run, events, i);
    hide IsRun, Reaped, HasRoom, IsOldest;
  }

  lemma WindowIsOpen(run: seq<State>, events: seq<Event>, i: nat, n: nat)
    requires |run| == |events| + 1 && i < |events| && n <= |events| && events[i].action.Admit?
    requires run[i].lock.Admitting? && InWindow(run, events, i, n)
    ensures !Lapsed(RecordOf(run, events, i), run[n].now)
  {
  }

  /** The key stays bound to its first job for the whole window. */
  lemma {:induction false} KeyIsHeld(run: seq<State>, events: seq<Event>, i: nat, n: nat, key: ScopedKey)
    requires IsRun(run, events) && AdmitsUnder(run, events, i, key) && i < n <= |events|
    requires InWindow(run, events, i, n) && !EvictedBetween(events, i, n, key)
    ensures Holds(run[n], key, RecordOf(run, events, i))
  {
    hide Inv, Step, Holds, RecordOf;
    if n == i + 1 {
      AdmissionRecords(run, events, i, key);
    } else {
      TimePasses(run, events, n - 1, n);
      assert !Evicts(events[n - 1], key);
      assert !EvictedBetween(events, i, n - 1, key);
      KeyIsHeld(run, events, i, n - 1, key);
      RunKeepsInv(run, events, n - 1);
      assert StepOf(run, events, n - 1);
      WindowIsOpen(run, events, i, n);
      StepKeepsRecord(run[n - 1], events[n - 1].action, run[n], events[n - 1].reply, key, RecordOf(run, events, i));
    }
  }

  /** Two admissions under one key: the first one's window had passed, or the cap had evicted its record. */
  lemma OneJobPerKey(run: seq<State>, events: seq<Event>, i: nat, k: nat, key: ScopedKey)
    requires IsRun(run, events) && i < k && AdmitsUnder(run, events, i, key) && AdmitsUnder(run, events, k, key)
    ensures !InWindow(run, events, i, k) || EvictedBetween(events, i, k, key)
  {
    if InWindow(run, events, i, k) && !EvictedBetween(events, i, k, key) {
      KeyIsHeld(run, events, i, k, key);
      RunKeepsInv(run, events, k);
      AdmittingHasNoRecord(run[k]);
      assert false;
    }
  }

  /** A lookup inside the window: a conflict exactly when the fingerprints differ, otherwise the first job
      is read next. */
  lemma LookupInWindow(run: seq<State>, events: seq<Event>, i: nat, k: nat, key: ScopedKey)
    requires IsRun(run, events) && AdmitsUnder(run, events, i, key) && i < k < |events|
    requires events[k].action.Lookup? && Bears(events[k].action.r, key)
    requires InWindow(run, events, i, k + 1) && !EvictedBetween(events, i, k, key)
    ensures events[k].reply == Conflict <==> events[k].action.r.fingerprint != run[i].lock.r.fingerprint
    ensures events[k].reply != Conflict ==>
      events[k].reply.Nothing? && run[k + 1].lock == Looking(events[k].action.r, events[k].action.admitting)
  {
    assert !EvictedBetween(events, i, k + 1, key) by {
      assert !Evicts(events[k], key);
    }
    KeyIsHeld(run, events, i, k + 1, key);
    assert StepOf(run, events, k);
    hide IsRun, ReapedRecords, EvictedBetween;
  }

  /** A retry that reaches the job inside the window is answered with the first job. */
  lemma RetryFindsTheFirstJob(run: seq<State>, events: seq<Event>, i: nat, k: nat, key: ScopedKey)
    requires IsRun(run, events) && AdmitsUnder(run, events, i, key) && i < k < |events|
    requires events[k].action.ReadFound? && run[k].lock.Looking? && Bears(run[k].lock.r, key)
    requires InWindow(run, events, i, k) && !EvictedBetween(events, i, k, key)
    ensures events[k].reply == Found(events[i].action.id)
  {
    KeyIsHeld(run, events, i, k, key);
    RunKeepsInv(run, events, k);
    assert StepOf(run, events, k);
    assert RecordOk(key, run[k].records[key], run[k].entries, run[k].now);
    hide Inv, IsRun, EvictedBetween;
  }

  // ------------------------------------------------------------------ where answers come from

  ghost predicate Origin(run: seq<State>, events: seq<Event>, n: nat, key: ScopedKey, rec: Record) {
    exists i :: 0 <= i < n && AdmitsUnder(run, events, i, key) && RecordOf(run, events, i) == rec
  }

  lemma NewRecordIsAdmitted(s: State, a: Action, s': State, reply: Reply, key: ScopedKey)
    requires Step(s, a, s', reply) && key in s'.records
    ensures Holds(s, key, s'.records[key])
      || (a.Admit? && s.lock.Admitting? && KeyOf(s.lock.r) == Some(key)
          && s'.records[key] == Record(s.lock.r.fingerprint, a.id, a.at, s.lock.r.retention))
  {
    hide Reaped, CounterAfterReap, CounterAfterFinish, Finish, HasRoom, IsOldest, LooksAt;
  }

  lemma {:induction false} RecordsHaveOrigin(run: seq<State>, events: seq<Event>, n: nat, key: ScopedKey)
    requires IsRun(run, events) && n <= |events| && key in run[n].records
    ensures Origin(run, events, n, key, run[n].records[key])
  {
    hide Step;
    if n > 0 {
      assert StepOf(run, events, n - 1);
      NewRecordIsAdmitted(run[n - 1], events[n - 1].action, run[n], events[n - 1].reply, key);
      if Holds(run[n - 1], key, run[n].records[key]) {
        RecordsHaveOrigin(run, events, n - 1, key);
      } else {
        assert AdmitsUnder(run, events, n - 1, key) && RecordOf(run, events, n - 1) == run[n].records[key];
      }
    }
  }

  /** Whenever a retry is answered with a job, that job was admitted earlier for the same principal, key and request. */
  lemma FoundMeansAdmitted(run: seq<State>, events: seq<Event>, k: nat)
    requires IsRun(run, events) && k < |events| && events[k].reply.Found?
    ensures run[k].lock.Looking? && run[k].lock.r.key.Some?
    ensures exists i :: 0 <= i < k
                        && AdmitsUnder(run, events, i, ScopedKey(run[k].lock.r.owner, run[k].lock.r.key.value))
                        && events[i].action.id == events[k].reply.id
                        && run[i].lock.r.fingerprint == run[k].lock.r.fingerprint
  {
    assert StepOf(run, events, k);
    FoundIsRead(run[k], events[k].action, run[k + 1], events[k].reply);
    hide Step;
    var key := KeyOf(run[k].lock.r).value;
    RecordsHaveOrigin(run, events, k, key);
    RunKeepsInv(run, events, k);
    hide IsRun, EntriesOk, CounterOk, CountsOk, TasksOk, RecordsOk, UsedOk;
  }

  lemma FoundIsRead(s: State, a: Action, s': State, reply: Reply)
    requires Step(s, a, s', reply) && reply.Found?
    ensures s.lock.Looking? && KeyOf(s.lock.r).Some? && KeyOf(s.lock.r).value in s.records
    ensures s.records[KeyOf(s.lock.r).value].jobId == reply.id && Visible(s.entries, reply.id, s.lock.r.owner)
  {
    hide Reaped, ReapedRecords, CounterAfterReap, CounterAfterFinish, Finish, HasRoom, Remember, IsOldest, LooksAt;
  }

  /** A conflict is only ever reported to a principal that used the key for another request. */
  lemma ConflictMeansReuse(run: seq<State>, events: seq<Event>, k: nat)
    requires IsRun(run, events) && k < |events| && events[k].reply.Conflict?
    ensures events[k].action.Lookup? && events[k].action.r.key.Some?
    ensures var r := events[k].action.r;
      exists i :: 0 <= i < k && AdmitsUnder(run, events, i, ScopedKey(r.owner, r.key.value))
                  && run[i].lock.r.fingerprint != events[k].action.r.fingerprint
  {
    assert StepOf(run, events, k);
    ConflictIsSeen(run[k], events[k].action, run[k + 1], events[k].reply);
    hide Step;
    RecordsHaveOrigin(run, events, k, KeyOf(events[k].action.r).value);
  }

  lemma ConflictIsSeen(s: State, a: Action, s': State, reply: Reply)
    requires Step(s, a, s', reply) && reply.Conflict?
    ensures a.Lookup? && KeyOf(a.r).Some? && KeyOf(a.r).value in s.records
    ensures s.records[KeyOf(a.r).value].fingerprint != a.r.fingerprint
  {
    hide Reaped, CounterAfterReap, CounterAfterFinish, Finish, HasRoom, Remember, IsOldest, LooksAt;
  }

  /** A request under a key that has admitted nothing, or without a key, goes straight on to its admission. */
  lemma NewRequestsProceed(run: seq<State>, events: seq<Event>, k: nat)
    requires IsRun(run, events) && k < |events| && events[k].action.Lookup? && events[k].action.admitting
    requires var r := events[k].action.r;
      r.key.Some? ==> forall i :: 0 <= i < k ==> !AdmitsUnder(run, events, i, ScopedKey(r.owner, r.key.value))
    ensures events[k].reply == Nothing && run[k + 1].lock == Admitting(events[k].action.r)
  {
    assert StepOf(run, events, k);
    var r := events[k].action.r;
    if r.key.Some? {
      var key := ScopedKey(r.owner, r.key.value);
      if key in run[k].records { RecordsHaveOrigin(run, events, k, key); }
    }
    hide IsRun, AdmitsUnder;
  }

  // ------------------------------------------------------------------ forgetting a record

  /** Event `i` began the lookup whose second section is about to run in `run[n]`. */
  ghost predicate Began(run: seq<State>, events: seq<Event>, i: nat, n: nat) {
    && |run| == |events| + 1 && i < n <= |events| && events[i].action.Lookup?
    && run[n].lock.Looking? && KeyOf(run[n].lock.r).Some?
    && events[i].action == Lookup(run[n].lock.r, run[n].lock.admitting)
    && (forall m :: i < m <= n ==> run[m].lock == run[n].lock)
    && var key := KeyOf(run[n].lock.r).value;
       key in run[n].records && Holds(run[i], key, run[n].records[key])
       && !Lapsed(run[n].records[key], run[i].now) && run[n].records[key].jobId in run[i].entries
  }

  lemma LookingIsHeld(s: State, a: Action, s': State, reply: Reply)
    requires Step(s, a, s', reply) && s'.lock.Looking? && KeyOf(s'.lock.r).Some? && KeyOf(s'.lock.r).value in s'.records
    ensures var key := KeyOf(s'.lock.r).value;
      && Holds(s, key, s'.records[key])
      && if a.Lookup? then a == Lookup(s'.lock.r, s'.lock.admitting) && !Lapsed(s'.records[key], s.now)
         else s.lock == s'.lock
  {
    hide Reaped, CounterAfterReap, CounterAfterFinish, Finish, HasRoom, Remember, IsOldest, LooksAt;
  }

  /** Every second section belongs to a lookup that saw the record inside its window, its job still there. */
  lemma {:induction false} LookupBegan(run: seq<State>, events: seq<Event>, n: nat)
    requires IsRun(run, events) && n <= |events| && run[n].lock.Looking?
    ensures exists i: nat :: Began(run, events, i, n)
  {
    hide Inv, Step, Lapsed;
    if n > 0 {
      RunKeepsInv(run, events, n);
      LookingHasItsRecord(run[n]);
      RunKeepsInv(run, events, n - 1);
      assert StepOf(run, events, n - 1);
      LookingIsHeld(run[n - 1], events[n - 1].action, run[n], events[n - 1].reply);
      if events[n - 1].action.Lookup? {
        RecordInWindowIsVisible(run[n - 1], KeyOf(run[n].lock.r).value);
        assert Began(run, events, n - 1, n);
      } else {
        LookupBegan(run, events, n - 1);
        var i: nat :| Began(run, events, i, n - 1);
        assert Began(run, events, i, n);
      }
    }
  }

  /** A lookup forgets its record exactly when the job has been reaped since the lookup began, and
      only a record whose window has passed is ever forgotten. */
  lemma ForgetMeansReaped(run: seq<State>, events: seq<Event>, k: nat)
    requires IsRun(run, events) && k < |events| && events[k].action.ReadFound?
    ensures run[k].lock.Looking? && KeyOf(run[k].lock.r).Some? && KeyOf(run[k].lock.r).value in run[k].records
    ensures var rec := run[k].records[KeyOf(run[k].lock.r).value];
      && (events[k].reply == Found(rec.jobId) <==> rec.jobId in run[k].entries)
      && (events[k].reply == Nothing <==> KeyOf(run[k].lock.r).value !in run[k + 1].records)
      && (events[k].reply == Nothing ==> Lapsed(rec, run[k].now))
      && (events[k].reply == Nothing ==> exists i: nat :: i + 1 < k && Began(run, events, i, k))
      && (events[k].reply == Nothing && run[k].lock.admitting ==> run[k + 1].lock == Admitting(run[k].lock.r))
      && (events[k].reply.Found? || !run[k].lock.admitting ==> run[k + 1].lock.Free?)
  {
    hide Step, Inv, Began, Lapsed;
    assert StepOf(run, events, k);
    RunKeepsInv(run, events, k);
    ReadFoundDecides(run[k], run[k + 1], events[k].reply);
    LookupBegan(run, events, k);
    var i: nat :| Began(run, events, i, k);
    BeganWithJob(run, events, i, k);
    if i + 1 == k { LookupKeepsJobs(run, events, i); }
  }

  lemma BeganWithJob(run: seq<State>, events: seq<Event>, i: nat, n: nat)
    requires Began(run, events, i, n)
    ensures i < |events| && events[i].action.Lookup? && i < n
    ensures run[n].records[KeyOf(run[n].lock.r).value].jobId in run[i].entries
  {
  }

  lemma LookupKeepsJobs(run: seq<State>, events: seq<Event>, i: nat)
    requires IsRun(run, events) && i < |events| && events[i].action.Lookup?
    ensures run[i + 1].entries == run[i].entries
  {
    assert StepOf(run, events, i);
  }

  lemma ReadFoundDecides(s: State, s': State, reply: Reply)
    requires Inv(s) && Step(s, ReadFound, s', reply)
    ensures s.lock.Looking? && KeyOf(s.lock.r).Some? && KeyOf(s.lock.r).value in s.records
    ensures var key := KeyOf(s.lock.r).value;
      var rec := s.records[key];
      && (reply == Found(rec.jobId) <==> rec.jobId in s.entries)
      && (reply == Nothing <==> key !in s'.records)
      && (reply == Nothing ==> Lapsed(rec, s.now))
      && s'.lock == (if reply == Nothing && s.lock.admitting then Admitting(s.lock.r) else Free)
  {
    var key := KeyOf(s.lock.r).value;
    assert RecordOk(key, s.records[key], s.entries, s.now);
  }

  /** A lookup whose two sections are not interleaved with anything never forgets. */
  lemma AtomicLookupNeverForgets(run: seq<State>, events: seq<Event>, i: nat)
    requires IsRun(run, events) && i + 1 < |events| && events[i].action.Lookup? && events[i + 1].action.ReadFound?
    ensures events[i + 1].reply.Found? && events[i + 1].reply.id in run[i].entries
  {
    hide Inv, Step, Lapsed;
    assert StepOf(run, events, i);
    assert StepOf(run, events, i + 1);
    RunKeepsInv(run, events, i);
    RunKeepsInv(run, events, i + 1);
    LookupKeepsJobs(run, events, i);
    ReadsItsLookup(run[i], events[i].action, run[i + 1], events[i].reply, run[i + 2], events[i + 1].reply);
  }

  lemma ReadsItsLookup(s: State, a: Action, s': State, reply: Reply, s'': State, answer: Reply)
    requires Inv(s) && Step(s, a, s', reply) && a.Lookup? && Inv(s') && Step(s', ReadFound, s'', answer)
    requires s'.entries == s.entries
    ensures answer.Found? && answer.id in s.entries
  {
    LookingHasItsRecord(s');
    LookingIsHeld(s, a, s', reply);
    RecordInWindowIsVisible(s, KeyOf(s'.lock.r).value);
    ReadFoundDecides(s', s'', answer);
    hide Inv, Reaped, ReapedRecords;
  }

  // ------------------------------------------------------------------ a run in which a record is forgotten

  const RETRY := Request("owner", Some("key"), "print", 10, 100, false)
  const RETRY_KEY := ScopedKey("owner", "key")
  const EMPTY := State(Config(1, 1, 1), 0, map[], 0, map[], Free, map[], {}, {})
  const ADMITTED := EMPTY.(entries := map["job" := NewJob(RETRY)], tasks := map["job" := Executing(10)],
                           used := {"job"},
                           records := map[RETRY_KEY := Record("print", "job", 0, 10)])
  const ENDED := ADMITTED.(entries := map["job" := NewJob(RETRY).(stage := Failed, finished := Some(0))],
                           tasks := map["job" := Sleeping(10)])
  const LOOKING := ENDED.(now := 10, lock := Looking(RETRY, false))
  const REAPED := LOOKING.(entries := map[], tasks := map[])

  ghost function Scene(k: nat): State {
    match k
    case 0 => EMPTY
    case 1 => EMPTY.(lock := Admitting(RETRY))
    case 2 => ADMITTED
    case 3 => ENDED
    case 4 => LOOKING
    case 5 => REAPED
    case _ => REAPED.(records := map[], lock := Free)
  }

  ghost function SceneEvent(k: nat): Event {
    match k
    case 0 => Event(Lookup(RETRY, true), Nothing)
    case 1 => Event(Admit("job", 0, None), Accepted("job"))
    case 2 => Event(Complete("job", FailedWith, Looks(false, false, false, false), 0), Nothing)
    case 3 => Event(Lookup(RETRY, false), Nothing)
    case 4 => Event(Wake("job"), Nothing)
    case _ => Event(ReadFound, Nothing)
  }

  lemma NothingToReap()
    ensures CounterAfterReap(0, map[], map[]) == 0 && HasRoom(EMPTY.cfg, map[])
  {
    assert Active(map[]) == {};
  }

  lemma SceneAdmits()
    ensures Step(Scene(1), SceneEvent(1).action, Scene(2), SceneEvent(1).reply)
  {
    NothingToReap();
    hide CounterAfterReap, HasRoom;
    assert Inserts(Scene(1), "job", 0, None, map[], ADMITTED);
  }

  lemma SceneCompletes()
    ensures Step(Scene(2), SceneEvent(2).action, Scene(3), SceneEvent(2).reply)
  {
  }

  lemma SceneWakes()
    ensures Step(Scene(4), SceneEvent(4).action, Scene(5), SceneEvent(4).reply)
  {
    NothingIsOwed();
    hide CounterAfterReap;
    assert LOOKING.tasks - {"job"} == map[];
  }

  lemma NothingIsOwed()
    ensures CounterAfterReap(0, LOOKING.entries, map[]) == 0
  {
  }

  lemma SceneForgets()
    ensures Step(Scene(5), SceneEvent(5).action, Scene(6), SceneEvent(5).reply)
  {
    assert REAPED.records - {RETRY_KEY} == map[];
  }

  lemma SceneLooksUp()
    ensures Step(Scene(0), SceneEvent(0).action, Scene(1), SceneEvent(0).reply)
    ensures Step(Scene(3), SceneEvent(3).action, Scene(4), SceneEvent(3).reply)
  {
  }

  /** The branch that forgets a record is reachable: its job is reaped, at the very end of its retention,
      while a lookup that began inside the window waits for the entries. */
  lemma ForgetIsReachable() returns (run: seq<State>, events: seq<Event>)
    ensures IsRun(run, events) && |events| == 6 && events[5] == Event(ReadFound, Nothing)
    ensures run[5].records != map[] && run[6].records == map[]
  {
    assert RETRY_KEY in REAPED.records;
    hide Step;
    run := seq(7, k requires 0 <= k => Scene(k));
    events := seq(6, k requires 0 <= k => SceneEvent(k));
    forall k | 0 <= k < 6 ensures StepOf(run, events, k) {
      if k == 0 || k == 3 { SceneLooksUp(); }
      else if k == 1 { SceneAdmits(); }
      else if k == 2 { SceneCompletes(); }
      else if k == 4 { SceneWakes(); }
      else { SceneForgets(); }
    }
  }
}
