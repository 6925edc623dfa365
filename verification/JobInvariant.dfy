/** What every run of the job protocol keeps. */
module JobInvariant {
  import opened Common
  import opened Sums
  import opened Jobs

  ghost predicate JobOk(j: Job, now: Instant) {
    && (j.finished.Some? <==> Terminal(j.stage))
    && (j.audio.Some? <==> j.stage.Completed?)
    && (j.finished.Some? ==> j.finished.value <= now)
  }

  /** Lifecycle: finished exactly when terminal, audio exactly when completed. */
  ghost predicate EntriesOk(e: Entries, now: Instant) { forall id :: id in e ==> JobOk(e[id], now) }

  ghost predicate CounterOk(e: Entries, retained: nat) {
    retained == TotalAudio(e) && retained <= MAX_RETAINED_AUDIO_BYTES
  }

  ghost predicate CountsOk(cfg: Config, e: Entries) { |e| <= cfg.maxRetainedJobs && |Active(e)| <= MaxActive(cfg) }

  /** A job and its task agree on where they are. */
  ghost predicate PhaseOk(e: Entries, id: JobId, p: Phase, played: set<JobId>) {
    match p
    case Executing(retention) => id in e && !Terminal(e[id].stage) && e[id].retention == retention && id !in played
    case ToPlay(audio, retention) =>
      && id !in played
      && (id in e ==> e[id].audio == Some(audio) && e[id].stage.Completed? && e[id].retention == retention)
    case Playing(retention) => id in e ==> Terminal(e[id].stage) && e[id].retention == retention
    case Sleeping(until) =>
      id in e ==> Terminal(e[id].stage) && (e[id].finished.Some? ==> e[id].finished.value + e[id].retention <= until)
  }

  ghost predicate TasksOk(e: Entries, tasks: map<JobId, Phase>, played: set<JobId>) {
    && (forall id :: id in e && !Terminal(e[id].stage) ==> id in tasks && tasks[id].Executing?)
    && (forall id :: id in tasks ==> PhaseOk(e, id, tasks[id], played))
  }

  /** A record names a resident job of its owner, with its retention and not finished before it was
      recorded; once the job is gone, the record has lapsed. */
  ghost predicate RecordOk(k: ScopedKey, r: Record, e: Entries, now: Instant) {
    && r.recorded <= now
    && if r.jobId in e then
         var j := e[r.jobId];
         j.owner == k.owner && j.retention == r.retention && (j.finished.Some? ==> r.recorded <= j.finished.value)
       else Lapsed(r, now)
  }

  ghost predicate RecordsOk(records: Records, e: Entries, now: Instant) {
    |records| <= MAX_IDEMPOTENCY_ENTRIES && forall k :: k in records ==> RecordOk(k, records[k], e, now)
  }

  ghost predicate UsedOk(s: State) {
    && s.entries.Keys <= s.used && s.tasks.Keys <= s.used && s.played <= s.used
    && forall k :: k in s.records ==> s.records[k].jobId in s.used
  }

  /** What the holder of the idempotency lock may rely on. */
  ghost predicate LockOk(records: Records, lock: Lock) {
    match lock
    case Free => true
    case Looking(r, _) =>
      KeyOf(r).Some? && KeyOf(r).value in records && records[KeyOf(r).value].fingerprint == r.fingerprint
    case Admitting(r) => KeyOf(r).Some? ==> KeyOf(r).value !in records
  }

  ghost predicate Inv(s: State) {
    && EntriesOk(s.entries, s.now)
    && CounterOk(s.entries, s.retained)
    && CountsOk(s.cfg, s.entries)
    && TasksOk(s.entries, s.tasks, s.played)
    && RecordsOk(s.records, s.entries, s.now)
    && UsedOk(s)
    && LockOk(s.records, s.lock)
  }

  ghost predicate Init(s: State) {
    && s.entries == map[] && s.retained == 0 && s.records == map[] && s.lock == Free
    && s.tasks == map[] && s.played == {} && s.used == {}
  }

  lemma InitHolds(s: State)
    requires Init(s)
    ensures Inv(s)
  {
    assert Active(map[]) == {};
  }

  // ------------------------------------------------------------------ byte accounting

  lemma TotalAudioRemove(e: Entries, id: JobId)
    requires id in e
    ensures TotalAudio(e) == AudioBytes(e[id]) + TotalAudio(e - {id})
  {
    hide AudioBytes;
    var sizes := map k | k in e :: AudioBytes(e[k]);
    SumRemove(sizes, id);
    assert sizes - {id} == map k | k in e - {id} :: AudioBytes((e - {id})[k]);
  }

  lemma TotalAudioUpdate(e: Entries, id: JobId, j: Job)
    ensures TotalAudio(e[id := j]) == TotalAudio(e - {id}) + AudioBytes(j)
  {
    hide AudioBytes, TotalAudio;
    TotalAudioRemove(e[id := j], id);
    assert e[id := j] - {id} == e - {id};
  }

  /** What a reap keeps and what it drops add up to what was there. */
  lemma {:induction false} ReapSplitsAudio(before: Entries, after: Entries)
    requires after.Keys <= before.Keys && forall id :: id in after ==> after[id] == before[id]
    ensures TotalAudio(before) == TotalAudio(after) + TotalAudio(Dropped(before, after))
    decreases |before|
  {
    hide TotalAudio;
    if before == map[] {
      assert after == map[] && Dropped(before, after) == map[];
      NothingIsSilent();
    } else {
      var id :| id in before;
      var rest := before - {id};
      assert before.Keys == rest.Keys + {id};
      TotalAudioRemove(before, id);
      if id in after {
        ReapSplitsAudio(rest, after - {id});
        TotalAudioRemove(after, id);
        assert Dropped(rest, after - {id}) == Dropped(before, after);
      } else {
        ReapSplitsAudio(rest, after);
        TotalAudioRemove(Dropped(before, after), id);
        assert Dropped(rest, after) == Dropped(before, after) - {id};
      }
    }
  }

  lemma NothingIsSilent()
    ensures TotalAudio(map[]) == 0
  {
  }

  /** The clamp in the reaper never changes its result: the counter stays the exact sum. */
  lemma ReapKeepsCounter(before: Entries, after: Entries, retained: nat, low: Instant, high: Instant)
    requires CounterOk(before, retained) && Reaped(before, after, low, high)
    ensures CounterOk(after, CounterAfterReap(retained, before, after))
    ensures CounterAfterReap(retained, before, after) == retained - TotalAudio(Dropped(before, after))
  {
    hide TotalAudio, Dropped;
    ReapSplitsAudio(before, after);
  }

  lemma FinishKeepsCounter(e: Entries, retained: nat, id: JobId, x: Execution, looks: Looks, at: Instant, c: Control)
    requires CounterOk(e, retained) && id in e && e[id].audio.None?
    ensures CounterOk(e[id := Finish(e[id], retained, x, looks, at).(control := c)],
                      CounterAfterFinish(e[id], retained, x, looks))
  {
    hide TotalAudio;
    TotalAudioRemove(e, id);
    TotalAudioUpdate(e, id, Finish(e[id], retained, x, looks, at).(control := c));
  }

  // ------------------------------------------------------------------ steps that keep every job's substance

  ghost predicate SameSubstance(a: Job, b: Job) {
    && a.owner == b.owner && a.stage == b.stage && a.finished == b.finished
    && a.retention == b.retention && a.audio == b.audio
  }

  ghost predicate Similar(e: Entries, e': Entries) {
    e'.Keys == e.Keys && forall id :: id in e ==> SameSubstance(e[id], e'[id])
  }

  lemma SimilarKeepsTotals(e: Entries, e': Entries)
    requires Similar(e, e')
    ensures TotalAudio(e') == TotalAudio(e) && Active(e') == Active(e) && |e'| == |e|
  {
    assert (map id | id in e' :: AudioBytes(e'[id])) == map id | id in e :: AudioBytes(e[id]);
    assert |e'.Keys| == |e.Keys|;
  }

  lemma SimilarKeepsInv(s: State, s': State)
    requires Inv(s) && s.now <= s'.now && Similar(s.entries, s'.entries)
    requires s' == s.(now := s'.now, entries := s'.entries)
    ensures Inv(s')
  {
    hide TotalAudio, Active, EntriesOk, TasksOk, RecordsOk, LockOk, Similar;
    SimilarKeepsTotals(s.entries, s'.entries);
    SimilarKeepsEntries(s.entries, s'.entries, s.now, s'.now);
    SimilarKeys(s.entries, s'.entries);
    SimilarKeepsTasks(s.entries, s'.entries, s.tasks, s.played);
    SimilarKeepsRecords(s.records, s.entries, s'.entries, s.now, s'.now);
  }

  lemma SimilarKeys(e: Entries, e': Entries)
    requires Similar(e, e')
    ensures e'.Keys == e.Keys
  {
  }

  lemma SimilarKeepsEntries(e: Entries, e': Entries, now: Instant, later: Instant)
    requires EntriesOk(e, now) && Similar(e, e') && now <= later
    ensures EntriesOk(e', later)
  {
    forall id | id in e' ensures JobOk(e'[id], later) {
      assert SameSubstance(e[id], e'[id]) && JobOk(e[id], now);
    }
  }

  lemma SimilarKeepsTasks(e: Entries, e': Entries, tasks: map<JobId, Phase>, played: set<JobId>)
    requires TasksOk(e, tasks, played) && Similar(e, e')
    ensures TasksOk(e', tasks, played)
  {
    forall id | id in tasks ensures PhaseOk(e', id, tasks[id], played) {
      assert PhaseOk(e, id, tasks[id], played);
      if id in e { assert SameSubstance(e[id], e'[id]); }
    }
    forall id | id in e' && !Terminal(e'[id].stage) ensures id in tasks && tasks[id].Executing? {
      assert SameSubstance(e[id], e'[id]);
    }
  }

  lemma SimilarKeepsRecords(records: Records, e: Entries, e': Entries, now: Instant, later: Instant)
    requires RecordsOk(records, e, now) && Similar(e, e') && now <= later
    ensures RecordsOk(records, e', later)
  {
    forall k | k in records ensures RecordOk(k, records[k], e', later) {
      assert RecordOk(k, records[k], e, now);
      if records[k].jobId in e { assert SameSubstance(e[records[k].jobId], e'[records[k].jobId]); }
    }
  }

  // ------------------------------------------------------------------ reaping

  lemma ReapKeepsCounts(cfg: Config, e: Entries, kept: Entries, low: Instant, high: Instant)
    requires CountsOk(cfg, e) && Reaped(e, kept, low, high)
    ensures CountsOk(cfg, kept)
  {
    SubsetIsSmaller(kept.Keys, e.Keys);
    assert Active(kept) <= Active(e);
    SubsetIsSmaller(Active(kept), Active(e));
    assert |kept| == |kept.Keys| && |e| == |e.Keys|;
  }

  /** Unfinished jobs are never reaped. */
  lemma ReapKeepsTasks(e: Entries, kept: Entries, now: Instant, high: Instant, tasks: map<JobId, Phase>,
                       played: set<JobId>)
    requires EntriesOk(e, now) && TasksOk(e, tasks, played) && Reaped(e, kept, now, high)
    ensures TasksOk(kept, tasks, played)
  {
    forall id | id in tasks ensures PhaseOk(kept, id, tasks[id], played) {
      assert PhaseOk(e, id, tasks[id], played);
      if id in e { assert JobOk(e[id], now); }
    }
  }

  /** A record outlives its job only by lapsing first. */
  lemma ReapKeepsRecords(records: Records, e: Entries, kept: Entries, now: Instant, high: Instant)
    requires RecordsOk(records, e, now) && Reaped(e, kept, now, high) && now <= high
    ensures RecordsOk(records, kept, high)
  {
    forall k | k in records ensures RecordOk(k, records[k], kept, high) {
      assert RecordOk(k, records[k], e, now);
    }
  }

  lemma ReapKeepsEntries(e: Entries, kept: Entries, now: Instant, high: Instant)
    requires EntriesOk(e, now) && Reaped(e, kept, now, high) && now <= high
    ensures EntriesOk(kept, high)
  {
    forall id | id in kept ensures JobOk(kept[id], high) { assert JobOk(e[id], now); }
  }

  lemma LaterIsOk(records: Records, e: Entries, now: Instant, later: Instant)
    requires RecordsOk(records, e, now) && EntriesOk(e, now) && now <= later
    ensures RecordsOk(records, e, later) && EntriesOk(e, later)
  {
    forall k | k in records ensures RecordOk(k, records[k], e, later) { assert RecordOk(k, records[k], e, now); }
    forall id | id in e ensures JobOk(e[id], later) { assert JobOk(e[id], now); }
  }

  lemma ReapKeepsInv(s: State, kept: Entries, high: Instant)
    requires Inv(s) && Reaped(s.entries, kept, s.now, high) && s.now <= high
    ensures Inv(s.(now := high, entries := kept, retained := CounterAfterReap(s.retained, s.entries, kept)))
  {
    ReapKeepsCounter(s.entries, kept, s.retained, s.now, high);
    ReapKeepsCounts(s.cfg, s.entries, kept, s.now, high);
    ReapKeepsTasks(s.entries, kept, s.now, high, s.tasks, s.played);
    ReapKeepsRecords(s.records, s.entries, kept, s.now, high);
    ReapKeepsEntries(s.entries, kept, s.now, high);
    ReapShrinks(s.entries, kept, s.now, high);
    hide EntriesOk, CounterOk, CountsOk, TasksOk, RecordsOk, LockOk, Reaped;
  }

  lemma ReapShrinks(e: Entries, kept: Entries, low: Instant, high: Instant)
    requires Reaped(e, kept, low, high)
    ensures kept.Keys <= e.Keys
  {
  }

  // ------------------------------------------------------------------ completion

  lemma FinishIsOk(j: Job, retained: nat, x: Execution, looks: Looks, at: Instant, c: Control, now: Instant)
    requires !Terminal(j.stage) && j.audio.None? && at <= now
    ensures JobOk(Finish(j, retained, x, looks, at).(control := c), now)
    ensures var done := Finish(j, retained, x, looks, at);
      Terminal(done.stage) && done.owner == j.owner && done.retention == j.retention && done.finished == Some(at)
  {
  }

  lemma UpdateKeepsCounts(cfg: Config, e: Entries, id: JobId, j: Job)
    requires CountsOk(cfg, e) && id in e && Terminal(j.stage)
    ensures CountsOk(cfg, e[id := j])
  {
    assert e[id := j].Keys == e.Keys;
    assert |e[id := j]| == |e|;
    assert Active(e[id := j]) == Active(e) - {id};
  }

  lemma UpdateKeepsTasks(e: Entries, tasks: map<JobId, Phase>, played: set<JobId>, id: JobId, j: Job, p: Phase)
    requires TasksOk(e, tasks, played) && id in e && Terminal(j.stage)
    requires PhaseOk(e[id := j], id, p, played)
    ensures TasksOk(e[id := j], tasks[id := p], played)
  {
    var e', tasks' := e[id := j], tasks[id := p];
    forall k | k in tasks' ensures PhaseOk(e', k, tasks'[k], played) {
      if k != id { assert PhaseOk(e, k, tasks[k], played); }
    }
  }

  lemma UpdateKeepsRecords(records: Records, e: Entries, now: Instant, later: Instant, id: JobId, j: Job)
    requires RecordsOk(records, e, now) && id in e && now <= later
    requires j.owner == e[id].owner && j.retention == e[id].retention && j.finished.Some? && now <= j.finished.value
    ensures RecordsOk(records, e[id := j], later)
  {
    forall k | k in records ensures RecordOk(k, records[k], e[id := j], later) {
      assert RecordOk(k, records[k], e, now);
    }
  }

  lemma EntryIsThere(s: State, id: JobId)
    requires Inv(s) && id in s.tasks && s.tasks[id].Executing?
    ensures id in s.entries && s.entries[id].stage.Waiting? && s.entries[id].audio.None?
    ensures s.entries[id].retention == s.tasks[id].retention && id !in s.played
  {
    assert PhaseOk(s.entries, id, s.tasks[id], s.played);
    assert JobOk(s.entries[id], s.now);
  }

  lemma CompleteKeepsInv(s: State, id: JobId, x: Execution, looks: Looks, at: Instant, s': State)
    requires Inv(s) && s.now <= s'.now && CompleteStep(s, id, x, looks, at, s')
    ensures id in s.entries && Inv(s')
  {
    hide EntriesOk, CounterOk, CountsOk, TasksOk, RecordsOk, LockOk, Finish, CounterAfterFinish, LooksAt;
    EntryIsThere(s, id);
    var j := s.entries[id];
    var c := ControlAfter(j.control, looks);
    var done := Finish(j, s.retained, x, looks, at).(control := c);
    FinishIsOk(j, s.retained, x, looks, at, c, s'.now);
    FinishKeepsCounter(s.entries, s.retained, id, x, looks, at, c);
    UpdateKeepsCounts(s.cfg, s.entries, id, done);
    assert PhaseOk(s'.entries, id, s'.tasks[id], s'.played);
    UpdateKeepsTasks(s.entries, s.tasks, s.played, id, done, s'.tasks[id]);
    UpdateKeepsRecords(s.records, s.entries, s.now, s'.now, id, done);
    UpdateKeepsEntries(s.entries, s.now, s'.now, id, done);
  }

  lemma UpdateKeepsEntries(e: Entries, now: Instant, later: Instant, id: JobId, j: Job)
    requires EntriesOk(e, now) && now <= later && JobOk(j, later)
    ensures EntriesOk(e[id := j], later)
  {
    var e' := e[id := j];
    forall k | k in e' ensures JobOk(e'[k], later) {
      if k != id { assert JobOk(e[k], now); }
    }
  }

  // ------------------------------------------------------------------ admission

  lemma InsertKeepsEntries(e: Entries, at: Instant, now: Instant, id: JobId, r: Request)
    requires EntriesOk(e, at) && at <= now
    ensures EntriesOk(e[id := NewJob(r)], now)
  {
    var e' := e[id := NewJob(r)];
    forall k | k in e' ensures JobOk(e'[k], now) {
      if k != id { assert JobOk(e[k], at); }
    }
  }

  lemma InsertKeepsCounter(e: Entries, retained: nat, id: JobId, r: Request)
    requires CounterOk(e, retained) && id !in e
    ensures CounterOk(e[id := NewJob(r)], retained)
  {
    hide TotalAudio;
    TotalAudioUpdate(e, id, NewJob(r));
    assert e - {id} == e;
  }

  lemma InsertKeepsCounts(cfg: Config, e: Entries, id: JobId, r: Request)
    requires HasRoom(cfg, e) && id !in e
    ensures CountsOk(cfg, e[id := NewJob(r)])
  {
    hide Active;
    var e' := e[id := NewJob(r)];
    InsertIsActive(e, id, r);
    assert e'.Keys == e.Keys + {id};
    assert |e'| == |e'.Keys| && |e| == |e.Keys|;
  }

  lemma InsertIsActive(e: Entries, id: JobId, r: Request)
    requires id !in e
    ensures Active(e[id := NewJob(r)]) == Active(e) + {id} && id !in Active(e)
  {
  }

  lemma InsertKeepsTasks(e: Entries, tasks: map<JobId, Phase>, played: set<JobId>, id: JobId, r: Request)
    requires TasksOk(e, tasks, played) && id !in e && id !in played
    ensures TasksOk(e[id := NewJob(r)], tasks[id := Executing(r.retention)], played)
  {
    var e', tasks' := e[id := NewJob(r)], tasks[id := Executing(r.retention)];
    forall k | k in tasks' ensures PhaseOk(e', k, tasks'[k], played) {
      if k != id { assert PhaseOk(e, k, tasks[k], played); }
    }
    forall k | k in e' && !Terminal(e'[k].stage) ensures k in tasks' && tasks'[k].Executing? {
      if k != id { assert e'[k] == e[k]; }
    }
  }

  lemma InsertKeepsRecords(records: Records, e: Entries, at: Instant, now: Instant, id: JobId, r: Request)
    requires RecordsOk(records, e, at) && at <= now && id !in e
    requires forall k :: k in records ==> records[k].jobId != id
    ensures RecordsOk(records, e[id := NewJob(r)], now)
  {
    forall k | k in records ensures RecordOk(k, records[k], e[id := NewJob(r)], now) {
      assert RecordOk(k, records[k], e, at);
    }
  }

  /** Remembering a key never lets the table outgrow its cap. */
  lemma RememberKeepsRecords(records: Records, e: Entries, now: Instant, key: ScopedKey, rec: Record,
                             victim: Option<ScopedKey>)
    requires RecordsOk(records, e, now) && RecordOk(key, rec, e, now) && IsOldest(records, victim)
    ensures RecordsOk(Remember(records, key, rec, victim), e, now)
  {
    var rest := if victim.Some? then records - {victim.value} else records;
    RestIsSmaller(records, victim);
    forall k | k in rest ensures RecordOk(k, rest[k], e, now) { assert RecordOk(k, records[k], e, now); }
    hide RecordOk;
    assert rest[key := rec].Keys == rest.Keys + {key};
    assert |rest[key := rec]| == |rest[key := rec].Keys| && |rest| == |rest.Keys|;
  }

  lemma RestIsSmaller(records: Records, victim: Option<ScopedKey>)
    requires |records| <= MAX_IDEMPOTENCY_ENTRIES && IsOldest(records, victim)
    ensures |if victim.Some? then records - {victim.value} else records| < MAX_IDEMPOTENCY_ENTRIES
  {
    if victim.Some? {
      var rest := records - {victim.value};
      assert rest.Keys == records.Keys - {victim.value};
      assert |rest.Keys| == |rest| && |records.Keys| == |records|;
    }
  }

  /** The table of records after an admission. */
  ghost function Remembered(records: Records, r: Request, id: JobId, at: Instant, victim: Option<ScopedKey>): Records {
    if KeyOf(r).Some? then Remember(records, KeyOf(r).value, Record(r.fingerprint, id, at, r.retention), victim)
    else records
  }

  lemma AdmissionKeepsRecords(records: Records, e: Entries, at: Instant, now: Instant, id: JobId, r: Request,
                              victim: Option<ScopedKey>)
    requires RecordsOk(records, e, at) && at <= now && id !in e
    requires forall k :: k in records ==> records[k].jobId != id
    requires KeyOf(r).Some? ==> IsOldest(records, victim)
    ensures RecordsOk(Remembered(records, r, id, at, victim), e[id := NewJob(r)], now)
  {
    InsertKeepsRecords(records, e, at, now, id, r);
    if KeyOf(r).Some? {
      var rec := Record(r.fingerprint, id, at, r.retention);
      assert RecordOk(KeyOf(r).value, rec, e[id := NewJob(r)], now);
      hide RecordsOk, RecordOk, Remember, IsOldest;
      RememberKeepsRecords(records, e[id := NewJob(r)], now, KeyOf(r).value, rec, victim);
    }
  }

  lemma InsertKeepsUsed(s: State, s': State, kept: Entries, id: JobId, at: Instant, victim: Option<ScopedKey>,
                        r: Request)
    requires UsedOk(s) && kept.Keys <= s.entries.Keys
    requires s'.entries == kept[id := NewJob(r)] && s'.tasks == s.tasks[id := Executing(r.retention)]
    requires s'.played == s.played && s'.used == s.used + {id}
    requires s'.records == Remembered(s.records, r, id, at, victim)
    ensures UsedOk(s')
  {
  }

  lemma {:induction false} AdmitKeepsInv(s: State, id: JobId, at: Instant, victim: Option<ScopedKey>, s': State,
                                         reply: Reply)
    requires Inv(s) && AdmitStep(s, id, at, victim, s', reply)
    ensures Inv(s')
  {
    var kept :| Inserts(s, id, at, victim, kept, s');
    var r := s.lock.r;
    ReapKeepsInv(s, kept, at);
    ReapShrinks(s.entries, kept, s.now, at);
    assert s'.records == Remembered(s.records, r, id, at, victim);
    assert id !in s.entries;
    hide EntriesOk, CounterOk, CountsOk, TasksOk, RecordsOk, LockOk, Reaped, Remembered, Remember, IsOldest, HasRoom;
    InsertKeepsEntries(kept, at, s'.now, id, r);
    InsertKeepsCounter(kept, CounterAfterReap(s.retained, s.entries, kept), id, r);
    InsertKeepsCounts(s.cfg, kept, id, r);
    InsertKeepsTasks(kept, s.tasks, s.played, id, r);
    AdmissionKeepsRecords(s.records, kept, at, s'.now, id, r, victim);
    InsertKeepsUsed(s, s', kept, id, at, victim, r);
    FreeIsOk(s'.records);
  }

  lemma FreeIsOk(records: Records)
    ensures LockOk(records, Free)
  {
  }

  lemma RejectKeepsInv(s: State, s': State, reply: Reply)
    requires Inv(s) && RejectStep(s, s', reply) && s.now <= s'.now
    ensures Inv(s')
  {
    hide EntriesOk, CounterOk, CountsOk, TasksOk, RecordsOk, LockOk, UsedOk, Reaped, CounterAfterReap, HasRoom;
    ReapKeepsInv(s, s'.entries, s'.now);
    FreeIsOk(s'.records);
    LockStepKeepsInv(s.(now := s'.now, entries := s'.entries, retained := s'.retained), s'.records, Free, s'.now);
  }

  // ------------------------------------------------------------------ lookups

  lemma FewerRecordsAreOk(records: Records, fewer: Records, e: Entries, now: Instant)
    requires RecordsOk(records, e, now)
    requires fewer.Keys <= records.Keys && forall k :: k in fewer ==> fewer[k] == records[k]
    ensures RecordsOk(fewer, e, now)
  {
    forall k | k in fewer ensures RecordOk(k, fewer[k], e, now) { assert RecordOk(k, records[k], e, now); }
    hide RecordOk;
    SubsetIsSmaller(fewer.Keys, records.Keys);
    assert |fewer.Keys| == |fewer| && |records.Keys| == |records|;
  }

  /** Dropping records and moving the lock. */
  lemma LockStepKeepsInv(s: State, records: Records, lock: Lock, now: Instant)
    requires Inv(s) && s.now <= now && LockOk(records, lock)
    requires records.Keys <= s.records.Keys && forall k :: k in records ==> records[k] == s.records[k]
    ensures Inv(s.(now := now, records := records, lock := lock))
  {
    FewerRecordsAreOk(s.records, records, s.entries, s.now);
    LaterIsOk(records, s.entries, s.now, now);
    hide EntriesOk, CounterOk, CountsOk, TasksOk, RecordsOk, LockOk;
  }

  lemma LookupKeepsInv(s: State, r: Request, admitting: bool, s': State, reply: Reply)
    requires Inv(s) && s.now <= s'.now && LookupStep(s, r, admitting, s', reply)
    ensures Inv(s')
  {
    hide Inv;
    LockStepKeepsInv(s, s'.records, s'.lock, s'.now);
  }

  lemma LookingHasItsRecord(s: State)
    requires Inv(s) && s.lock.Looking?
    ensures KeyOf(s.lock.r).Some? && KeyOf(s.lock.r).value in s.records
  {
  }

  lemma ReadFoundKeepsInv(s: State, s': State, reply: Reply)
    requires Inv(s) && s.now <= s'.now && ReadFoundStep(s, s', reply)
    ensures Inv(s')
  {
    hide Inv;
    LockStepKeepsInv(s, s'.records, s'.lock, s'.now);
  }

  // ------------------------------------------------------------------ a job's last steps

  lemma TaskMovesOn(s: State, id: JobId, p: Phase, played: set<JobId>, now: Instant)
    requires Inv(s) && s.now <= now && id in s.tasks && !s.tasks[id].Executing?
    requires s.played <= played <= s.played + {id} && PhaseOk(s.entries, id, p, played)
    ensures Inv(s.(now := now, tasks := s.tasks[id := p], played := played))
  {
    LaterIsOk(s.records, s.entries, s.now, now);
    MovingOnKeepsTasks(s.entries, s.tasks, s.played, id, p, played);
    hide EntriesOk, CounterOk, CountsOk, TasksOk, RecordsOk, LockOk;
  }

  lemma MovingOnKeepsTasks(e: Entries, tasks: map<JobId, Phase>, before: set<JobId>, id: JobId, p: Phase,
                           played: set<JobId>)
    requires TasksOk(e, tasks, before) && id in tasks && !tasks[id].Executing?
    requires before <= played <= before + {id} && PhaseOk(e, id, p, played)
    ensures TasksOk(e, tasks[id := p], played)
  {
    var tasks' := tasks[id := p];
    forall k | k in tasks' ensures PhaseOk(e, k, tasks'[k], played) {
      if k != id { assert PhaseOk(e, k, tasks[k], before); }
    }
  }

  lemma EnqueueKeepsInv(s: State, id: JobId, s': State, reply: Reply)
    requires Inv(s) && Step(s, Enqueue(id), s', reply)
    ensures Inv(s')
  {
    assert PhaseOk(s.entries, id, s.tasks[id], s.played);
    TaskMovesOn(s, id, Playing(s.tasks[id].retention), s.played + {id}, s'.now);
  }

  lemma PlayedJobSleeps(s: State, id: JobId, now: Instant)
    requires Inv(s) && id in s.tasks && s.tasks[id].Playing? && s.now <= now
    ensures PhaseOk(s.entries, id, Sleeping(now + s.tasks[id].retention), s.played)
  {
    assert PhaseOk(s.entries, id, s.tasks[id], s.played);
    assert id in s.entries ==> JobOk(s.entries[id], s.now);
  }

  lemma ResolveKeepsInv(s: State, id: JobId, playback: Playback, s': State, reply: Reply)
    requires Inv(s) && Step(s, Resolve(id, playback), s', reply)
    ensures Inv(s')
  {
    hide Inv, PhaseOk;
    var p := Sleeping(s'.now + s.tasks[id].retention);
    PlayedJobSleeps(s, id, s'.now);
    TaskMovesOn(s, id, p, s.played, s'.now);
    SimilarKeepsInv(s.(now := s'.now, tasks := s.tasks[id := p]), s');
  }

  lemma WakeKeepsInv(s: State, id: JobId, s': State)
    requires Inv(s) && s.now <= s'.now && WakeStep(s, id, s')
    ensures Inv(s')
  {
    ReapKeepsInv(s, s'.entries, s'.now);
    hide EntriesOk, CounterOk, CountsOk, RecordsOk, LockOk, Reaped, CounterAfterReap;
    assert TasksOk(s'.entries, s.tasks, s.played);
    GoneKeepsTasks(s'.entries, s.tasks, s.played, id);
  }

  lemma GoneKeepsTasks(e: Entries, tasks: map<JobId, Phase>, played: set<JobId>, id: JobId)
    requires TasksOk(e, tasks, played) && id in tasks && !tasks[id].Executing?
    ensures TasksOk(e, tasks - {id}, played)
  {
    forall k | k in tasks - {id} ensures PhaseOk(e, k, (tasks - {id})[k], played) {
      assert PhaseOk(e, k, tasks[k], played);
    }
  }

  // ------------------------------------------------------------------ every step, every run

  lemma CancelStepsKeepInv(s: State, a: Action, s': State, reply: Reply)
    requires Inv(s) && Step(s, a, s', reply) && (a.CancelJob? || a.CancelAll? || a.DropRequest?)
    ensures Inv(s')
  {
    hide Inv;
    SimilarKeepsInv(s, s');
  }

  lemma StepKeepsInv(s: State, a: Action, s': State, reply: Reply)
    requires Inv(s) && Step(s, a, s', reply)
    ensures Inv(s')
  {
    hide Inv, LookupStep, ReadFoundStep, AdmitStep, RejectStep, CompleteStep, WakeStep;
    match a
    case Lookup(r, admitting) => LookupKeepsInv(s, r, admitting, s', reply);
    case ReadFound => ReadFoundKeepsInv(s, s', reply);
    case Admit(id, at, victim) => AdmitKeepsInv(s, id, at, victim, s', reply);
    case Reject => RejectKeepsInv(s, s', reply);
    case Complete(id, x, looks, at) => CompleteKeepsInv(s, id, x, looks, at, s');
    case Enqueue(id) => EnqueueKeepsInv(s, id, s', reply);
    case Resolve(id, playback) => ResolveKeepsInv(s, id, playback, s', reply);
    case Wake(id) => WakeKeepsInv(s, id, s');
    case _ => CancelStepsKeepInv(s, a, s', reply);
  }

  datatype Event = Event(action: Action, reply: Reply)

  ghost predicate IsRun(run: seq<State>, events: seq<Event>) {
    && |run| == |events| + 1 && Init(run[0])
    && forall i :: 0 <= i < |events| ==> StepOf(run, events, i)
  }

  ghost predicate StepOf(run: seq<State>, events: seq<Event>, i: nat)
    requires |run| == |events| + 1 && i < |events|
  {
    Step(run[i], events[i].action, run[i + 1], events[i].reply)
  }

  lemma {:induction false} RunKeepsInv(run: seq<State>, events: seq<Event>, n: nat)
    requires IsRun(run, events) && n <= |events|
    ensures Inv(run[n])
  {
    hide Step, Inv;
    if n == 0 {
      InitHolds(run[0]);
    } else {
      RunKeepsInv(run, events, n - 1);
      assert StepOf(run, events, n - 1);
      StepKeepsInv(run[n - 1], events[n - 1].action, run[n], events[n - 1].reply);
    }
  }
}
