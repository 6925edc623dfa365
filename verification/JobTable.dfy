/**
 The job store's lock sections in the form the program gives them: methods that update the two tables
 and the byte counter in place. Each section is proved to be a step of the protocol in `Jobs`, so what
 is proved there of every run holds of every sequence of these methods.
 */
module JobTable {
  import opened Common
  import opened Jobs
  import opened JobInvariant

  class JobStore {
    const cfg: Config
    var now: Instant
    var entries: Entries
    var idempotency: Records
    var retainedBytes: nat
    // Who holds the idempotency lock, and what each job's own task does next.
    ghost var lock: Lock
    ghost var tasks: map<JobId, Phase>
    ghost var played: set<JobId>
    ghost var used: set<JobId>

    ghost function Abs(): State
      reads this
    {
      State(cfg, now, entries, retainedBytes, idempotency, lock, tasks, played, used)
    }

    ghost predicate Valid()
      reads this
    {
      Inv(Abs())
    }

    constructor (cfg: Config)
      ensures Valid() && Init(Abs()) && this.cfg == cfg
    {
      this.cfg := cfg;
      now, entries, idempotency, retainedBytes := 0, map[], map[], 0;
      lock, tasks, played, used := Free, map[], {}, {};
      new;
      InitHolds(Abs());
    }

    /** A reading of the monotonic clock. */
    method Clock() returns (t: Instant)
      modifies this`now
      ensures t == now >= old(now)
    {
      var elapsed: nat :| true;
      now := now + elapsed;
      t := now;
    }

    /** `retain` over the jobs, each compared with its own clock reading. */
    method ReapLocked()
      requires EntriesOk(entries, now) && retainedBytes <= MAX_RETAINED_AUDIO_BYTES
      modifies this`now, this`entries, this`retainedBytes
      ensures now >= old(now) && Reaped(old(entries), entries, old(now), now)
      ensures retainedBytes == CounterAfterReap(old(retainedBytes), old(entries), entries)
    {
      hide TotalAudio, EntriesOk, SaturatingAdd, Dropped;
      ghost var before, low := entries, now;
      NothingDropped(before);
      var freed, rest := 0, entries.Keys;
      while rest != {}
        invariant rest <= entries.Keys <= before.Keys && now >= low && retainedBytes == old(retainedBytes)
        invariant forall id :: id in entries ==> entries[id] == before[id] && (id in rest || !Expired(before[id], low))
        invariant forall id :: id in before && id !in entries ==> Expired(before[id], now)
        invariant freed == Saturated(TotalAudio(Dropped(before, entries)))
        decreases rest
      {
        var id :| id in rest;
        rest := rest - {id};
        var t := Clock();
        var j := entries[id];
        FinishedInThePast(before, low, id);
        var keep := j.finished.None? || t - j.finished.value < j.retention;
        if !keep {
          DropOne(before, entries, id, freed);
          freed := SaturatingAdd(freed, AudioBytes(j));
          entries := entries - {id};
        }
      }
      var owed := Min(retainedBytes, freed);
      retainedBytes := retainedBytes - owed;
    }

    /** One look at a job's control. The flag may have been set from outside since the last look. */
    method Look(id: JobId) returns (stopped: bool)
      requires id in entries
      modifies this`now, this`entries
      ensures now >= old(now) && SameButControl(old(entries), entries, id)
      ensures stopped == Stopped(entries[id].control, now)
    {
      if * {
        entries := entries[id := entries[id].(control := entries[id].control.(cancelled := true))];
      }
      var t := Clock();
      stopped := Stopped(entries[id].control, t);
    }

    /** Refuses when the cap is reached, the entry is gone, has audio, has ended or is stopped. */
    method StoreCompletedAudioLocked(id: JobId, audio: Audio) returns (stored: bool, ghost look: bool)
      modifies this`now, this`entries, this`retainedBytes
      ensures now >= old(now)
      ensures retainedBytes == old(retainedBytes) + if stored then |audio.bytes| else 0
      ensures stored == (id in old(entries) && Stores(old(retainedBytes), old(entries)[id], audio, look))
      ensures id !in old(entries) ==> entries == old(entries)
      ensures id in old(entries) ==>
        && id in entries
        && SameButControl(old(entries)[id := old(entries)[id].(audio := entries[id].audio)], entries, id)
        && entries[id].audio == (if stored then Some(audio) else old(entries)[id].audio)
        && (look ==> Stopped(entries[id].control, now))
        && (stored ==> !Stopped(old(entries)[id].control, old(now)))
    {
      stored, look := false, false;
      if SaturatingAdd(retainedBytes, |audio.bytes|) > MAX_RETAINED_AUDIO_BYTES { return; }
      if id !in entries { return; }
      if entries[id].audio.Some? || Terminal(entries[id].stage) { return; }
      var stopped := Look(id);
      look := stopped;
      if stopped { return; }
      retainedBytes := retainedBytes + |audio.bytes|;
      entries := entries[id := entries[id].(audio := Some(audio))];
      stored := true;
    }

    /** The branch for produced audio: store it, or look again to tell a stop from a lack of room. */
    method StoreOrRefuse(id: JobId, audio: Audio) returns (ghost second: bool, ghost third: bool)
      requires id in entries && entries[id].stage.Waiting?
      modifies this`now, this`entries, this`retainedBytes
      ensures now >= old(now) && id in entries && (second ==> third) && (third ==> Stopped(entries[id].control, now))
      ensures var j, looks := old(entries)[id], Looks(false, second, third, entries[id].control.cancelled);
        && Raised(j.control, entries[id].control)
        && entries == old(entries)[id := Settled(j, old(retainedBytes), Produced(audio), looks)]
        && retainedBytes == CounterAfterFinish(j, old(retainedBytes), Produced(audio), looks)
    {
      hide SaturatingAdd, Stores;
      var stored;
      stored, second := StoreCompletedAudioLocked(id, audio);
      third := second;
      if stored {
        entries := entries[id := entries[id].(stage := Completed)];
      } else {
        var stopped := Look(id);
        third := stopped;
        entries := entries[id := entries[id].(stage := if stopped then Cancelled else Failed)];
      }
    }

    method ResolveStage(id: JobId, execution: Execution) returns (ghost looks: Looks)
      requires id in entries && entries[id].stage.Waiting? && entries[id].audio.None?
      modifies this`now, this`entries, this`retainedBytes
      ensures now >= old(now)
      ensures var j := old(entries)[id];
        && LooksAt(j.control, old(now), now, looks)
        && entries == old(entries)[id := Settled(j, old(retainedBytes), execution, looks)]
        && retainedBytes == CounterAfterFinish(j, old(retainedBytes), execution, looks)
    {
      hide SaturatingAdd, Stores, Outcome, Settled, LooksAt, CounterAfterFinish, Stopped;
      ghost var j, retained, low := entries[id], retainedBytes, now;
      var first := Look(id);
      ghost var c, seen := entries[id].control, now;
      looks := Looks(first, first, first, c.cancelled);
      if first {
        StoppedAtOnce(j, c, retained, execution, low, seen);
        entries := entries[id := entries[id].(stage := Cancelled)];
      } else if execution.Produced? {
        ghost var second, third := StoreOrRefuse(id, execution.audio);
        looks := Looks(false, second, third, entries[id].control.cancelled);
        NotStoppedAtFirst(j, c, entries[id].control, low, seen, now, looks);
        ControlDecidesNothing(j, c, retained, execution, looks);
      } else {
        NotStoppedAtFirst(j, c, c, low, seen, now, looks);
        NothingProduced(j, c, retained, execution);
        entries := entries[id := entries[id].(stage := Failed)];
      }
    }

    /** The completion section: resolves the terminal stage, stores the audio, stamps the end. */
    method CompleteSection(id: JobId, execution: Execution)
      returns (pending: Option<Audio>, ghost looks: Looks, ghost at: Instant)
      requires Valid() && id in tasks && tasks[id].Executing?
      modifies this
      ensures Valid() && Step(old(Abs()), Complete(id, execution, looks, at), Abs(), Nothing)
      ensures pending == if tasks[id].ToPlay? then Some(tasks[id].audio) else None
    {
      hide Inv, Step, SaturatingAdd, Stores, LooksAt, Outcome, CounterAfterFinish, Terminal;
      ghost var s := Abs();
      EntryIsThere(s, id);
      var retention := entries[id].retention;
      looks := ResolveStage(id, execution);
      var j := entries[id];
      ghost var ended := now;
      var t := Clock();
      at := t;
      entries := entries[id := Stamped(j, t)];
      assert entries == s.entries[id := Stamped(j, t)];
      pending := if j.wantsPlayback && j.stage.Completed? then j.audio else None;
      tasks := tasks[id := if pending.Some? then ToPlay(pending.value, retention) else Sleeping(now + retention)];
      OutcomeKeepsRequest(s.entries[id], s.retained, execution, looks);
      LooksLater(s.entries[id].control, s.now, ended, now, looks);
      CompletesAsStep(s, id, execution, looks, at, Abs());
    }

    // ---------------------------------------------------------------- idempotency

    /** `retain` over the records, each compared with its own clock reading. */
    method ReapIdempotencyLocked()
      requires forall k :: k in idempotency ==> idempotency[k].recorded <= now
      modifies this`now, this`idempotency
      ensures now >= old(now) && ReapedRecords(old(idempotency), idempotency, old(now), now)
    {
      ghost var before, low := idempotency, now;
      var rest := idempotency.Keys;
      while rest != {}
        invariant rest <= idempotency.Keys <= before.Keys && now >= low
        invariant forall k :: k in idempotency ==> idempotency[k] == before[k] && (k in rest || !Lapsed(before[k], low))
        invariant forall k :: k in before && k !in idempotency ==> Lapsed(before[k], now)
        decreases rest
      {
        var k :| k in rest;
        rest := rest - {k};
        var t := Clock();
        var entry := idempotency[k];
        if !(t - entry.recorded < entry.retention) { idempotency := idempotency - {k}; }
      }
    }

    /** `min_by_key` over the recording times. */
    method OldestRecord() returns (oldest: ScopedKey)
      requires idempotency != map[]
      ensures oldest in idempotency
      ensures forall k :: k in idempotency ==> idempotency[oldest].recorded <= idempotency[k].recorded
    {
      oldest :| oldest in idempotency;
      var rest := idempotency.Keys - {oldest};
      while rest != {}
        invariant oldest in idempotency && rest <= idempotency.Keys
        invariant forall k :: k in idempotency.Keys - rest ==> idempotency[oldest].recorded <= idempotency[k].recorded
        decreases rest
      {
        var k :| k in rest;
        if idempotency[k].recorded < idempotency[oldest].recorded { oldest := k; }
        rest := rest - {k};
      }
    }

    method RememberIdempotencyLocked(key: ScopedKey, fingerprint: string, id: JobId, retention: nat)
      returns (ghost victim: Option<ScopedKey>, ghost at: Instant)
      modifies this`now, this`idempotency
      ensures old(now) <= at <= now && IsOldest(old(idempotency), victim)
      ensures idempotency == Remember(old(idempotency), key, Record(fingerprint, id, at, retention), victim)
    {
      victim := None;
      if |idempotency| >= MAX_IDEMPOTENCY_ENTRIES {
        var oldest := OldestRecord();
        victim := Some(oldest);
        idempotency := idempotency - {oldest};
      }
      var t := Clock();
      at := t;
      idempotency := idempotency[key := Record(fingerprint, id, t, retention)];
    }

    method Snapshot(id: JobId, owner: string) returns (job: Option<Job>)
      ensures job == if Visible(entries, id, owner) then Some(entries[id]) else None
    {
      job := if id in entries && entries[id].owner == owner then Some(entries[id]) else None;
    }

    /** A lookup up to the point where it reads the job: on the fast path, or again before inserting. */
    method LookupSection(r: Request, admitting: bool) returns (reply: Reply)
      requires Valid() && lock.Free?
      modifies this`now, this`idempotency, this`lock
      ensures Valid() && Step(old(Abs()), Lookup(r, admitting), Abs(), reply)
    {
      hide Inv, Step, ReapedRecords;
      ghost var s := Abs();
      RecordedInThePast(s);
      var key := KeyOf(r);
      reply := Nothing;
      if key.Some? || admitting { ReapIdempotencyLocked(); }
      if key.None? || key.value !in idempotency {
        lock := if admitting then Admitting(r) else Free;
      } else if idempotency[key.value].fingerprint != r.fingerprint {
        reply := Conflict;
      } else {
        lock := Looking(r, admitting);
      }
      LooksUpAsStep(s, r, admitting, Abs(), reply);
    }

    /** The rest of a lookup: the job's snapshot, or the record is forgotten. */
    method ReadFoundSection(r: Request, admitting: bool) returns (reply: Reply)
      requires Valid() && lock == Looking(r, admitting)
      modifies this`idempotency, this`lock
      ensures Valid() && Step(old(Abs()), ReadFound, Abs(), reply)
    {
      hide Inv, Step;
      ghost var s := Abs();
      LookingHasItsRecord(s);
      var key := KeyOf(r).value;
      var id := idempotency[key].jobId;
      var job := Snapshot(id, r.owner);
      if job.Some? {
        reply := Found(id);
        lock := Free;
      } else {
        reply := Nothing;
        idempotency := idempotency - {key};
        lock := if admitting then Admitting(r) else Free;
      }
      ReadsAsStep(s, Abs(), reply);
    }

    /** The admission section under both locks: reap, check the capacities, insert, remember the key. */
    method AdmitSection(r: Request, id: JobId)
      returns (reply: Reply, ghost victim: Option<ScopedKey>, ghost at: Instant)
      requires Valid() && lock == Admitting(r) && id !in used
      modifies this
      ensures Valid() && (reply == Accepted(id) || reply == TooManyRequests)
      ensures Step(old(Abs()), if reply.Accepted? then Admit(id, at, victim) else Reject, Abs(), reply)
    {
      hide Inv, Step, EntriesOk, Reaped, CounterAfterReap, IsOldest, MaxActive;
      ghost var s := Abs();
      ReadyToReap(s);
      ReapLocked();
      victim, at := None, now;
      ghost var kept, reaped := entries, now;
      if |entries| >= cfg.maxRetainedJobs || |Active(entries)| >= MaxActive(cfg) {
        lock, reply := Free, TooManyRequests;
        RejectsAsStep(s, Abs());
        return;
      }
      entries := entries[id := NewJob(r)];
      reply := Accepted(id);
      var key := KeyOf(r);
      if key.Some? {
        victim, at := RememberIdempotencyLocked(key.value, r.fingerprint, id, r.retention);
      }
      lock, tasks, used := Free, tasks[id := Executing(r.retention)], used + {id};
      AdmitsAsStep(s, id, at, victim, kept, reaped, Abs());
    }

    // ---------------------------------------------------------------- cancellation and a job's end

    method CancelSection(id: JobId)
      requires Valid()
      modifies this`entries
      ensures Valid() && Step(old(Abs()), CancelJob(id), Abs(), Nothing)
    {
      hide Inv;
      ghost var s := Abs();
      if id in entries && !Terminal(entries[id].stage) {
        entries := entries[id := entries[id].(control := entries[id].control.(cancelled := true))];
      }
      assert id in s.entries && Terminal(s.entries[id].stage) ==> s.entries[id := Cancel(s.entries[id])] == s.entries;
      StepKeepsInv(s, CancelJob(id), Abs(), Nothing);
    }

    method CancelAllSection()
      requires Valid()
      modifies this`entries
      ensures Valid() && Step(old(Abs()), CancelAll, Abs(), Nothing)
    {
      hide Inv;
      ghost var s := Abs();
      var rest := entries.Keys;
      while rest != {}
        invariant rest <= entries.Keys == s.entries.Keys
        invariant forall id :: id in entries ==>
          entries[id] == if id in rest then s.entries[id] else Cancel(s.entries[id])
        decreases rest
      {
        var id :| id in rest;
        rest := rest - {id};
        if !Terminal(entries[id].stage) {
          entries := entries[id := entries[id].(control := entries[id].control.(cancelled := true))];
        }
      }
      assert entries == map id | id in s.entries :: Cancel(s.entries[id]);
      StepKeepsInv(s, CancelAll, Abs(), Nothing);
    }

    method ResolveSection(id: JobId, resolved: Playback)
      requires Valid() && id in tasks && tasks[id].Playing? && (resolved.Queued? || resolved.Refused?)
      modifies this`entries, this`tasks
      ensures Valid() && Step(old(Abs()), Resolve(id, resolved), Abs(), Nothing)
    {
      hide Inv;
      ghost var s := Abs();
      if id in entries { entries := entries[id := entries[id].(playback := resolved)]; }
      tasks := tasks[id := Sleeping(now + tasks[id].retention)];
      StepKeepsInv(s, Resolve(id, resolved), Abs(), Nothing);
    }

    /** The section that ends a job's task, once its sleep is over. */
    method WakeSection(id: JobId)
      requires Valid() && id in tasks && tasks[id].Sleeping? && now >= tasks[id].until
      modifies this`now, this`entries, this`retainedBytes, this`tasks
      ensures Valid() && Step(old(Abs()), Wake(id), Abs(), Nothing)
    {
      hide Inv, EntriesOk, Reaped, CounterAfterReap;
      ghost var s := Abs();
      ReadyToReap(s);
      ReapLocked();
      tasks := tasks - {id};
      StepKeepsInv(s, Wake(id), Abs(), Nothing);
    }
  }

  function Saturated(x: nat): nat { Min(x, USIZE_MAX) }

  lemma NothingDropped(e: Entries)
    ensures TotalAudio(Dropped(e, e)) == 0
  {
    assert Dropped(e, e) == map[];
    NothingIsSilent();
  }

  lemma FinishedInThePast(e: Entries, now: Instant, id: JobId)
    requires EntriesOk(e, now) && id in e
    ensures e[id].finished.Some? ==> e[id].finished.value <= now
  {
    assert JobOk(e[id], now);
  }

  lemma DropOne(before: Entries, e: Entries, id: JobId, freed: nat)
    requires id in e && e.Keys <= before.Keys && e[id] == before[id]
    requires freed == Saturated(TotalAudio(Dropped(before, e)))
    ensures SaturatingAdd(freed, AudioBytes(e[id])) == Saturated(TotalAudio(Dropped(before, e - {id})))
  {
    hide TotalAudio;
    TotalAudioRemove(Dropped(before, e - {id}), id);
    assert Dropped(before, e - {id}) - {id} == Dropped(before, e);
  }

  /** The job as the completion section leaves it, before its end is stamped. */
  function Settled(j: Job, retained: nat, x: Execution, looks: Looks): Job {
    Outcome(j, retained, x, looks).(control := ControlAfter(j.control, looks))
  }

  /** The flag may have been set in between. */
  ghost predicate Raised(c: Control, c': Control) {
    c'.deadline == c.deadline && (c.cancelled ==> c'.cancelled)
  }

  lemma StoppedAtOnce(j: Job, c: Control, retained: nat, x: Execution, low: Instant, now: Instant)
    requires Raised(j.control, c) && Stopped(c, now) && low <= now
    ensures var looks := Looks(true, true, true, c.cancelled);
      && LooksAt(j.control, low, now, looks) && Settled(j, retained, x, looks) == j.(control := c, stage := Cancelled)
      && CounterAfterFinish(j, retained, x, looks) == retained
  {
  }

  lemma NothingProduced(j: Job, c: Control, retained: nat, x: Execution)
    requires Raised(j.control, c) && !x.Produced?
    ensures var looks := Looks(false, false, false, c.cancelled);
      && Settled(j, retained, x, looks) == j.(control := c, stage := Failed)
      && CounterAfterFinish(j, retained, x, looks) == retained
  {
  }

  /** A first look that is down rules out a stop before the section. */
  lemma NotStoppedAtFirst(j: Job, c: Control, c': Control, low: Instant, seen: Instant, now: Instant, looks: Looks)
    requires Raised(j.control, c) && Raised(c, c') && low <= seen <= now && !Stopped(c, seen)
    requires !looks.first && (looks.second ==> looks.third) && (looks.third ==> Stopped(c', now))
    requires looks.flag == c'.cancelled
    ensures LooksAt(j.control, low, now, looks)
  {
  }

  lemma ControlDecidesNothing(j: Job, c: Control, retained: nat, x: Execution, looks: Looks)
    requires c.deadline == j.control.deadline
    ensures Settled(j.(control := c), retained, x, looks) == Settled(j, retained, x, looks)
    ensures CounterAfterFinish(j.(control := c), retained, x, looks) == CounterAfterFinish(j, retained, x, looks)
  {
  }

  /** Only the flag of one job may have changed, and only upwards. */
  ghost predicate SameButControl(before: Entries, after: Entries, id: JobId) {
    && id in before && id in after && after == before[id := before[id].(control := after[id].control)]
    && Raised(before[id].control, after[id].control)
  }

  /** Writing the parts of the completion section one after the other amounts to the step. */
  lemma CompletesAsStep(s: State, id: JobId, x: Execution, looks: Looks, at: Instant, s': State)
    requires Inv(s) && id in s.tasks && s.tasks[id].Executing? && id in s.entries && s.now <= at <= s'.now
    requires s.entries[id].retention == s.tasks[id].retention && LooksAt(s.entries[id].control, s.now, s'.now, looks)
    requires var j := s.entries[id];
      var written := Settled(j, s.retained, x, looks);
      s' == s.(now := s'.now, entries := s.entries[id := Stamped(written, at)],
               retained := CounterAfterFinish(j, s.retained, x, looks),
               tasks := s.tasks[id := if j.wantsPlayback && written.stage.Completed? && written.audio.Some?
                                      then ToPlay(written.audio.value, j.retention)
                                      else Sleeping(s'.now + j.retention)])
    ensures Step(s, Complete(id, x, looks, at), s', Nothing) && Inv(s')
  {
    hide Inv, LooksAt, Outcome, CounterAfterFinish;
    OutcomeKeepsRequest(s.entries[id], s.retained, x, looks);
    StepKeepsInv(s, Complete(id, x, looks, at), s', Nothing);
  }

  lemma LooksLater(c: Control, low: Instant, high: Instant, later: Instant, looks: Looks)
    requires LooksAt(c, low, high, looks) && high <= later
    ensures LooksAt(c, low, later, looks)
  {
  }

  lemma OutcomeKeepsRequest(j: Job, retained: nat, x: Execution, looks: Looks)
    ensures Outcome(j, retained, x, looks).wantsPlayback == j.wantsPlayback
  {
  }

  lemma ReadyToReap(s: State)
    requires Inv(s)
    ensures EntriesOk(s.entries, s.now) && s.retained <= MAX_RETAINED_AUDIO_BYTES
  {
  }

  lemma RecordedInThePast(s: State)
    requires Inv(s)
    ensures forall k :: k in s.records ==> s.records[k].recorded <= s.now
  {
    forall k | k in s.records ensures s.records[k].recorded <= s.now {
      assert RecordOk(k, s.records[k], s.entries, s.now);
    }
  }

  lemma LooksUpAsStep(s: State, r: Request, admitting: bool, s': State, reply: Reply)
    requires Inv(s) && s.now <= s'.now && LookupStep(s, r, admitting, s', reply)
    ensures Step(s, Lookup(r, admitting), s', reply) && Inv(s')
  {
    hide Inv, LookupStep;
    StepKeepsInv(s, Lookup(r, admitting), s', reply);
  }

  lemma ReadsAsStep(s: State, s': State, reply: Reply)
    requires Inv(s) && s.now <= s'.now && ReadFoundStep(s, s', reply)
    ensures Step(s, ReadFound, s', reply) && Inv(s')
  {
    hide Inv, ReadFoundStep;
    StepKeepsInv(s, ReadFound, s', reply);
  }

  lemma RejectsAsStep(s: State, s': State)
    requires Inv(s) && s.lock.Admitting? && s.now <= s'.now && Reaped(s.entries, s'.entries, s.now, s'.now)
    requires !HasRoom(s.cfg, s'.entries)
    requires s' == s.(now := s'.now, entries := s'.entries, lock := Free,
                      retained := CounterAfterReap(s.retained, s.entries, s'.entries))
    ensures Step(s, Reject, s', TooManyRequests) && Inv(s')
  {
    hide Inv, Reaped, CounterAfterReap, HasRoom;
    StepKeepsInv(s, Reject, s', TooManyRequests);
  }

  lemma ReapedLater(before: Entries, after: Entries, low: Instant, high: Instant, later: Instant)
    requires Reaped(before, after, low, high) && high <= later
    ensures Reaped(before, after, low, later)
  {
  }

  lemma AdmitsAsStep(s: State, id: JobId, at: Instant, victim: Option<ScopedKey>, kept: Entries, reaped: Instant,
                     s': State)
    requires Inv(s) && s.lock.Admitting? && id !in s.used && s.now <= reaped <= at <= s'.now
    requires Reaped(s.entries, kept, s.now, reaped) && HasRoom(s.cfg, kept)
    requires if KeyOf(s.lock.r).Some? then IsOldest(s.records, victim) else victim.None?
    requires s' == s.(now := s'.now, entries := kept[id := NewJob(s.lock.r)],
                      retained := CounterAfterReap(s.retained, s.entries, kept),
                      records := Remembered(s.records, s.lock.r, id, at, victim), lock := Free,
                      tasks := s.tasks[id := Executing(s.lock.r.retention)], used := s.used + {id})
    ensures Step(s, Admit(id, at, victim), s', Accepted(id)) && Inv(s')
  {
    hide Inv, Reaped, CounterAfterReap, HasRoom, IsOldest, Remember;
    ReapedLater(s.entries, kept, s.now, reaped, at);
    assert Inserts(s, id, at, victim, kept, s');
    StepKeepsInv(s, Admit(id, at, victim), s', Accepted(id));
  }
}
