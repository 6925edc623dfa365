/**
 Synthesis jobs: the job table with its byte counter, the idempotency table beside it, and the background
 task that completes each job.

 Every lock section is one step of `Step`. A step may take time, and each of its clock readings may
 fall anywhere between `now` before and `now` after. The idempotency lock is held across several
 sections of the entries lock, so other tasks' entries sections interleave with a lookup.
 */
module Jobs {
  import opened Common
  import opened Sums

  type JobId = string
  type Instant = nat

  const MAX_RETAINED_AUDIO_BYTES: nat := 64 * 1024 * 1024
  const MAX_IDEMPOTENCY_ENTRIES: nat := 1024

  // ------------------------------------------------------------------ entities

  datatype Control = Control(cancelled: bool, deadline: Instant)

  function Stopped(c: Control, now: Instant): bool { c.cancelled || now >= c.deadline }

  datatype Stage = Waiting | Completed | Failed | Cancelled

  function Terminal(s: Stage): bool { !s.Waiting? }

  datatype Audio = Audio(kind: string, bytes: seq<nat>)

  datatype Playback = Absent | Pending | Skipped | Queued(queueId: string) | Refused

  datatype Job = Job(owner: string, control: Control, stage: Stage, finished: Option<Instant>, retention: nat,
                     audio: Option<Audio>, wantsPlayback: bool, playback: Playback)

  function AudioBytes(j: Job): nat { if j.audio.Some? then |j.audio.value.bytes| else 0 }

  type Entries = map<JobId, Job>

  /** Keys are scoped by the principal that sent them. */
  datatype ScopedKey = ScopedKey(owner: string, key: string)

  datatype Record = Record(fingerprint: string, jobId: JobId, recorded: Instant, retention: nat)

  type Records = map<ScopedKey, Record>

  datatype Request = Request(owner: string, key: Option<string>, fingerprint: string, retention: nat,
                             deadline: Instant, playback: bool)

  function KeyOf(r: Request): Option<ScopedKey> {
    if r.key.Some? then Some(ScopedKey(r.owner, r.key.value)) else None
  }

  datatype Config = Config(maxRetainedJobs: nat, maxConcurrent: nat, maxPending: nat)

  function MaxActive(c: Config): nat { SaturatingAdd(c.maxConcurrent, c.maxPending) }

  // ------------------------------------------------------------------ reaping

  function Expired(j: Job, now: Instant): bool { j.finished.Some? && now >= j.finished.value + j.retention }

  function Lapsed(r: Record, now: Instant): bool { now >= r.recorded + r.retention }

  /** `after` is what `retain` leaves of `before` when its clock readings fall in [low, high]. */
  ghost predicate Reaped(before: Entries, after: Entries, low: Instant, high: Instant) {
    && after.Keys <= before.Keys
    && (forall id :: id in after ==> after[id] == before[id] && !Expired(before[id], low))
    && (forall id :: id in before && id !in after ==> Expired(before[id], high))
  }

  ghost predicate ReapedRecords(before: Records, after: Records, low: Instant, high: Instant) {
    && after.Keys <= before.Keys
    && (forall k :: k in after ==> after[k] == before[k] && !Lapsed(before[k], low))
    && (forall k :: k in before && k !in after ==> Lapsed(before[k], high))
  }

  ghost function TotalAudio(e: Entries): nat { Sum(map id | id in e :: AudioBytes(e[id])) }

  ghost function Dropped(before: Entries, after: Entries): Entries {
    map id | id in before && id !in after :: before[id]
  }

  /** The counter after a reap, with the clamp the program applies. */
  ghost function CounterAfterReap(retained: nat, before: Entries, after: Entries): nat {
    retained - Min(retained, TotalAudio(Dropped(before, after)))
  }

  // ------------------------------------------------------------------ completion

  datatype Execution = Produced(audio: Audio) | FailedWith | Lost

  /** Three successive looks at the job's control during the completion section, and the cancelled flag
      it leaves: the flag may be set from outside while the section runs. */
  datatype Looks = Looks(first: bool, second: bool, third: bool, flag: bool)

  function Stores(retained: nat, j: Job, audio: Audio, stopped: bool): bool {
    && SaturatingAdd(retained, |audio.bytes|) <= MAX_RETAINED_AUDIO_BYTES
    && j.audio.None? && !Terminal(j.stage) && !stopped
  }

  /** The terminal stage, with the audio if it is kept. */
  function Outcome(j: Job, retained: nat, x: Execution, looks: Looks): Job {
    if looks.first then j.(stage := Cancelled)
    else
      match x
      case Produced(audio) =>
        if Stores(retained, j, audio, looks.second) then j.(stage := Completed, audio := Some(audio))
        else if looks.third then j.(stage := Cancelled)
        else j.(stage := Failed)
      case _ => j.(stage := Failed)
  }

  /** The end is stamped, and a playback intent published, before the lock is released. */
  function Stamped(done: Job, at: Instant): Job {
    done.(finished := Some(at),
          playback := if !done.wantsPlayback then done.playback else if done.stage.Completed? then Pending else Skipped)
  }

  function Finish(j: Job, retained: nat, x: Execution, looks: Looks, at: Instant): Job {
    Stamped(Outcome(j, retained, x, looks), at)
  }

  function ControlAfter(c: Control, looks: Looks): Control { c.(cancelled := looks.flag) }

  function CounterAfterFinish(j: Job, retained: nat, x: Execution, looks: Looks): nat {
    if !looks.first && x.Produced? && Stores(retained, j, x.audio, looks.second) then retained + |x.audio.bytes|
    else retained
  }

  // ------------------------------------------------------------------ state

  /** Who holds the idempotency lock, and how far it has come. */
  datatype Lock =
    | Free
    | Looking(r: Request, admitting: bool)  // found a record with this fingerprint, job not yet read
    | Admitting(r: Request)                 // found nothing, about to insert

  /** A job's own task: it executes, completes the job, may hand audio to playback, sleeps and reaps. */
  datatype Phase =
    | Executing(retention: nat)
    | ToPlay(audio: Audio, retention: nat)
    | Playing(retention: nat)
    | Sleeping(until: Instant)

  datatype State = State(cfg: Config, now: Instant, entries: Entries, retained: nat, records: Records, lock: Lock,
                         tasks: map<JobId, Phase>, played: set<JobId>, used: set<JobId>)

  datatype Action =
    | Lookup(r: Request, admitting: bool)
    | ReadFound
    | Admit(id: JobId, at: Instant, victim: Option<ScopedKey>)
    | Reject
    | Complete(id: JobId, x: Execution, looks: Looks, at: Instant)
    | Enqueue(id: JobId)
    | Resolve(id: JobId, playback: Playback)
    | Wake(id: JobId)
    | CancelJob(id: JobId)
    | CancelAll
    | DropRequest(id: JobId)

  datatype Reply = Nothing | Found(id: JobId) | Conflict | Accepted(id: JobId) | TooManyRequests

  /** A snapshot finds a job only for its owner. */
  function Visible(e: Entries, id: JobId, owner: string): bool { id in e && e[id].owner == owner }

  /** First section of a lookup: reap the records and compare fingerprints. A request without a key
      looks nothing up, and the fast path then does not even take the lock. */
  ghost predicate LookupStep(s: State, r: Request, admitting: bool, s': State, reply: Reply) {
    var key := KeyOf(r);
    && s.lock.Free?
    && (if key.None? && !admitting then s'.records == s.records
        else ReapedRecords(s.records, s'.records, s.now, s'.now))
    && s' == s.(now := s'.now, records := s'.records, lock := s'.lock)
    && (if key.None? || key.value !in s'.records then
          reply == Nothing && s'.lock == (if admitting then Admitting(r) else Free)
        else if s'.records[key.value].fingerprint != r.fingerprint then reply == Conflict && s'.lock == Free
        else reply == Nothing && s'.lock == Looking(r, admitting))
  }

  /** Second section: read the job, or forget a record whose job is gone. */
  ghost predicate ReadFoundStep(s: State, s': State, reply: Reply) {
    && s.lock.Looking? && KeyOf(s.lock.r).Some? && KeyOf(s.lock.r).value in s.records
    && var key := KeyOf(s.lock.r).value;
       var id := s.records[key].jobId;
       if Visible(s.entries, id, s.lock.r.owner) then
         reply == Found(id) && s' == s.(now := s'.now, lock := Free)
       else
         reply == Nothing && s' == s.(now := s'.now, records := s.records - {key},
                                      lock := if s.lock.admitting then Admitting(s.lock.r) else Free)
  }

  function Active(e: Entries): set<JobId> { set id | id in e && !Terminal(e[id].stage) }

  predicate HasRoom(cfg: Config, e: Entries) {
    |e| < cfg.maxRetainedJobs && |Active(e)| < MaxActive(cfg)
  }

  function NewJob(r: Request): Job {
    Job(r.owner, Control(false, r.deadline), Waiting, None, r.retention, None, r.playback, Absent)
  }

  /** The record evicted for room: one with the oldest recording time. */
  ghost predicate IsOldest(records: Records, victim: Option<ScopedKey>) {
    if |records| >= MAX_IDEMPOTENCY_ENTRIES then
      victim.Some? && victim.value in records
      && forall k :: k in records ==> records[victim.value].recorded <= records[k].recorded
    else victim.None?
  }

  ghost function Remember(records: Records, key: ScopedKey, rec: Record, victim: Option<ScopedKey>): Records {
    (if victim.Some? then records - {victim.value} else records)[key := rec]
  }

  /** Insertion: reap, check capacity, insert, remember the key; both locks are released together. */
  ghost predicate AdmitStep(s: State, id: JobId, at: Instant, victim: Option<ScopedKey>, s': State, reply: Reply) {
    && s.lock.Admitting? && id !in s.used && s.now <= at <= s'.now && reply == Accepted(id)
    && (if KeyOf(s.lock.r).Some? then IsOldest(s.records, victim) else victim.None?)
    && exists kept :: Inserts(s, id, at, victim, kept, s')
  }

  ghost predicate Inserts(s: State, id: JobId, at: Instant, victim: Option<ScopedKey>, kept: Entries, s': State)
    requires s.lock.Admitting?
  {
    var r := s.lock.r;
    var key := KeyOf(r);
    && Reaped(s.entries, kept, s.now, at) && HasRoom(s.cfg, kept)
    && s' == s.(now := s'.now, entries := kept[id := NewJob(r)],
                retained := CounterAfterReap(s.retained, s.entries, kept),
                records := if key.Some?
                           then Remember(s.records, key.value, Record(r.fingerprint, id, at, r.retention), victim)
                           else s.records,
                lock := Free, tasks := s.tasks[id := Executing(r.retention)], used := s.used + {id})
  }

  ghost predicate RejectStep(s: State, s': State, reply: Reply) {
    && s.lock.Admitting?
    && Reaped(s.entries, s'.entries, s.now, s'.now) && !HasRoom(s.cfg, s'.entries)
    && reply == TooManyRequests
    && s' == s.(now := s'.now, entries := s'.entries, lock := Free,
                retained := CounterAfterReap(s.retained, s.entries, s'.entries))
  }

  /** Looks only ever rise, and a last look that is up is explained by the flag or the deadline. */
  ghost predicate LooksAt(c: Control, low: Instant, high: Instant, looks: Looks) {
    && (Stopped(c, low) ==> looks.first) && (looks.first ==> looks.second) && (looks.second ==> looks.third)
    && (c.cancelled ==> looks.flag) && (looks.third ==> Stopped(ControlAfter(c, looks), high))
  }

  ghost predicate CompleteStep(s: State, id: JobId, x: Execution, looks: Looks, at: Instant, s': State) {
    && id in s.tasks && s.tasks[id].Executing? && s.now <= at <= s'.now
    && var retention := s.tasks[id].retention;
       if id in s.entries then
         var j := s.entries[id];
         var done := Finish(j, s.retained, x, looks, at).(control := ControlAfter(j.control, looks));
         && LooksAt(j.control, s.now, s'.now, looks)
         && s' == s.(now := s'.now, entries := s.entries[id := done],
                     retained := CounterAfterFinish(j, s.retained, x, looks),
                     tasks := s.tasks[id := if j.wantsPlayback && done.stage.Completed? && done.audio.Some?
                                            then ToPlay(done.audio.value, retention)
                                            else Sleeping(s'.now + retention)])
       else s' == s.(now := s'.now, tasks := s.tasks[id := Sleeping(s'.now + retention)])
  }

  ghost predicate WakeStep(s: State, id: JobId, s': State) {
    && id in s.tasks && s.tasks[id].Sleeping? && s.now >= s.tasks[id].until
    && Reaped(s.entries, s'.entries, s.now, s'.now)
    && s' == s.(now := s'.now, entries := s'.entries, tasks := s.tasks - {id},
                retained := CounterAfterReap(s.retained, s.entries, s'.entries))
  }

  function Interrupt(j: Job): Job { j.(control := j.control.(cancelled := true)) }

  function Cancel(j: Job): Job { if Terminal(j.stage) then j else Interrupt(j) }

  ghost predicate Step(s: State, a: Action, s': State, reply: Reply) {
    && s.now <= s'.now
    && match a
       case Lookup(r, admitting) => LookupStep(s, r, admitting, s', reply)
       case ReadFound => ReadFoundStep(s, s', reply)
       case Admit(id, at, victim) => AdmitStep(s, id, at, victim, s', reply)
       case Reject => RejectStep(s, s', reply)
       case Complete(id, x, looks, at) => CompleteStep(s, id, x, looks, at, s') && reply == Nothing
       // Outside every lock: the audio of a completed job is handed to the playback queue, once.
       case Enqueue(id) =>
         id in s.tasks && s.tasks[id].ToPlay? && reply == Nothing
         && s' == s.(now := s'.now, tasks := s.tasks[id := Playing(s.tasks[id].retention)], played := s.played + {id})
       case Resolve(id, playback) =>
         id in s.tasks && s.tasks[id].Playing? && (playback.Queued? || playback.Refused?) && reply == Nothing
         && s' == s.(now := s'.now,
                     entries := if id in s.entries then s.entries[id := s.entries[id].(playback := playback)]
                                else s.entries,
                     tasks := s.tasks[id := Sleeping(s'.now + s.tasks[id].retention)])
       case Wake(id) => WakeStep(s, id, s') && reply == Nothing
       case CancelJob(id) =>
         reply == Nothing
         && s' == s.(now := s'.now,
                     entries := if id in s.entries then s.entries[id := Cancel(s.entries[id])] else s.entries)
       case CancelAll =>
         reply == Nothing && s' == s.(now := s'.now, entries := map id | id in s.entries :: Cancel(s.entries[id]))
       // A dropped request future sets the flag without taking any lock, whatever the stage.
       case DropRequest(id) =>
         reply == Nothing
         && s' == s.(now := s'.now,
                     entries := if id in s.entries
                                then s.entries[id := Interrupt(s.entries[id])]
                                else s.entries)
  }
}
