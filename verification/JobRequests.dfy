/**
 From a request to its answer: what an admission promises its request, told in the request's own terms
 over whole runs.
 */
module JobRequests {
  import opened Common
  import opened Jobs
  import opened JobInvariant
  import opened JobTheorems

  // ------------------------------------------------------------------ a job keeps its request

  /** The event sets the flag of `id`, which has not ended. */
  predicate Interrupts(a: Action, id: JobId) {
    a == CancelJob(id) || a == CancelAll || a == DropRequest(id)
  }

  ghost predicate InterruptedBetween(events: seq<Event>, i: nat, n: nat, id: JobId) {
    exists m :: i < m < n && m < |events| && Interrupts(events[m].action, id)
  }

  /** Event `i` admits job `id`. */
  ghost predicate Admits(run: seq<State>, events: seq<Event>, i: nat, id: JobId) {
    && |run| == |events| + 1 && i < |events| && run[i].lock.Admitting?
    && events[i].action.Admit? && events[i].action.id == id
  }

  /** Job `j` waits, exactly as `r` asked. */
  ghost predicate AsRequested(j: Job, r: Request, cancelled: bool) {
    && j.owner == r.owner && j.control == Control(cancelled, r.deadline) && j.retention == r.retention
    && j.wantsPlayback == r.playback && j.stage.Waiting? && j.finished.None? && j.audio.None? && j.playback.Absent?
  }

  lemma AdmissionInserts(run: seq<State>, events: seq<Event>, i: nat, id: JobId)
    requires IsRun(run, events) && Admits(run, events, i, id)
    ensures id in run[i + 1].entries && AsRequested(run[i + 1].entries[id], run[i].lock.r, false)
    ensures events[i].reply == Accepted(id)
  {
    assert StepOf(run, events, i);
    hide IsRun, Reaped, HasRoom, IsOldest, Remember;
  }

  /** What no step but its completion changes in a waiting job, and what sets its flag. */
  lemma StepKeepsRequest(s: State, a: Action, s': State, reply: Reply, id: JobId, r: Request, cancelled: bool)
    requires Inv(s) && Step(s, a, s', reply) && id in s.entries && AsRequested(s.entries[id], r, cancelled)
    requires !(a.Complete? && a.id == id)
    ensures id in s'.entries && AsRequested(s'.entries[id], r, cancelled || Interrupts(a, id))
  {
    hide Inv, Reaped, ReapedRecords, CounterAfterReap, CounterAfterFinish, CompleteStep, HasRoom, AdmitStep;
    match a
    case Complete(k, x, looks, at) => CompletionKeepsOthers(s, k, x, looks, at, s', id);
    case Resolve(k, playback) => PlayedHasEnded(s, k);
    case Admit(k, at, victim) => AdmissionKeepsWaiting(s, k, at, victim, s', reply, id);
    case Reject => WaitingIsKept(s.entries, s'.entries, s.now, s'.now, id);
    case Wake(k) => WaitingIsKept(s.entries, s'.entries, s.now, s'.now, id);
    case _ =>
  }

  lemma CompletionKeepsOthers(s: State, k: JobId, x: Execution, looks: Looks, at: Instant, s': State, id: JobId)
    requires CompleteStep(s, k, x, looks, at, s') && id in s.entries && id != k
    ensures id in s'.entries && s'.entries[id] == s.entries[id]
  {
  }

  lemma PlayedHasEnded(s: State, id: JobId)
    requires Inv(s) && id in s.tasks && s.tasks[id].Playing?
    ensures id in s.entries ==> Terminal(s.entries[id].stage)
  {
    assert PhaseOk(s.entries, id, s.tasks[id], s.played);
  }

  lemma WaitingIsKept(e: Entries, kept: Entries, low: Instant, high: Instant, id: JobId)
    requires Reaped(e, kept, low, high) && id in e && e[id].finished.None?
    ensures id in kept && kept[id] == e[id]
  {
  }

  lemma AdmissionKeepsWaiting(s: State, k: JobId, at: Instant, victim: Option<ScopedKey>, s': State, reply: Reply,
                              id: JobId)
    requires Inv(s) && AdmitStep(s, k, at, victim, s', reply) && id in s.entries && s.entries[id].finished.None?
    ensures id in s'.entries && s'.entries[id] == s.entries[id]
  {
    hide Reaped, HasRoom, Remember, IsOldest, CounterAfterReap;
    InvBoundsUsed(s);
    var kept :| Inserts(s, k, at, victim, kept, s');
    WaitingIsKept(s.entries, kept, s.now, at, id);
  }

  /** Until its completion a job waits as its request asked, and is flagged exactly if some cancellation or
      drop of the request has hit it. */
  lemma {:induction false} JobKeepsItsRequest(run: seq<State>, events: seq<Event>, i: nat, n: nat, id: JobId)
    requires IsRun(run, events) && Admits(run, events, i, id) && i < n <= |events|
    requires forall m :: i < m < n ==> !(events[m].action.Complete? && events[m].action.id == id)
    ensures id in run[n].entries
    ensures AsRequested(run[n].entries[id], run[i].lock.r, InterruptedBetween(events, i, n, id))
  {
    hide Step, Inv, AsRequested, Interrupts;
    if n == i + 1 {
      AdmissionInserts(run, events, i, id);
      assert !InterruptedBetween(events, i, n, id);
    } else {
      JobKeepsItsRequest(run, events, i, n - 1, id);
      RunKeepsInv(run, events, n - 1);
      assert StepOf(run, events, n - 1);
      var before, a := InterruptedBetween(events, i, n - 1, id), events[n - 1].action;
      StepKeepsRequest(run[n - 1], a, run[n], events[n - 1].reply, id, run[i].lock.r, before);
      assert InterruptedBetween(events, i, n, id) <==> before || Interrupts(a, id);
    }
  }

  /** A job is completed only once. */
  lemma CompletedOnce(run: seq<State>, events: seq<Event>, m: nat, n: nat)
    requires IsRun(run, events) && m <= n < |events| && events[m].action.Complete? && events[n].action.Complete?
    requires events[m].action.id == events[n].action.id
    ensures m == n
  {
    hide IsRun;
    if m < n {
      EntryNeverVanishes(run, events, n);
      CompletionEnds(run, events, m);
      TerminalIsForever(run, events, m + 1, n, events[m].action.id);
    }
  }

  lemma CompletionEnds(run: seq<State>, events: seq<Event>, m: nat)
    requires IsRun(run, events) && m < |events| && events[m].action.Complete?
    ensures events[m].action.id in run[m + 1].entries && Terminal(run[m + 1].entries[events[m].action.id].stage)
  {
    EntryNeverVanishes(run, events, m);
    RunKeepsInv(run, events, m);
    assert StepOf(run, events, m);
    StepMovesJobs(run[m], events[m].action, run[m + 1], events[m].reply, events[m].action.id);
    hide IsRun, Inv;
  }

  /** What a cancellation or a dropped request does to a job, whatever its stage: a cancellation flags a job
      that has not ended, a dropped request flags its own in any stage, and nothing else changes. */
  lemma InterruptionIsExact(run: seq<State>, events: seq<Event>, n: nat, id: JobId)
    requires IsRun(run, events) && n < |events| && id in run[n].entries
    requires events[n].action.CancelJob? || events[n].action.CancelAll? || events[n].action.DropRequest?
    ensures run[n + 1].entries.Keys == run[n].entries.Keys
    ensures var a, j, j' := events[n].action, run[n].entries[id], run[n + 1].entries[id];
      && j' == j.(control := j'.control) && j'.control.deadline == j.control.deadline
      && j'.control.cancelled == (j.control.cancelled || a == DropRequest(id)
                                  || (j.stage.Waiting? && (a == CancelJob(id) || a == CancelAll)))
  {
    assert StepOf(run, events, n);
    hide IsRun;
  }

  // ------------------------------------------------------------------ completion serves the request

  /** The completion of an admitted job, in the terms of its request: in time and undisturbed it ends completed
      with the audio produced, if there is any and it fits, and failed otherwise; past the request's deadline,
      or once cancelled or dropped, it ends cancelled without audio; playback is announced exactly if asked for. */
  lemma CompletionServesRequest(run: seq<State>, events: seq<Event>, i: nat, n: nat, id: JobId)
    requires IsRun(run, events) && Admits(run, events, i, id) && i < n < |events|
    requires events[n].action.Complete? && events[n].action.id == id
    ensures id in run[n + 1].entries && id in run[n + 1].tasks
    ensures var r, j, x := run[i].lock.r, run[n + 1].entries[id], events[n].action.x;
      var fits := x.Produced? && run[n].retained + |x.audio.bytes| <= 64 * 1024 * 1024;
      && j.owner == r.owner && j.retention == r.retention && j.finished == Some(events[n].action.at)
      && (!events[n].action.looks.flag && run[n + 1].now < r.deadline ==>
            if fits then j.stage == Completed && j.audio == Some(x.audio) else j.stage == Failed && j.audio.None?)
      && (run[n].now >= r.deadline ==> j.stage == Cancelled && j.audio.None?)
      && (InterruptedBetween(events, i, n, id) ==> j.stage == Cancelled && j.audio.None?)
      && (j.stage.Completed? ==> fits && j.audio == Some(x.audio))
      && j.playback == (if !r.playback then Absent else if j.stage.Completed? then Pending else Skipped)
      && (run[n + 1].tasks[id].ToPlay? <==> r.playback && j.stage.Completed?)
  {
    hide IsRun, Step, Inv, Finish;
    forall m | i < m < n ensures !(events[m].action.Complete? && events[m].action.id == id) {
      if events[m].action.Complete? && events[m].action.id == id { CompletedOnce(run, events, m, n); }
    }
    JobKeepsItsRequest(run, events, i, n, id);
    CompletionIsDecided(run, events, n);
    CompletedOrSilent(run, events, n);
  }

  lemma CompletedOrSilent(run: seq<State>, events: seq<Event>, n: nat)
    requires IsRun(run, events) && n < |events| && events[n].action.Complete?
    ensures var id := events[n].action.id;
      id in run[n].entries && id in run[n + 1].entries &&
      var j, j' := run[n].entries[id], run[n + 1].entries[id];
      j'.owner == j.owner && j'.retention == j.retention && (j'.audio.Some? <==> j'.stage.Completed?)
  {
    EntryNeverVanishes(run, events, n);
    RunKeepsInv(run, events, n);
    RunKeepsInv(run, events, n + 1);
    assert StepOf(run, events, n);
    StepMovesJobs(run[n], events[n].action, run[n + 1], events[n].reply, events[n].action.id);
    EndIsStamped(run[n + 1], events[n].action.id);
    hide IsRun, Inv;
  }

  // ------------------------------------------------------------------ delivery

  /** What a principal is served for an admitted job: nothing but to the owner; to the owner no audio before
      the completion, afterwards exactly the audio completed with, or none, until retention has run out. */
  lemma DeliveryIsExact(run: seq<State>, events: seq<Event>, i: nat, n: nat, k: nat, id: JobId, owner: string)
    requires IsRun(run, events) && Admits(run, events, i, id) && i < n < |events| && i < k <= |events|
    requires events[n].action.Complete? && events[n].action.id == id
    ensures id in run[n + 1].entries && run[n + 1].entries[id].finished.Some?
    ensures var r, j, served := run[i].lock.r, run[n + 1].entries[id], Fetch(run[k].entries, id, owner);
      && (owner != r.owner ==> served == UnknownJob)
      && (owner == r.owner && k <= n ==> served == NoAudioYet)
      && (j.stage.Completed? ==> events[n].action.x.Produced?)
      && (owner == r.owner && k > n && run[k].now < j.finished.value + r.retention ==>
            served == if j.stage.Completed? then Payload(events[n].action.x.audio) else NoAudioYet)
  {
    hide IsRun, Step, Inv, Finish, InterruptedBetween;
    CompletionServesRequest(run, events, i, n, id);
    if k <= n {
      forall m | i < m < k ensures !(events[m].action.Complete? && events[m].action.id == id) {
        if events[m].action.Complete? && events[m].action.id == id { CompletedOnce(run, events, m, n); }
      }
      JobKeepsItsRequest(run, events, i, k, id);
    } else {
      TerminalIsForever(run, events, n + 1, k, id);
      CompletedOrSilent(run, events, n);
      CompletionEnds(run, events, n);
    }
  }

  // ------------------------------------------------------------------ playback is reported

  /** The playback outcome of `id` has been recorded, and its task only sleeps on. */
  ghost predicate Reported(s: State, id: JobId, outcome: Playback) {
    && id in s.used && (id in s.tasks ==> s.tasks[id].Sleeping?)
    && (id in s.entries ==> s.entries[id].playback == outcome)
  }

  lemma StepKeepsReport(s: State, a: Action, s': State, reply: Reply, id: JobId, outcome: Playback)
    requires Inv(s) && Step(s, a, s', reply) && Reported(s, id, outcome)
    ensures Reported(s', id, outcome)
  {
    hide Inv, Step;
    InvBoundsUsed(s);
    UsedGrows(s, a, s', reply);
    SleeperStays(s, a, s', reply, id);
    if id in s.entries { PlaybackMoves(s, a, s', reply, id); } else { StepRevivesNothing(s, a, s', reply, id); }
  }

  lemma SleeperStays(s: State, a: Action, s': State, reply: Reply, id: JobId)
    requires Step(s, a, s', reply) && id in s.used && (id in s.tasks ==> s.tasks[id].Sleeping?)
    ensures id in s'.tasks ==> s'.tasks[id].Sleeping?
    ensures !(a.Resolve? && a.id == id) && !(a.Complete? && a.id == id)
  {
    hide Reaped, ReapedRecords, CounterAfterReap, CounterAfterFinish, Finish, HasRoom, Remember, IsOldest, LooksAt;
  }

  /** Only its own completion and its own resolution change what a job reports of its playback. */
  lemma PlaybackMoves(s: State, a: Action, s': State, reply: Reply, id: JobId)
    requires Inv(s) && Step(s, a, s', reply) && id in s.entries
    requires !(a.Resolve? && a.id == id) && !(a.Complete? && a.id == id)
    ensures id in s'.entries ==> s'.entries[id].playback == s.entries[id].playback
  {
    hide Inv, Reaped, ReapedRecords, CounterAfterReap, CounterAfterFinish, CompleteStep, HasRoom, AdmitStep;
    match a
    case Complete(k, x, looks, at) => CompletionKeepsOthers(s, k, x, looks, at, s', id);
    case Admit(k, at, victim) => AdmissionKeepsKept(s, k, at, victim, s', reply, id);
    case Reject => KeptIsSame(s.entries, s'.entries, s.now, s'.now);
    case Wake(k) => KeptIsSame(s.entries, s'.entries, s.now, s'.now);
    case _ =>
  }

  lemma KeptIsSame(e: Entries, kept: Entries, low: Instant, high: Instant)
    requires Reaped(e, kept, low, high)
    ensures forall id :: id in kept ==> id in e && kept[id] == e[id]
  {
  }

  lemma AdmissionKeepsKept(s: State, k: JobId, at: Instant, victim: Option<ScopedKey>, s': State, reply: Reply,
                           id: JobId)
    requires Inv(s) && AdmitStep(s, k, at, victim, s', reply) && id in s.entries
    ensures id in s'.entries ==> s'.entries[id] == s.entries[id]
  {
    hide Reaped, HasRoom, Remember, IsOldest, CounterAfterReap;
    InvBoundsUsed(s);
    var kept :| Inserts(s, k, at, victim, kept, s');
    KeptIsSame(s.entries, kept, s.now, at);
  }

  /** What the playback queue answered is what the job reports from then on, while it is in the table. */
  lemma {:induction false} PlaybackIsReported(run: seq<State>, events: seq<Event>, m: nat, k: nat)
    requires IsRun(run, events) && m < k <= |events| && events[m].action.Resolve?
    ensures Reported(run[k], events[m].action.id, events[m].action.playback)
  {
    hide Inv, Step, Reported;
    if k == m + 1 {
      RunKeepsInv(run, events, m);
      assert StepOf(run, events, m);
      ResolveReports(run[m], events[m].action, run[k], events[m].reply);
    } else {
      PlaybackIsReported(run, events, m, k - 1);
      RunKeepsInv(run, events, k - 1);
      assert StepOf(run, events, k - 1);
      StepKeepsReport(run[k - 1], events[k - 1].action, run[k], events[k - 1].reply, events[m].action.id,
                      events[m].action.playback);
    }
  }

  lemma ResolveReports(s: State, a: Action, s': State, reply: Reply)
    requires Inv(s) && Step(s, a, s', reply) && a.Resolve?
    ensures Reported(s', a.id, a.playback)
  {
    InvBoundsUsed(s);
  }

  // ------------------------------------------------------------------ capacity

  ghost function Unfinished(s: State): set<JobId> { set id | id in s.entries && s.entries[id].stage.Waiting? }

  /** As many unfinished jobs as the gate can hold. */
  function GateSize(c: Config): nat {
    if c.maxConcurrent + c.maxPending <= 0xFFFF_FFFF_FFFF_FFFF then c.maxConcurrent + c.maxPending
    else 0xFFFF_FFFF_FFFF_FFFF
  }

  /** A request is refused only for lack of room: with every job gone whose retention had run out, the table is
      full or as many jobs are unfinished as the gate can hold. */
  lemma RejectionIsJustified(run: seq<State>, events: seq<Event>, n: nat)
    requires IsRun(run, events) && n < |events| && events[n].reply.TooManyRequests?
    ensures var s, s' := run[n], run[n + 1];
      && (|s'.entries| >= s.cfg.maxRetainedJobs || |Unfinished(s')| >= GateSize(s.cfg))
      && s'.entries.Keys <= s.entries.Keys
      && forall id :: id in s'.entries && s'.entries[id].finished.Some? ==>
           s.now < s'.entries[id].finished.value + s'.entries[id].retention
  {
    assert StepOf(run, events, n);
    RejectionHasNoRoom(run[n], events[n].action, run[n + 1], events[n].reply);
    hide Step, IsRun;
    assert Unfinished(run[n + 1]) == Active(run[n + 1].entries);
  }

  lemma RejectionHasNoRoom(s: State, a: Action, s': State, reply: Reply)
    requires Step(s, a, s', reply) && reply.TooManyRequests?
    ensures !HasRoom(s.cfg, s'.entries) && Reaped(s.entries, s'.entries, s.now, s'.now)
  {
    hide Reaped, ReapedRecords, CounterAfterReap, CounterAfterFinish, Finish, HasRoom, Remember, IsOldest, LooksAt;
  }

  /** And no state ever holds more. */
  lemma CapacityIsKept(run: seq<State>, events: seq<Event>, n: nat)
    requires IsRun(run, events) && n <= |events|
    ensures |run[n].entries| <= run[n].cfg.maxRetainedJobs && |Unfinished(run[n])| <= GateSize(run[n].cfg)
  {
    RunKeepsInv(run, events, n);
    hide Step, EntriesOk, CounterOk, TasksOk, RecordsOk, UsedOk, LockOk;
    assert Unfinished(run[n]) == Active(run[n].entries);
  }
}
