/** What the job protocol promises over whole runs. */
module JobTheorems {
  import opened Common
  import opened Jobs
  import opened JobInvariant

  lemma {:induction false} TimePasses(run: seq<State>, events: seq<Event>, i: nat, n: nat)
    requires IsRun(run, events) && i <= n <= |events|
    ensures run[i].now <= run[n].now && run[i].played <= run[n].played
  {
    if i < n {
      TimePasses(run, events, i, n - 1);
      assert StepOf(run, events, n - 1);
      UsedGrows(run[n - 1], events[n - 1].action, run[n], events[n - 1].reply);
    }
  }

  lemma UsedGrows(s: State, a: Action, s': State, reply: Reply)
    requires Step(s, a, s', reply)
    ensures s.now <= s'.now && s.used <= s'.used && s.played <= s'.played
  {
    hide Reaped, ReapedRecords, CounterAfterReap, CounterAfterFinish, Finish, HasRoom, Remember, IsOldest, LooksAt;
  }

  // ------------------------------------------------------------------ life of a job

  /** What happens to one job of the table in one step. */
  ghost predicate JobMoves(s: State, a: Action, s': State, id: JobId)
    requires id in s.entries
  {
    var j := s.entries[id];
    if id !in s'.entries then
      j.finished.Some? && s'.now >= j.finished.value + j.retention && (a.Admit? || a.Reject? || a.Wake?)
    else
      var j' := s'.entries[id];
      && j'.owner == j.owner && j'.retention == j.retention && j'.wantsPlayback == j.wantsPlayback
      && (Stopped(j.control, s.now) ==> Stopped(j'.control, s'.now))
      && (if !Terminal(j.stage) && a.Complete? && a.id == id then Terminal(j'.stage)
          else j'.stage == j.stage && j'.finished == j.finished && j'.audio == j.audio)
  }

  lemma ReapMoves(s: State, a: Action, s': State, kept: Entries, high: Instant, id: JobId)
    requires id in s.entries && Reaped(s.entries, kept, s.now, high) && s.now <= high <= s'.now
    requires a.Admit? || a.Reject? || a.Wake?
    requires id in kept ==> id in s'.entries && s'.entries[id] == kept[id]
    requires id !in kept ==> id !in s'.entries
    ensures JobMoves(s, a, s', id)
  {
  }

  lemma CompleteMoves(s: State, id: JobId, x: Execution, looks: Looks, at: Instant, s': State, k: JobId)
    requires Inv(s) && s.now <= s'.now && CompleteStep(s, id, x, looks, at, s') && k in s.entries
    ensures JobMoves(s, Complete(id, x, looks, at), s', k)
  {
    assert PhaseOk(s.entries, id, s.tasks[id], s.played);
    hide Inv, CounterAfterFinish, LooksAt, Stores, PhaseOk;
  }

  lemma AdmitMoves(s: State, id: JobId, at: Instant, victim: Option<ScopedKey>, s': State, reply: Reply, k: JobId)
    requires Inv(s) && AdmitStep(s, id, at, victim, s', reply) && k in s.entries
    ensures JobMoves(s, Admit(id, at, victim), s', k)
  {
    var kept :| Inserts(s, id, at, victim, kept, s');
    assert k != id;
    ReapMoves(s, Admit(id, at, victim), s', kept, at, k);
  }

  /** Jobs only leave by a reap after their retention, and only their own completion ends them. */
  lemma {:induction false} StepMovesJobs(s: State, a: Action, s': State, reply: Reply, id: JobId)
    requires Inv(s) && Step(s, a, s', reply) && id in s.entries
    ensures JobMoves(s, a, s', id)
  {
    hide Inv, Reaped, ReapedRecords, CounterAfterReap, CompleteStep, AdmitStep, HasRoom;
    match a
    case Complete(k, x, looks, at) => CompleteMoves(s, k, x, looks, at, s', id);
    case Admit(k, at, victim) => AdmitMoves(s, k, at, victim, s', reply, id);
    case Reject => ReapEntriesMoves(s, a, s', id);
    case Wake(k) => ReapEntriesMoves(s, a, s', id);
    case _ =>
  }

  lemma ReapEntriesMoves(s: State, a: Action, s': State, id: JobId)
    requires id in s.entries && Reaped(s.entries, s'.entries, s.now, s'.now) && s.now <= s'.now
    requires a.Admit? || a.Reject? || a.Wake?
    ensures JobMoves(s, a, s', id)
  {
    ReapMoves(s, a, s', s'.entries, s'.now, id);
  }

  /** A job that has left the table never returns, and identifiers are never reused. */
  lemma StepRevivesNothing(s: State, a: Action, s': State, reply: Reply, id: JobId)
    requires Step(s, a, s', reply) && id in s.used && id !in s.entries
    ensures id !in s'.entries
  {
    hide ReapedRecords, CounterAfterReap, CounterAfterFinish, Finish, HasRoom, Remember, IsOldest, LooksAt;
  }

  // ------------------------------------------------------------------ what every reachable state guarantees

  /** Byte accounting, bounds and lifecycle in every reachable state. */
  lemma EveryStateIsSound(run: seq<State>, events: seq<Event>, n: nat)
    requires IsRun(run, events) && n <= |events|
    ensures var s := run[n];
      && s.retained == TotalAudio(s.entries) <= 64 * 1024 * 1024
      && |s.entries| <= s.cfg.maxRetainedJobs && |Active(s.entries)| <= MaxActive(s.cfg)
      && |s.records| <= 1024
      && (forall id :: id in s.entries ==> JobOk(s.entries[id], s.now))
      && forall k :: k in s.records && !Lapsed(s.records[k], s.now) ==> Visible(s.entries, s.records[k].jobId, k.owner)
  {
    hide Step, TotalAudio, Active;
    RunKeepsInv(run, events, n);
    var s := run[n];
    forall k | k in s.records && !Lapsed(s.records[k], s.now)
      ensures Visible(s.entries, s.records[k].jobId, k.owner)
    {
      assert RecordOk(k, s.records[k], s.entries, s.now);
    }
  }

  /** A job still to be completed always finds its entry: the branch for a vanished entry is dead. */
  lemma EntryNeverVanishes(run: seq<State>, events: seq<Event>, n: nat)
    requires IsRun(run, events) && n < |events| && events[n].action.Complete?
    ensures events[n].action.id in run[n].entries && !Terminal(run[n].entries[events[n].action.id].stage)
  {
    RunKeepsInv(run, events, n);
    assert StepOf(run, events, n);
    var id := events[n].action.id;
    assert PhaseOk(run[n].entries, id, run[n].tasks[id], run[n].played);
  }

  /** Where a job of `early` may be in a later state. */
  ghost predicate LaterJob(early: State, late: State, id: JobId)
    requires id in early.entries
  {
    var j := early.entries[id];
    if id in late.entries then
      Terminal(j.stage) ==> late.entries[id].stage == j.stage && late.entries[id].finished == j.finished
                            && late.entries[id].audio == j.audio
    else id in late.used && (j.finished.Some? ==> late.now >= j.finished.value + j.retention)
  }

  /** A terminal job never changes again, and no job leaves before its retention since finishing. */
  lemma {:induction false} TerminalIsForever(run: seq<State>, events: seq<Event>, i: nat, n: nat, id: JobId)
    requires IsRun(run, events) && i <= n <= |events| && id in run[i].entries
    ensures LaterJob(run[i], run[n], id) && SameTerms(run[i], run[n], id)
  {
    hide Inv, Step, LaterJob, JobOk, SameTerms;
    if i == n {
      JobIsItself(run[i], id);
    } else {
      TerminalIsForever(run, events, i, n - 1, id);
      RunKeepsInv(run, events, i);
      EndIsStamped(run[i], id);
      RunKeepsInv(run, events, n - 1);
      assert StepOf(run, events, n - 1);
      LaterJobStep(run[i], run[n - 1], events[n - 1].action, run[n], events[n - 1].reply, id);
    }
  }

  lemma JobIsItself(s: State, id: JobId)
    requires id in s.entries
    ensures LaterJob(s, s, id) && SameTerms(s, s, id)
  {
  }

  lemma EndIsStamped(s: State, id: JobId)
    requires Inv(s) && id in s.entries
    ensures JobOk(s.entries[id], s.now)
  {
  }

  ghost predicate SameTerms(early: State, late: State, id: JobId) {
    id in early.entries && id in late.entries ==>
      var j, j' := early.entries[id], late.entries[id];
      j'.retention == j.retention && j'.owner == j.owner
  }

  lemma LaterJobStep(early: State, s: State, a: Action, s': State, reply: Reply, id: JobId)
    requires Inv(s) && Step(s, a, s', reply) && id in early.entries && JobOk(early.entries[id], early.now)
    requires LaterJob(early, s, id) && SameTerms(early, s, id)
    ensures LaterJob(early, s', id) && SameTerms(early, s', id)
  {
    InvBoundsUsed(s);
    UsedGrows(s, a, s', reply);
    if id in s.entries {
      StepMovesJobs(s, a, s', reply, id);
      hide Inv, Step, Stopped;
    } else {
      StepRevivesNothing(s, a, s', reply, id);
      hide Inv, Step;
    }
  }

  lemma InvBoundsUsed(s: State)
    requires Inv(s)
    ensures s.entries.Keys <= s.used && s.tasks.Keys <= s.used
  {
  }

  /** A job that is not finished stays in the table until its own completion. */
  lemma {:induction false} UnfinishedJobsStay(run: seq<State>, events: seq<Event>, i: nat, n: nat, id: JobId)
    requires IsRun(run, events) && i <= n <= |events|
    requires id in run[i].entries && !Terminal(run[i].entries[id].stage)
    requires forall k :: i <= k < n ==> !(events[k].action.Complete? && events[k].action.id == id)
    ensures id in run[n].entries && !Terminal(run[n].entries[id].stage)
  {
    if i < n {
      hide Inv, Step;
      UnfinishedJobsStay(run, events, i, n - 1, id);
      RunKeepsInv(run, events, n - 1);
      assert StepOf(run, events, n - 1);
      StepMovesJobs(run[n - 1], events[n - 1].action, run[n], events[n - 1].reply, id);
      UnfinishedHasNoEnd(run[n - 1], id);
    }
  }

  lemma UnfinishedHasNoEnd(s: State, id: JobId)
    requires Inv(s) && id in s.entries && !Terminal(s.entries[id].stage)
    ensures s.entries[id].finished.None? && s.entries[id].audio.None?
  {
    assert JobOk(s.entries[id], s.now);
  }

  /** When a job's own task ends, the job has left the table: nothing is retained for good. */
  lemma WakeReapsItsJob(run: seq<State>, events: seq<Event>, n: nat)
    requires IsRun(run, events) && n < |events| && events[n].action.Wake?
    ensures events[n].action.id !in run[n + 1].entries
  {
    RunKeepsInv(run, events, n);
    assert StepOf(run, events, n);
    var s, id := run[n], events[n].action.id;
    assert PhaseOk(s.entries, id, s.tasks[id], s.played);
    assert id in s.entries ==> JobOk(s.entries[id], s.now);
  }

  // ------------------------------------------------------------------ completion

  /** The outcome of a completion, told from the control before and after the section. */
  lemma CompletionIsDecided(run: seq<State>, events: seq<Event>, n: nat)
    requires IsRun(run, events) && n < |events| && events[n].action.Complete?
    ensures var Complete(id, x, looks, at) := events[n].action;
      && id in run[n].entries && id in run[n + 1].entries
      && var j, j' := run[n].entries[id], run[n + 1].entries[id];
      var fits := x.Produced? && run[n].retained + |x.audio.bytes| <= 64 * 1024 * 1024;
      && run[n].now <= at <= run[n + 1].now && j'.finished == Some(at)
      && j'.control == j.control.(cancelled := looks.flag) && (j.control.cancelled ==> looks.flag)
      && j'.audio == (if j'.stage.Completed? && x.Produced? then Some(x.audio) else None)
      && (j'.stage.Completed? <==> fits && !looks.second)
      && (j'.stage.Cancelled? <==> looks.first || (x.Produced? && looks.third && !j'.stage.Completed?))
      && Terminal(j'.stage)
      && (Stopped(j.control, run[n].now) ==> j'.stage.Cancelled?)
      && (!Stopped(j'.control, run[n + 1].now) ==> j'.stage == if fits then Completed else Failed)
      && (j'.playback == if !j.wantsPlayback then j.playback else if j'.stage.Completed? then Pending else Skipped)
      && id in run[n + 1].tasks && (run[n + 1].tasks[id].ToPlay? <==> j.wantsPlayback && j'.stage.Completed?)
  {
    EntryNeverVanishes(run, events, n);
    RunKeepsInv(run, events, n);
    UnfinishedHasNoEnd(run[n], events[n].action.id);
    assert StepOf(run, events, n);
    hide Inv, IsRun, TotalAudio;
  }

  // ------------------------------------------------------------------ cancellation

  /** A job that can no longer end any other way than cancelled. */
  ghost predicate Doomed(s: State, id: JobId) {
    && id in s.used && id !in s.played
    && (id in s.tasks ==> s.tasks[id].Executing? || s.tasks[id].Sleeping?)
    && (id in s.entries ==>
          var j := s.entries[id];
          j.audio.None? && (j.stage.Cancelled? || (j.stage.Waiting? && Stopped(j.control, s.now))))
  }

  lemma StoppedIsDoomed(s: State, id: JobId)
    requires Inv(s) && id in s.entries && !Terminal(s.entries[id].stage) && Stopped(s.entries[id].control, s.now)
    ensures Doomed(s, id)
  {
    UnfinishedHasNoEnd(s, id);
    assert PhaseOk(s.entries, id, s.tasks[id], s.played);
  }

  lemma StepKeepsDoom(s: State, a: Action, s': State, reply: Reply, id: JobId)
    requires Inv(s) && Step(s, a, s', reply) && Doomed(s, id)
    ensures Doomed(s', id)
  {
    UsedGrows(s, a, s', reply);
    InvBoundsUsed(s);
    if id !in s.entries {
      StepRevivesNothing(s, a, s', reply, id);
      DoomedTask(s, a, s', reply, id);
    } else if a.Complete? && a.id == id {
      DoomedCompletion(s, id, a.x, a.looks, a.at, s');
    } else {
      hide Inv, Step;
      StepMovesJobs(s, a, s', reply, id);
      DoomedTask(s, a, s', reply, id);
    }
  }

  lemma DoomedCompletion(s: State, id: JobId, x: Execution, looks: Looks, at: Instant, s': State)
    requires Inv(s) && s.now <= s'.now && CompleteStep(s, id, x, looks, at, s') && Doomed(s, id) && id in s.entries
    ensures Doomed(s', id)
  {
    assert PhaseOk(s.entries, id, s.tasks[id], s.played);
    hide Inv, CounterAfterFinish;
  }

  lemma DoomedTask(s: State, a: Action, s': State, reply: Reply, id: JobId)
    requires Inv(s) && Step(s, a, s', reply) && Doomed(s, id) && !(a.Complete? && a.id == id && id in s.entries)
    ensures id !in s'.played && (id in s'.tasks ==> s'.tasks[id].Executing? || s'.tasks[id].Sleeping?)
  {
    hide Inv, Reaped, ReapedRecords, CounterAfterReap, CounterAfterFinish, Finish, HasRoom, Remember, IsOldest, LooksAt;
  }

  /** A job stopped before it ended never gains audio and is never played, however late its result comes. */
  lemma {:induction false} StoppedJobsStaySilent(run: seq<State>, events: seq<Event>, i: nat, n: nat, id: JobId)
    requires IsRun(run, events) && i <= n <= |events|
    requires id in run[i].entries && !Terminal(run[i].entries[id].stage)
    requires Stopped(run[i].entries[id].control, run[i].now)
    ensures Doomed(run[n], id)
  {
    hide Inv, Step, Doomed;
    if i == n {
      RunKeepsInv(run, events, i);
      StoppedIsDoomed(run[i], id);
    } else {
      StoppedJobsStaySilent(run, events, i, n - 1, id);
      RunKeepsInv(run, events, n - 1);
      assert StepOf(run, events, n - 1);
      StepKeepsDoom(run[n - 1], events[n - 1].action, run[n], events[n - 1].reply, id);
    }
  }

  /** Cancellation takes effect at once: from the very section that cancels a job before it ended. */
  lemma CancellationLinearises(run: seq<State>, events: seq<Event>, i: nat, n: nat, id: JobId)
    requires IsRun(run, events) && i < n <= |events|
    requires events[i].action == CancelJob(id) || events[i].action == CancelAll
    requires id in run[i].entries && !Terminal(run[i].entries[id].stage)
    ensures Doomed(run[n], id)
    ensures id in run[n].entries && Terminal(run[n].entries[id].stage) ==> run[n].entries[id].stage.Cancelled?
  {
    assert StepOf(run, events, i);
    assert id in run[i + 1].entries && Stopped(run[i + 1].entries[id].control, run[i + 1].now);
    hide Step;
    StoppedJobsStaySilent(run, events, i + 1, n, id);
  }

  // ------------------------------------------------------------------ downloads and playback

  datatype Download = UnknownJob | NoAudioYet | Payload(audio: Audio)

  /** What the audio endpoint serves. */
  function Fetch(e: Entries, id: JobId, owner: string): Download {
    if !Visible(e, id, owner) then UnknownJob
    else if e[id].audio.Some? && e[id].stage.Completed? then Payload(e[id].audio.value)
    else NoAudioYet
  }

  /** Once a download is served it is served unchanged until the job's retention has run out. */
  lemma DownloadsNeverChange(run: seq<State>, events: seq<Event>, i: nat, n: nat, id: JobId, owner: string)
    requires IsRun(run, events) && i <= n <= |events| && Fetch(run[i].entries, id, owner).Payload?
    ensures Fetch(run[n].entries, id, owner) == Fetch(run[i].entries, id, owner)
      || (Fetch(run[n].entries, id, owner).UnknownJob?
          && var j := run[i].entries[id];
          j.finished.Some? && run[n].now >= j.finished.value + j.retention)
  {
    RunKeepsInv(run, events, i);
    EndIsStamped(run[i], id);
    TerminalIsForever(run, events, i, n, id);
    hide Inv, Step, IsRun;
  }

  /** Nothing is ever handed to playback twice. */
  lemma PlayedAtMostOnce(run: seq<State>, events: seq<Event>, i: nat, k: nat)
    requires IsRun(run, events) && i <= k < |events|
    requires events[i].action.Enqueue? && events[k].action == events[i].action
    ensures i == k
  {
    hide Inv, Step;
    if i < k {
      assert StepOf(run, events, i);
      EnqueueMarks(run[i], events[i].action, run[i + 1], events[i].reply);
      assert StepOf(run, events, k);
      EnqueueMarks(run[k], events[k].action, run[k + 1], events[k].reply);
      RunKeepsInv(run, events, k);
      ToPlayIsUnplayed(run[k], events[k].action.id);
      TimePasses(run, events, i + 1, k);
    }
  }

  lemma EnqueueMarks(s: State, a: Action, s': State, reply: Reply)
    requires Step(s, a, s', reply) && a.Enqueue?
    ensures a.id in s.tasks && s.tasks[a.id].ToPlay? && a.id in s'.played
  {
  }

  lemma ToPlayIsUnplayed(s: State, id: JobId)
    requires Inv(s) && id in s.tasks && s.tasks[id].ToPlay?
    ensures id !in s.played
  {
    assert PhaseOk(s.entries, id, s.tasks[id], s.played);
  }

  /** Event `i` completed `id` with this audio, for a request that asked for playback. */
  ghost predicate CompletedWith(run: seq<State>, events: seq<Event>, i: nat, id: JobId, audio: Audio) {
    && i < |events| && |run| == |events| + 1 && events[i].action.Complete? && events[i].action.id == id
    && events[i].action.x == Produced(audio)
    && id in run[i + 1].entries && run[i + 1].entries[id].stage.Completed? && run[i + 1].entries[id].wantsPlayback
  }

  lemma {:induction false} WaitingAudioWasCompleted(run: seq<State>, events: seq<Event>, n: nat, id: JobId)
    requires IsRun(run, events) && n <= |events| && id in run[n].tasks && run[n].tasks[id].ToPlay?
    ensures exists i :: 0 <= i < n && CompletedWith(run, events, i, id, run[n].tasks[id].audio)
  {
    hide Inv, Step, CompletedWith;
    if n > 0 {
      assert StepOf(run, events, n - 1);
      RunKeepsInv(run, events, n - 1);
      ToPlayStep(run, events, n - 1, id);
      if !CompletedWith(run, events, n - 1, id, run[n].tasks[id].audio) {
        WaitingAudioWasCompleted(run, events, n - 1, id);
      }
    }
  }

  lemma ToPlayStep(run: seq<State>, events: seq<Event>, i: nat, id: JobId)
    requires |run| == |events| + 1 && i < |events| && StepOf(run, events, i) && Inv(run[i])
    requires id in run[i + 1].tasks && run[i + 1].tasks[id].ToPlay?
    ensures CompletedWith(run, events, i, id, run[i + 1].tasks[id].audio)
      || (id in run[i].tasks && run[i].tasks[id] == run[i + 1].tasks[id])
  {
    hide Inv, Step;
    NewToPlay(run[i], events[i].action, run[i + 1], events[i].reply, id);
  }

  lemma NewToPlay(s: State, a: Action, s': State, reply: Reply, id: JobId)
    requires Inv(s) && Step(s, a, s', reply) && id in s'.tasks && s'.tasks[id].ToPlay?
    ensures if a.Complete? && a.id == id then
      && a.x == Produced(s'.tasks[id].audio) && id in s'.entries
      && s'.entries[id].stage.Completed? && s'.entries[id].wantsPlayback
      else id in s.tasks && s.tasks[id] == s'.tasks[id]
  {
    if a.Complete? {
      assert PhaseOk(s.entries, a.id, s.tasks[a.id], s.played);
      UnfinishedHasNoEnd(s, a.id);
    }
    hide Inv, Reaped, ReapedRecords, CounterAfterReap, CounterAfterFinish, HasRoom, Remember, IsOldest, LooksAt;
    hide PhaseOk;
  }

  /** Only audio of a job that completed, and whose request asked for it, reaches the playback queue. */
  lemma PlaybackIsOfCompletedAudio(run: seq<State>, events: seq<Event>, n: nat)
    requires IsRun(run, events) && n < |events| && events[n].action.Enqueue?
    ensures var id := events[n].action.id;
      && id in run[n].tasks && run[n].tasks[id].ToPlay?
      && exists i :: 0 <= i < n && CompletedWith(run, events, i, id, run[n].tasks[id].audio)
  {
    assert StepOf(run, events, n);
    WaitingAudioWasCompleted(run, events, n, events[n].action.id);
  }
}
