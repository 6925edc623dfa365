/**
 The inference gate: two counting semaphores whose permits travel between requests, leases and
 blocking tasks.

 A handle is anything that keeps an admission's permit alive: the reservation, the request waiting
 for a running slot, the blocking task that owns the slot, or a cloned lease. `Apply` is one atomic
 event; requests may be dropped between any two. `InferenceGate` is the program, with the events of
 all other tasks interleaved at every await.
 */
module Gate {
  import opened Common

  const MAX_PERMITS: nat := USIZE_MAX / 8

  function RunningSlots(maxConcurrent: nat): nat { Min(Max(maxConcurrent, 1), MAX_PERMITS) }

  function TotalAdmissions(maxConcurrent: nat, maxPending: nat): nat {
    Max(1, Min(SaturatingAdd(Max(maxConcurrent, 1), maxPending), MAX_PERMITS))
  }

  /** Any operator input gives a usable gate, whose queue is never longer than asked for. */
  lemma SizesAreUsable(maxConcurrent: nat, maxPending: nat)
    ensures 1 <= RunningSlots(maxConcurrent) <= TotalAdmissions(maxConcurrent, maxPending) <= 0x1FFF_FFFF_FFFF_FFFF
    ensures TotalAdmissions(maxConcurrent, maxPending) - RunningSlots(maxConcurrent) <= maxPending
    ensures 1 <= maxConcurrent && maxConcurrent + maxPending <= 0x1FFF_FFFF_FFFF_FFFF ==>
      && RunningSlots(maxConcurrent) == maxConcurrent
      && TotalAdmissions(maxConcurrent, maxPending) == maxConcurrent + maxPending
  {
  }

  // ------------------------------------------------------------------ state

  datatype Role =
    | Reserved  // an InferenceAdmission not yet taken by run_bounded
    | Waiting   // run_bounded, awaiting a running slot
    | Granted   // a running slot was assigned to the request, which has not been polled since
    | Running   // moved into the blocking task
    | Lease     // a clone of the admitted permit alone

  datatype Handle = Handle(admission: nat, role: Role)

  datatype State = State(total: nat, slots: nat, freeAdmitted: nat, freeRunning: nat, handles: Handles)

  function HoldsSlot(r: Role): bool { r.Granted? || r.Running? }

  type Handles = map<nat, Handle>

  /** The admissions kept alive by some handle. */
  ghost function Live(handles: Handles): set<nat> { set h | h in handles :: handles[h].admission }

  /** The handles that own a running slot. */
  ghost function SlotHolders(handles: Handles): set<nat> { set h | h in handles && HoldsSlot(handles[h].role) }

  predicate IsLive(handles: Handles, admission: nat) {
    exists h :: h in handles && handles[h].admission == admission
  }

  datatype Action =
    | Reserve(h: nat, admission: nat)
    | Clone(h: nat, copy: nat)
    | Take(h: nat)
    | Grant(h: nat)
    | Spawn(h: nat, task: nat)
    | Drop(h: nat)
    | Finish(task: nat)

  /** Removing a handle frees its slot, and its admission when it was the last handle on it. */
  function Remove(s: State, h: nat): State
    requires h in s.handles
  {
    var rest := s.handles - {h};
    s.(handles := rest,
       freeRunning := s.freeRunning + (if HoldsSlot(s.handles[h].role) then 1 else 0),
       freeAdmitted := s.freeAdmitted + (if IsLive(rest, s.handles[h].admission) then 0 else 1))
  }

  function WithRole(s: State, h: nat, role: Role): Handles
    requires h in s.handles
  {
    s.handles[h := s.handles[h].(role := role)]
  }

  /** An event that is not enabled changes nothing. */
  function Apply(s: State, a: Action): State {
    match a
    case Reserve(h, admission) =>
      if s.freeAdmitted == 0 || h in s.handles || IsLive(s.handles, admission) then s
      else s.(freeAdmitted := s.freeAdmitted - 1, handles := s.handles[h := Handle(admission, Reserved)])
    case Clone(h, copy) =>
      if h !in s.handles || copy in s.handles then s
      else s.(handles := s.handles[copy := Handle(s.handles[h].admission, Lease)])
    case Take(h) =>
      if h in s.handles && s.handles[h].role.Reserved? then s.(handles := WithRole(s, h, Waiting)) else s
    case Grant(h) =>
      if h in s.handles && s.handles[h].role.Waiting? && s.freeRunning > 0
      then s.(freeRunning := s.freeRunning - 1, handles := WithRole(s, h, Granted)) else s
    case Spawn(h, task) =>
      if h in s.handles && s.handles[h].role.Granted? && (task == h || task !in s.handles)
      then s.(handles := (s.handles - {h})[task := s.handles[h].(role := Running)]) else s
    case Drop(h) =>
      if h in s.handles && !s.handles[h].role.Running? then Remove(s, h) else s
    case Finish(task) =>
      if task in s.handles && s.handles[task].role.Running? then Remove(s, task) else s
  }

  // ------------------------------------------------------------------ invariant

  ghost predicate OneOwnerEach(handles: Handles) {
    forall g, h :: g in handles && h in handles && g != h && !handles[g].role.Lease? && !handles[h].role.Lease?
      ==> handles[g].admission != handles[h].admission
  }

  ghost predicate Inv(s: State) {
    && s.freeAdmitted + |Live(s.handles)| == s.total
    && s.freeRunning + |SlotHolders(s.handles)| == s.slots
    && OneOwnerEach(s.handles)
  }

  function Start(maxConcurrent: nat, maxPending: nat): State {
    var total, slots := TotalAdmissions(maxConcurrent, maxPending), RunningSlots(maxConcurrent);
    State(total, slots, total, slots, map[])
  }

  lemma LiveAfterRemoval(handles: Handles, h: nat)
    requires h in handles
    ensures var a := handles[h].admission;
      Live(handles - {h}) == if IsLive(handles - {h}, a) then Live(handles) else Live(handles) - {a}
  {
    var rest := handles - {h};
    forall x | x in Live(handles) && x != handles[h].admission ensures x in Live(rest) {
      var g :| g in handles && handles[g].admission == x;
      assert rest[g].admission == x;
    }
    forall x | x in Live(rest) ensures x in Live(handles) {
      var g :| g in rest && rest[g].admission == x;
      assert handles[g].admission == x;
    }
  }

  lemma LiveAfterAddition(handles: Handles, h: nat, x: Handle)
    requires h !in handles
    ensures Live(handles[h := x]) == Live(handles) + {x.admission}
    ensures IsLive(handles, x.admission) <==> x.admission in Live(handles)
  {
    var more := handles[h := x];
    forall y | y in Live(handles) ensures y in Live(more) {
      var g :| g in handles && handles[g].admission == y;
      assert more[g].admission == y;
    }
    assert more[h].admission == x.admission;
  }

  lemma HoldersAfterRemoval(handles: Handles, h: nat)
    requires h in handles
    ensures SlotHolders(handles - {h}) == SlotHolders(handles) - {h}
  {
  }

  lemma HoldersAfterAddition(handles: Handles, h: nat, x: Handle)
    requires h !in handles
    ensures SlotHolders(handles[h := x]) == SlotHolders(handles) + (if HoldsSlot(x.role) then {h} else {})
  {
  }

  lemma RemoveKeepsInv(s: State, h: nat)
    requires Inv(s) && h in s.handles
    ensures Inv(Remove(s, h))
  {
    hide Live, SlotHolders, IsLive;
    LiveAfterRemoval(s.handles, h);
    HoldersAfterRemoval(s.handles, h);
    HandleIsLive(s.handles, h);
    HolderOrNot(s.handles, h);
  }

  lemma HandleIsLive(handles: Handles, h: nat)
    requires h in handles
    ensures handles[h].admission in Live(handles) && IsLive(handles, handles[h].admission)
  {
  }

  lemma HolderOrNot(handles: Handles, h: nat)
    requires h in handles
    ensures h in SlotHolders(handles) <==> HoldsSlot(handles[h].role)
  {
  }

  lemma AddKeepsInv(s: State, h: nat, x: Handle)
    requires Inv(s) && h !in s.handles && !HoldsSlot(x.role)
    requires if IsLive(s.handles, x.admission) then x.role.Lease? else s.freeAdmitted > 0
    ensures Inv(s.(handles := s.handles[h := x],
                   freeAdmitted := s.freeAdmitted - (if IsLive(s.handles, x.admission) then 0 else 1)))
  {
    LiveAfterAddition(s.handles, h, x);
    HoldersAfterAddition(s.handles, h, x);
    NewOwner(s.handles, h, x);
    hide Live, SlotHolders, IsLive, OneOwnerEach;
    if x.admission in Live(s.handles) { assert Live(s.handles) + {x.admission} == Live(s.handles); }
  }

  lemma NewOwner(handles: Handles, h: nat, x: Handle)
    requires OneOwnerEach(handles) && h !in handles && (x.role.Lease? || !IsLive(handles, x.admission))
    ensures OneOwnerEach(handles[h := x])
  {
  }

  function Moved(handles: Handles, h: nat, g: nat, role: Role): Handles
    requires h in handles
  {
    (handles - {h})[g := Handle(handles[h].admission, role)]
  }

  lemma MovedKeepsOwners(handles: Handles, h: nat, g: nat, role: Role)
    requires h in handles && (g == h || g !in handles) && !handles[h].role.Lease? && OneOwnerEach(handles)
    ensures OneOwnerEach(Moved(handles, h, g, role))
    ensures Live(Moved(handles, h, g, role)) == Live(handles)
  {
    var x := Handle(handles[h].admission, role);
    LiveAfterRemoval(handles, h);
    LiveAfterAddition(handles - {h}, g, x);
    HandleIsLive(handles, h);
    hide Live, IsLive;
  }

  /** Moving an admission to another owner and role. */
  lemma MoveKeepsInv(s: State, h: nat, g: nat, role: Role)
    requires Inv(s) && h in s.handles && (g == h || g !in s.handles) && !s.handles[h].role.Lease?
    requires HoldsSlot(role) ==> HoldsSlot(s.handles[h].role) || s.freeRunning > 0
    requires HoldsSlot(s.handles[h].role) ==> HoldsSlot(role)
    ensures Inv(s.(handles := Moved(s.handles, h, g, role),
                   freeRunning := s.freeRunning - (if HoldsSlot(role) && !HoldsSlot(s.handles[h].role) then 1 else 0)))
  {
    MovedKeepsOwners(s.handles, h, g, role);
    HoldersAfterRemoval(s.handles, h);
    HoldersAfterAddition(s.handles - {h}, g, Handle(s.handles[h].admission, role));
    HolderOrNot(s.handles, h);
    if g != h { assert g !in SlotHolders(s.handles); }
    hide Live, SlotHolders, IsLive, OneOwnerEach;
  }

  lemma ApplyKeepsInv(s: State, a: Action)
    requires Inv(s)
    ensures Inv(Apply(s, a)) && Apply(s, a).total == s.total && Apply(s, a).slots == s.slots
  {
    hide Inv, IsLive, Remove;
    match a
    case Reserve(h, admission) =>
      if Apply(s, a) != s { AddKeepsInv(s, h, Handle(admission, Reserved)); }
    case Clone(h, copy) =>
      if Apply(s, a) != s {
        CloneIsLive(s, h);
        AddKeepsInv(s, copy, Handle(s.handles[h].admission, Lease));
      }
    case Take(h) =>
      if Apply(s, a) != s {
        MoveKeepsInv(s, h, h, Waiting);
        assert Moved(s.handles, h, h, Waiting) == WithRole(s, h, Waiting);
      }
    case Grant(h) =>
      if Apply(s, a) != s {
        MoveKeepsInv(s, h, h, Granted);
        assert Moved(s.handles, h, h, Granted) == WithRole(s, h, Granted);
      }
    case Spawn(h, task) =>
      if Apply(s, a) != s { MoveKeepsInv(s, h, task, Running); }
    case Drop(h) => if Apply(s, a) != s { RemoveKeepsInv(s, h); RemoveKeepsSizes(s, h); }
    case Finish(task) => if Apply(s, a) != s { RemoveKeepsInv(s, task); RemoveKeepsSizes(s, task); }
  }

  lemma RemoveKeepsSizes(s: State, h: nat)
    requires h in s.handles
    ensures Remove(s, h).total == s.total && Remove(s, h).slots == s.slots
  {
  }

  lemma CloneIsLive(s: State, h: nat)
    requires h in s.handles
    ensures IsLive(s.handles, s.handles[h].admission)
  {
  }

  // ------------------------------------------------------------------ safety of every run

  ghost function After(s: State, actions: seq<Action>): State {
    if |actions| == 0 then s else Apply(After(s, actions[..|actions| - 1]), actions[|actions| - 1])
  }

  lemma {:induction false} RunKeepsInv(s: State, actions: seq<Action>)
    requires Inv(s)
    ensures Inv(After(s, actions)) && After(s, actions).total == s.total && After(s, actions).slots == s.slots
    decreases |actions|
  {
    hide Inv, Apply;
    if |actions| > 0 {
      RunKeepsInv(s, actions[..|actions| - 1]);
      ApplyKeepsInv(After(s, actions[..|actions| - 1]), actions[|actions| - 1]);
    }
  }

  ghost function AdmissionsOf(handles: Handles, owners: set<nat>): set<nat>
    requires owners <= handles.Keys
  {
    set h | h in owners :: handles[h].admission
  }

  lemma {:induction false} OwnersCountAdmissions(handles: Handles, owners: set<nat>)
    requires OneOwnerEach(handles) && owners <= SlotHolders(handles)
    ensures |AdmissionsOf(handles, owners)| == |owners|
    decreases owners
  {
    if owners != {} {
      var h :| h in owners;
      OwnersCountAdmissions(handles, owners - {h});
      forall g | g in owners - {h} ensures handles[g].admission != handles[h].admission {
        assert g in SlotHolders(handles) && h in SlotHolders(handles);
      }
      assert AdmissionsOf(handles, owners) == AdmissionsOf(handles, owners - {h}) + {handles[h].admission};
    }
  }

  /** What the invariant means: slots are never oversubscribed, every slot owner has an admission of
      its own, and the admissions that own no slot fit in the queue once the slots are taken. */
  lemma SlotsAndQueueAreBounded(s: State)
    requires Inv(s)
    ensures var owners := SlotHolders(s.handles);
      && |owners| <= s.slots && |Live(s.handles)| <= s.total
      && |AdmissionsOf(s.handles, owners)| == |owners|
      && (s.freeRunning == 0 ==>
            |Live(s.handles) - AdmissionsOf(s.handles, owners)| == s.total - s.slots - s.freeAdmitted)
  {
    var owners := SlotHolders(s.handles);
    OwnersCountAdmissions(s.handles, owners);
    hide OneOwnerEach;
    var used := AdmissionsOf(s.handles, owners);
    assert used <= Live(s.handles);
    assert Live(s.handles) == used + (Live(s.handles) - used);
  }

  /** Gate safety: from the configured start, in every reachable state free and held permits add up to
      both totals, and when all running slots are taken at most `maxPending` admissions own none. */
  lemma GateIsSafe(maxConcurrent: nat, maxPending: nat, actions: seq<Action>)
    ensures var s := After(Start(maxConcurrent, maxPending), actions);
      && s.freeRunning + |SlotHolders(s.handles)| == RunningSlots(maxConcurrent)
      && s.freeAdmitted + |Live(s.handles)| == TotalAdmissions(maxConcurrent, maxPending)
      && OneOwnerEach(s.handles)
      && (s.freeRunning == 0 ==>
            |Live(s.handles) - AdmissionsOf(s.handles, SlotHolders(s.handles))| <= maxPending)
  {
    StartIsSafe(maxConcurrent, maxPending);
    SizesAreUsable(maxConcurrent, maxPending);
    RunKeepsInv(Start(maxConcurrent, maxPending), actions);
    SlotsAndQueueAreBounded(After(Start(maxConcurrent, maxPending), actions));
  }

  lemma StartIsSafe(maxConcurrent: nat, maxPending: nat)
    ensures Inv(Start(maxConcurrent, maxPending))
  {
    hide RunningSlots, TotalAdmissions;
    assert Live(map[]) == {} && SlotHolders(map[]) == {};
  }

  ghost predicate IsTask(s: State, task: nat) { task in s.handles && s.handles[task].role.Running? }

  /** Only its own end takes a task's slot: dropping requests or leases, of any kind, never does. */
  lemma TaskKeepsItsSlot(s: State, a: Action, task: nat)
    requires IsTask(s, task) && a != Finish(task)
    ensures IsTask(Apply(s, a), task) && Apply(s, a).handles[task] == s.handles[task]
  {
  }

  lemma {:induction false} TaskRunsUntilItFinishes(s: State, actions: seq<Action>, task: nat)
    requires IsTask(s, task) && Finish(task) !in actions
    ensures IsTask(After(s, actions), task) && After(s, actions).handles[task] == s.handles[task]
    decreases |actions|
  {
    hide Apply;
    if |actions| > 0 {
      TaskRunsUntilItFinishes(s, actions[..|actions| - 1], task);
      TaskKeepsItsSlot(After(s, actions[..|actions| - 1]), actions[|actions| - 1], task);
    }
  }

  /** A lease keeps its admission through everything but its own drop, the end of the work included. */
  lemma {:induction false} LeaseKeepsAdmission(s: State, actions: seq<Action>, lease: nat)
    requires lease in s.handles && s.handles[lease].role.Lease? && Drop(lease) !in actions
    ensures lease in After(s, actions).handles && After(s, actions).handles[lease] == s.handles[lease]
    ensures s.handles[lease].admission in Live(After(s, actions).handles)
    decreases |actions|
  {
    hide Apply;
    if |actions| > 0 {
      LeaseKeepsAdmission(s, actions[..|actions| - 1], lease);
      LeaseStays(After(s, actions[..|actions| - 1]), actions[|actions| - 1], lease);
    }
  }

  lemma LeaseStays(s: State, a: Action, lease: nat)
    requires lease in s.handles && s.handles[lease].role.Lease? && a != Drop(lease)
    ensures lease in Apply(s, a).handles && Apply(s, a).handles[lease] == s.handles[lease]
  {
  }

  /** No request waits in vain: in every reachable state a waiting request can be granted a slot at once, or
      some other owner holds one, and giving it up makes the grant possible. */
  lemma WaitingRequestsAdvance(maxConcurrent: nat, maxPending: nat, actions: seq<Action>, h: nat)
    requires var s := After(Start(maxConcurrent, maxPending), actions);
      h in s.handles && s.handles[h].role.Waiting?
    ensures var s := After(Start(maxConcurrent, maxPending), actions);
      if s.freeRunning > 0 then Holds(Apply(s, Grant(h)), h)
      else exists g :: g in s.handles && g != h && IsRelease(s, g)
  {
    hide Inv, Apply;
    var s := After(Start(maxConcurrent, maxPending), actions);
    StartIsSafe(maxConcurrent, maxPending);
    SizesAreUsable(maxConcurrent, maxPending);
    RunKeepsInv(Start(maxConcurrent, maxPending), actions);
    if s.freeRunning > 0 {
      GrantGives(s, h);
    } else {
      var g := SomeoneHolds(s);
      ReleaseFrees(s, g, h);
      assert IsRelease(s, g);
    }
  }

  ghost predicate Holds(s: State, h: nat) { h in s.handles && HoldsSlot(s.handles[h].role) }

  /** Ending the worker `g`, or dropping the request `g`, leaves a free slot that any waiting request may get. */
  ghost predicate IsRelease(s: State, g: nat) {
    && Holds(s, g)
    && var s' := Apply(s, if s.handles[g].role.Running? then Finish(g) else Drop(g));
       && s'.freeRunning > 0
       && forall h :: h in s.handles && h != g && s.handles[h].role.Waiting? ==> Holds(Apply(s', Grant(h)), h)
  }

  lemma GrantGives(s: State, h: nat)
    requires h in s.handles && s.handles[h].role.Waiting? && s.freeRunning > 0
    ensures Holds(Apply(s, Grant(h)), h)
  {
  }

  lemma SomeoneHolds(s: State) returns (g: nat)
    requires Inv(s) && s.freeRunning == 0 && s.slots > 0
    ensures Holds(s, g)
  {
    g :| g in SlotHolders(s.handles);
  }

  lemma ReleaseFrees(s: State, g: nat, h: nat)
    requires Holds(s, g) && h in s.handles && s.handles[h].role.Waiting?
    ensures IsRelease(s, g) && g != h
  {
  }

  /** `is_idle` is exact: all admissions are free exactly when nothing holds on to one. */
  lemma IdleMeansNoHandles(s: State)
    requires Inv(s)
    ensures s.freeAdmitted == s.total <==> s.handles == map[]
  {
    if s.handles != map[] {
      var h :| h in s.handles;
      HandleIsLive(s.handles, h);
    } else {
      assert Live(s.handles) == {};
    }
  }

  // ------------------------------------------------------------------ the program

  /** What a look at the control finds, and when. */
  datatype Look = Look(cancelled: bool, at: nat)

  datatype Outcome = Finished | Saturated | Cancelled | JoinFailed | Dropped

  /** What other owners may do while the handle `mine` is suspended: anything but act for it or take its name. */
  predicate IsForeign(a: Action, mine: nat) {
    match a
    case Reserve(h, _) => h != mine
    case Clone(_, copy) => copy != mine
    case Take(h) => h != mine
    case Grant(_) => true
    case Spawn(h, task) => h != mine && task != mine
    case Drop(h) => h != mine
    case Finish(task) => task != mine
  }

  /** `mine` is untouched, except that a waiting request may be granted its slot. */
  ghost predicate Untouched(s: State, s': State, mine: nat) {
    && mine in s.handles && mine in s'.handles
    && var x, y := s.handles[mine], s'.handles[mine];
       y == x || (x.role.Waiting? && y == x.(role := Granted))
  }

  lemma ForeignKeepsMine(s: State, a: Action, mine: nat)
    requires IsForeign(a, mine)
    ensures mine in s.handles ==> Untouched(s, Apply(s, a), mine)
    ensures mine !in s.handles ==> mine !in Apply(s, a).handles
  {
  }

  lemma TakeEffect(s: State, h: nat)
    requires h in s.handles && s.handles[h].role.Reserved?
    ensures h in Apply(s, Take(h)).handles && Apply(s, Take(h)).handles[h].role.Waiting?
  {
  }

  lemma SpawnEffect(s: State, h: nat, task: nat)
    requires h in s.handles && s.handles[h].role.Granted? && task !in s.handles
    ensures IsTask(Apply(s, Spawn(h, task)), task)
  {
  }

  lemma DropEffect(s: State, h: nat)
    requires h in s.handles && !s.handles[h].role.Running?
    ensures h !in Apply(s, Drop(h)).handles
  {
  }

  lemma FinishEffect(s: State, task: nat)
    requires IsTask(s, task)
    ensures task !in Apply(s, Finish(task)).handles
  {
  }

  /** The task-locals of a request: an admission not yet taken, and the completion lease. */
  datatype Scope = Scope(admission: Option<nat>, lease: Option<nat>)

  ghost predicate ScopeIsLive(s: State, scope: Scope) {
    && (scope.admission.Some? ==> scope.admission.value in s.handles && s.handles[scope.admission.value].role.Reserved?)
    && (scope.lease.Some? ==> scope.lease.value in s.handles && s.handles[scope.lease.value].role.Lease?)
  }

  /** `preparation_lease`: the admission if it has not been taken, otherwise the completion lease. */
  function Source(scope: Scope): Option<nat> { if scope.admission.Some? then scope.admission else scope.lease }

  const POLL_MILLIS: nat := 100

  class InferenceGate {
    var state: State
    var next: nat        // identities not yet given out
    var now: nat         // milliseconds
    var cancelled: bool  // the control flag of the request under study
    const deadline: nat

    ghost predicate Valid()
      reads this
    {
      Inv(state) && forall h :: h in state.handles ==> h < next && state.handles[h].admission < next
    }

    constructor (maxConcurrent: nat, maxPending: nat, deadline: nat)
      ensures Valid() && state == Start(maxConcurrent, maxPending)
    {
      StartIsSafe(maxConcurrent, maxPending);
      state := Start(maxConcurrent, maxPending);
      next, now, cancelled := 0, 0, false;
      this.deadline := deadline;
    }

    predicate Stopped()
      reads this
    {
      cancelled || now >= deadline
    }

    function IsIdle(): (idle: bool)
      requires Valid()
      reads this
      ensures idle <==> state.handles == map[]
    {
      IdleMeansNoHandles(state);
      state.freeAdmitted == state.total
    }

    method Do(a: Action)
      requires Valid()
      modifies this`state, this`next
      ensures Valid() && state == Apply(old(state), a) && next >= old(next)
    {
      hide Inv, IsLive;
      ApplyKeepsInv(state, a);
      state := Apply(state, a);
      match a
      case Reserve(h, admission) => next := Max(next, Max(h, admission) + 1);
      case Clone(_, copy) => next := Max(next, copy + 1);
      case Spawn(_, task) => next := Max(next, task + 1);
      case _ =>
    }

    /** An await: any number of events of other owners, the clock moves, the control may be cancelled. A
        worker that has started may also end, by itself. */
    method Await(mine: nat, started: bool) returns (ended: bool)
      requires Valid() && mine in state.handles && (started ==> IsTask(state, mine))
      modifies this
      ensures Valid() && now >= old(now) && (old(cancelled) ==> cancelled)
      ensures if ended then started && mine !in state.handles else Untouched(old(state), state, mine)
    {
      hide Inv, Apply;
      ended := false;
      var n: nat :| true;
      while n > 0
        invariant Valid() && now >= old(now) && (old(cancelled) ==> cancelled)
        invariant if ended then started && mine !in state.handles else Untouched(old(state), state, mine)
      {
        var a: Action := *;
        if IsForeign(a, mine) {
          ForeignKeepsMine(state, a, mine);
          Do(a);
        } else if started && !ended && a == Finish(mine) {
          FinishEffect(state, mine);
          Do(a);
          ended := true;
        }
        n := n - 1;
      }
      var elapsed: nat :| true;
      now := now + elapsed;
      if * { cancelled := true; }
    }

    /** `reserve`: synchronous, and it fails exactly when no admission is free. */
    method TryReserve() returns (h: Option<nat>)
      requires Valid()
      modifies this`state, this`next
      ensures Valid()
      ensures h.None? <==> old(state).freeAdmitted == 0
      ensures h.None? ==> state == old(state)
      ensures h.Some? ==>
        && h.value !in old(state).handles && h.value in state.handles && state.handles[h.value].role.Reserved?
        && state == Apply(old(state), Reserve(h.value, state.handles[h.value].admission))
    {
      if state.freeAdmitted == 0 { return None; }
      h := Some(next);
      assert !IsLive(state.handles, next);
      Do(Reserve(next, next));
    }

    /** `with_admission`: work inside a scope that already has an admission gets a lease on it and
        reserves nothing; otherwise it reserves, and keeps a lease besides the reservation. */
    method WithAdmission(outer: Scope) returns (inner: Option<Scope>)
      requires Valid() && ScopeIsLive(state, outer)
      modifies this`state, this`next
      ensures Valid() && (inner.Some? ==> ScopeIsLive(state, inner.value) && inner.value.lease.Some?)
      ensures inner.None? <==> outer.admission.None? && outer.lease.None? && old(state).freeAdmitted == 0
      ensures inner.None? ==> state == old(state)
      ensures inner.Some? && (outer.admission.Some? || outer.lease.Some?) ==>
        && state.freeAdmitted == old(state).freeAdmitted && inner.value.admission == outer.admission
        && state.handles[inner.value.lease.value].admission
           == old(state).handles[if outer.admission.Some? then outer.admission.value else outer.lease.value].admission
      ensures inner.Some? && outer.admission.None? && outer.lease.None? ==>
        && state.freeAdmitted == old(state).freeAdmitted - 1 && inner.value.admission.Some?
        && state.handles[inner.value.lease.value].admission == state.handles[inner.value.admission.value].admission
    {
      hide Inv;
      var source := Source(outer);
      if source.Some? {
        var lease := next;
        Do(Clone(source.value, lease));
        return Some(Scope(outer.admission, Some(lease)));
      }
      var reserved := TryReserve();
      if reserved.None? { return None; }
      var lease := next;
      Do(Clone(reserved.value, lease));
      return Some(Scope(reserved, Some(lease)));
    }

    /** The request side of bounded inference. It may be dropped at any await (at number `dropAt`, if it is),
        and its worker may panic; `task` names the blocking task once there is one, `executed` says whether the
        work itself runs, `ended` whether the worker has ended, and `look` is the look at the control that
        decided: the worker's first, or the one with which the request gave up. */
    method RunBounded(taken: Option<nat>, dropAt: Option<nat>, panics: bool)
      returns (outcome: Outcome, task: Option<nat>, executed: bool, ended: bool, ghost look: Option<Look>)
      requires Valid()
      requires taken.Some? ==> taken.value in state.handles && state.handles[taken.value].role.Reserved?
      modifies this
      ensures Valid()
      // Work runs only inside a task, and a result is returned only for work that ran to its end.
      ensures (executed ==> task.Some?) && (outcome.Finished? ==> executed && ended && !Stopped())
      // The work runs exactly when the worker's first look finds the control neither cancelled nor expired,
      // and a request that gives up in the queue has found it cancelled or expired.
      ensures executed <==> task.Some? && look.Some? && !look.value.cancelled && look.value.at < deadline
      ensures outcome.Cancelled? && task.None? ==>
        look.Some? && (look.value.cancelled || look.value.at >= deadline)
      ensures look.Some? ==> old(now) <= look.value.at <= now && (old(cancelled) ==> look.value.cancelled)
      ensures look.Some? ==> look.value.cancelled ==> cancelled
      // Nothing but a stop, a panic, a drop or saturation keeps a request from its result.
      ensures outcome.Cancelled? ==> Stopped()
      ensures dropAt.None? ==> !outcome.Dropped?
      ensures outcome.JoinFailed? <==> task.Some? && !outcome.Dropped? && panics
      ensures task.Some? && !outcome.Dropped? && !panics && !Stopped() ==> outcome.Finished?
      ensures outcome.Finished? ==> task.Some?
      ensures taken.Some? ==> !outcome.Saturated?
      // Saturation changes nothing and needs a new admission; a request already stopped never executes.
      ensures outcome.Saturated? ==> state == old(state) && task.None? && taken.None? && state.freeAdmitted == 0
      ensures old(Stopped()) ==> task.None?
      // Giving up cancels the work, so a worker that has not started will not.
      ensures (outcome.Cancelled? && task.None?) || outcome.Dropped? ==> cancelled
      ensures taken.Some? && task.None? ==> taken.value !in state.handles
      // Dropping the request never takes the worker's slot: it is held until the worker ends by itself,
      // and every other outcome has waited for that.
      ensures task.Some? ==> (IsTask(state, task.value) <==> !ended) && (outcome.Dropped? || ended)
      ensures task.None? ==> !ended
    {
      hide Inv, Apply, Start;
      task, executed, ended, look := None, false, false, None;
      var h, awaits := 0, 0;
      if taken.Some? {
        h := taken.value;
      } else {
        var reserved := TryReserve();
        if reserved.None? { return Saturated, None, false, false, None; }
        h := reserved.value;
      }
      TakeEffect(state, h);
      Do(Take(h));
      while state.handles[h].role.Waiting?
        invariant Valid() && h in state.handles && now >= old(now) && (old(cancelled) ==> cancelled)
        invariant state.handles[h].role.Waiting? || state.handles[h].role.Granted?
        invariant look.Some? ==>
          old(now) <= look.value.at <= now && (old(cancelled) ==> look.value.cancelled)
        invariant look.Some? && look.value.cancelled ==> cancelled
        invariant old(Stopped()) ==> Stopped() && state.handles[h].role.Waiting?
        decreases state.handles[h].role.Waiting?, deadline - now
      {
        look := Some(Look(cancelled, now));
        if Stopped() {
          DropEffect(state, h);
          Do(Drop(h));
          cancelled := true;
          return Cancelled, None, false, false, look;
        }
        var _ := Await(h, false);
        awaits := awaits + 1;
        if dropAt == Some(awaits) {
          DropEffect(state, h);
          Do(Drop(h));
          cancelled := true;
          return Dropped, None, false, false, None;
        }
        if state.handles[h].role.Waiting? { now := now + POLL_MILLIS; }
      }
      // Hand-over: slot and admission move into the blocking task, without an await in between.
      var t := next;
      SpawnEffect(state, h, t);
      Do(Spawn(h, t));
      task := Some(t);
      var _ := Await(t, false);
      if dropAt == Some(awaits + 1) {
        // Dropped before the worker has looked: it will find the control stopped.
        cancelled := true;
        return Dropped, task, false, false, None;
      }
      // The worker's first act is to look at the control.
      look := Some(Look(cancelled, now));
      executed := !Stopped();
      ended := Await(t, true);
      if dropAt == Some(awaits + 2) {
        cancelled := true;
        return Dropped, task, executed, ended, look;
      }
      // The request resumes only once the worker has ended.
      if !ended {
        FinishEffect(state, t);
        Do(Finish(t));
        ended := true;
      }
      if panics { return JoinFailed, task, executed, ended, look; }
      outcome := if Stopped() || !executed then Cancelled else Finished;
    }
  }
}
