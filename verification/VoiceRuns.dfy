/**
 What a lookup answers and when it is refused, told by the manifests on disk: the store in memory is
 the manifest's except for deletions that could not be saved.
 */
module VoiceRuns {
  import opened Common
  import opened VoiceCache
  import opened VoiceLookup

  // ------------------------------------------------------------------ the manifest and the store in memory

  /** The directory whose store a lock section works on. */
  ghost function SectionDir(a: Action): Option<string> {
    match a
    case MutateStore(m, _, _) => Some(m.dir)
    case DoAuthorize(_, m, _) => Some(m.dir)
    case DoStage1(_, m) => Some(m.dir)
    case DoStage3(_, m) => Some(m.dir)
    case _ => None
  }

  /** The profiles that the manifest of a directory holds. */
  ghost function Registered(w: World, dir: string): Store {
    if dir in w.manifests && w.manifests[dir].content.Some? then w.manifests[dir].content.value else map[]
  }

  ghost function StampOnDisk(w: World, dir: string): Option<Stamp> {
    if dir in w.manifests then Some(w.manifests[dir].stamp) else None
  }

  /** The store in memory is missing, of another directory, or was read under another stamp. */
  ghost predicate Stale(w: World, dir: string) {
    w.cache.store.None? || w.cache.dir != dir || w.cache.stamp != StampOnDisk(w, dir)
  }

  /** The manifest has to be read and cannot be opened. */
  ghost predicate Unopenable(w: World, dir: string) {
    Stale(w, dir) && dir in w.manifests && w.manifests[dir].content.None?
  }

  /** A section that reads the manifest. */
  ghost predicate Loads(w: World, a: Action) {
    SectionDir(a).Some? && Stale(w, SectionDir(a).value) && !Unopenable(w, SectionDir(a).value)
  }

  /** A section that writes the manifest. */
  ghost predicate Saves(a: Action) { a.MutateStore? && a.saved.Some? }

  /** A deletion of a profile that is there, whose manifest cannot be saved. */
  ghost predicate LosesDeletion(w: World, a: Action, id: string) {
    && a.MutateStore? && a.change == Unregister(id) && a.saved.None? && !Unopenable(w, a.m.dir)
    && id in if Stale(w, a.m.dir) then Registered(w, a.m.dir) else w.cache.store.value
  }

  /** A deletion of `id` before step n was not saved, and no section has read or written a manifest since. */
  ghost predicate Unsaved(run: seq<World>, actions: seq<Action>, n: nat, id: string)
    requires n <= |actions| < |run|
  {
    exists i: nat :: i < n && DeletionStands(run, actions, i, n, id)
  }

  ghost predicate DeletionStands(run: seq<World>, actions: seq<Action>, i: nat, n: nat, id: string)
    requires i < n <= |actions| < |run|
  {
    LosesDeletion(run[i], actions[i], id) && Untouched(run, actions, i + 1, n)
  }

  ghost predicate Untouched(run: seq<World>, actions: seq<Action>, i: nat, n: nat)
    requires n <= |actions| < |run|
  {
    forall j :: i <= j < n ==> !Loads(run[j], actions[j]) && !Saves(actions[j])
  }

  /** The identifiers that are `Unsaved`, step by step. */
  ghost function Lost(run: seq<World>, actions: seq<Action>, n: nat): set<string>
    requires n <= |actions| < |run|
  {
    if n == 0 then {} else LostAfter(run[n - 1], actions[n - 1], Lost(run, actions, n - 1))
  }

  ghost function LostAfter(w: World, a: Action, lost: set<string>): set<string> {
    var kept := if Loads(w, a) || Saves(a) then {} else lost;
    if a.MutateStore? && a.change.Unregister? && LosesDeletion(w, a, a.change.id) then kept + {a.change.id} else kept
  }

  lemma {:induction false} LostIsUnsaved(run: seq<World>, actions: seq<Action>, n: nat, id: string)
    requires n <= |actions| < |run|
    ensures id in Lost(run, actions, n) <==> Unsaved(run, actions, n, id)
  {
    hide LosesDeletion, Loads, Saves;
    if n > 0 {
      LostIsUnsaved(run, actions, n - 1, id);
      if Unsaved(run, actions, n, id) {
        var i: nat :| i < n && DeletionStands(run, actions, i, n, id);
        if i < n - 1 { assert DeletionStands(run, actions, i, n - 1, id); }
        OnlyItsOwn(run[n - 1], actions[n - 1], id);
      }
      if id in Lost(run, actions, n) {
        OnlyItsOwn(run[n - 1], actions[n - 1], id);
        if LosesDeletion(run[n - 1], actions[n - 1], id) {
          assert DeletionStands(run, actions, n - 1, n, id);
        } else {
          var i: nat :| i < n - 1 && DeletionStands(run, actions, i, n - 1, id);
          assert DeletionStands(run, actions, i, n, id);
        }
      }
    }
  }

  lemma OnlyItsOwn(w: World, a: Action, id: string)
    ensures LosesDeletion(w, a, id) ==> a.MutateStore? && a.change == Unregister(id)
  {
  }

  /** What a stamp identifies; an absent manifest is an empty store. */
  ghost function Identified(w: World, stamp: Option<Stamp>): Option<Store> {
    if stamp.None? then Some(map[]) else if stamp.value in w.versions then w.versions[stamp.value] else None
  }

  /** The store in memory is what its stamp identifies, without the lost deletions. */
  ghost predicate StoreAgrees(w: World, c: Cache, lost: set<string>) {
    c.store.Some? ==>
      && Identified(w, c.stamp).Some?
      && c.store.value == Identified(w, c.stamp).value - lost
      && lost <= Identified(w, c.stamp).value.Keys
  }

  ghost predicate StoreOk(w: World, lost: set<string>) {
    ManifestsKnown(w) && StoreAgrees(w, w.cache, lost)
  }

  /** What a section leaves of directory, store and stamp. */
  ghost predicate Resides(w: World, dir: string, c: Cache, c': Cache) {
    if Unopenable(w, dir) then c' == c
    else if Stale(w, dir) then
      c'.dir == dir && c'.store == Some(Registered(w, dir)) && c'.stamp == StampOnDisk(w, dir)
    else c'.dir == c.dir && c'.store == c.store && c'.stamp == c.stamp
  }

  lemma RefreshResides(w: World, m: Manifest)
    requires m == ManifestOf(w, m.dir)
    ensures Refresh(w.cache, m).Err? <==> Unopenable(w, m.dir)
    ensures Resides(w, m.dir, w.cache, if Refresh(w.cache, m).Ok? then Refresh(w.cache, m).value else w.cache)
  {
  }

  lemma AuthorizeResides(w: World, m: Manifest, id: string, owner: string)
    requires m == ManifestOf(w, m.dir)
    ensures Resides(w, m.dir, w.cache, Authorize(w.cache, m, m.stamp, id, owner).0)
  {
    hide Refresh;
    RefreshResides(w, m);
    StampStays(w, m);
  }

  lemma StampStays(w: World, m: Manifest)
    requires m == ManifestOf(w, m.dir)
    ensures Refresh(w.cache, m).Ok? ==> Refresh(w.cache, m).value.stamp == m.stamp
  {
  }

  lemma Stage1Resides(w: World, m: Manifest, p: Profile, stamp: Option<Stamp>)
    requires m == ManifestOf(w, m.dir)
    ensures Resides(w, m.dir, w.cache, Stage1(w.cache, m, p, stamp).0)
  {
    hide Refresh, ProbeStep;
    RefreshResides(w, m);
  }

  lemma Stage3Resides(w: World, m: Manifest, p: Profile, stamp: Option<Stamp>, present: Option<Stamp>, decoded: Audio)
    requires m == ManifestOf(w, m.dir)
    ensures Resides(w, m.dir, w.cache, Stage3(w.cache, m, p, stamp, present, decoded).0)
  {
    hide Refresh, ProbeStep, PublishStep;
    RefreshResides(w, m);
  }

  /** A lookup's own lock section. */
  ghost predicate Looks(a: Action) { a.DoAuthorize? || a.DoStage1? || a.DoStage3? }

  lemma LookResides(decode: Decoder, w: World, a: Action, w': World)
    requires Step(decode, w, a, w') && Looks(a)
    ensures Resides(w, SectionDir(a).value, w.cache, w'.cache)
    ensures w'.manifests == w.manifests && w'.versions == w.versions
  {
    hide Refresh, ManifestOf, Authorize, Stage1, Stage3, Resides;
    match a
    case DoAuthorize(c, m, stamped) => AuthorizeResides(w, m, w.calls[c].id, w.calls[c].owner);
    case DoStage1(c, m) => Stage1Resides(w, m, w.calls[c].p, StampOf(w, Path(m.dir, w.calls[c].p.id)));
    case DoStage3(c, m) =>
      var call := w.calls[c];
      DirOf(w, call.path.dir);
      Stage3Resides(w, m, call.p, call.stamp, StampOf(w, call.path), call.audio);
    case _ =>
  }

  lemma DirOf(w: World, dir: string)
    ensures ManifestOf(w, dir).dir == dir
  {
  }

  lemma LookKeepsStore(decode: Decoder, w: World, a: Action, w': World, lost: set<string>)
    requires Step(decode, w, a, w') && Looks(a) && StoreOk(w, lost)
    ensures StoreOk(w', LostAfter(w, a, lost))
  {
    hide Step;
    LookResides(decode, w, a, w');
  }

  lemma MutateKeepsStore(w: World, m: Manifest, change: Change, saved: Option<Stamp>, w': World, lost: set<string>)
    requires MutateStep(w, m, change, saved, w') && StoreOk(w, lost)
    ensures StoreOk(w', LostAfter(w, MutateStore(m, change, saved), lost))
  {
    hide Refresh;
    RefreshResides(w, m);
  }

  /** A step that neither works on a store nor writes a manifest. */
  ghost predicate IsQuiet(a: Action) { !Looks(a) && !a.MutateStore? && !a.WriteManifest? }

  lemma QuietStep(decode: Decoder, w: World, a: Action, w': World)
    requires Step(decode, w, a, w') && IsQuiet(a)
    ensures w'.cache.store == w.cache.store && w'.cache.stamp == w.cache.stamp && w'.versions == w.versions
    ensures w'.manifests == if a.RemoveManifest? then w.manifests - {a.dir} else w.manifests
  {
    hide ManifestOf, MutateStep, AuthorizeStep, Stage1Step, Stage3Step;
  }

  lemma QuietKeepsStore(w: World, a: Action, w': World, lost: set<string>)
    requires IsQuiet(a) && StoreOk(w, lost)
    requires w'.cache.store == w.cache.store && w'.cache.stamp == w.cache.stamp && w'.versions == w.versions
    requires w'.manifests == if a.RemoveManifest? then w.manifests - {a.dir} else w.manifests
    ensures StoreOk(w', LostAfter(w, a, lost))
  {
  }

  lemma WrittenKeepsStore(decode: Decoder, w: World, dir: string, v: OnDisk, w': World, lost: set<string>)
    requires Step(decode, w, WriteManifest(dir, v), w') && StoreOk(w, lost)
    ensures StoreOk(w', LostAfter(w, WriteManifest(dir, v), lost))
  {
    hide ManifestOf, MutateStep, AuthorizeStep, Stage1Step, Stage3Step;
  }

  lemma StepKeepsStore(decode: Decoder, w: World, a: Action, w': World, lost: set<string>)
    requires Step(decode, w, a, w') && StoreOk(w, lost)
    ensures StoreOk(w', LostAfter(w, a, lost))
  {
    hide StoreOk, LostAfter, MutateStep, AuthorizeStep, Stage1Step, SizeStep, ReadStep, DecodeStep, Stage3Step;
    if Looks(a) {
      LookKeepsStore(decode, w, a, w', lost);
    } else if a.MutateStore? {
      MutateKeepsStore(w, a.m, a.change, a.saved, w', lost);
    } else if a.WriteManifest? {
      WrittenKeepsStore(decode, w, a.dir, a.manifest, w', lost);
    } else {
      QuietStep(decode, w, a, w');
      QuietKeepsStore(w, a, w', lost);
    }
  }

  lemma {:induction false} RunKeepsStore(decode: Decoder, run: seq<World>, actions: seq<Action>, n: nat)
    requires IsRun(decode, run, actions) && n <= |actions|
    ensures StoreOk(run[n], Lost(run, actions, n))
  {
    hide Step, StoreOk, LostAfter;
    if n == 0 {
      NothingLoaded(run[0]);
    } else {
      RunKeepsStore(decode, run, actions, n - 1);
      StepKeepsStore(decode, run[n - 1], actions[n - 1], run[n], Lost(run, actions, n - 1));
    }
  }

  lemma NothingLoaded(w: World)
    requires Init(w)
    ensures StoreOk(w, {})
  {
  }

  // ------------------------------------------------------------------ theorems

  /** The store in memory is that of directory `dir`: the same stamp, and the profiles its manifest holds
      except those whose deletion could not be saved. */
  ghost predicate InStep(run: seq<World>, actions: seq<Action>, n: nat, dir: string)
    requires n <= |actions| < |run|
  {
    var c := run[n].cache;
    && c.dir == dir && c.store.Some? && c.stamp == StampOnDisk(run[n], dir)
    && (dir in run[n].manifests ==> run[n].manifests[dir].content.Some?)
    && (forall id :: id in c.store.value <==> id in Registered(run[n], dir) && !Unsaved(run, actions, n, id))
    && (forall id :: id in c.store.value ==> c.store.value[id] == Registered(run[n], dir)[id])
  }

  lemma MutateLeaves(w: World, m: Manifest, change: Change, saved: Option<Stamp>, w': World)
    requires MutateStep(w, m, change, saved, w')
    ensures if Unopenable(w, m.dir) then w'.cache == w.cache
      else w'.cache.dir == m.dir && w'.cache.store.Some? && w'.cache.stamp == StampOnDisk(w', m.dir)
  {
    hide Refresh, Changed, Writes;
    RefreshResides(w, m);
  }

  lemma SectionLeaves(decode: Decoder, w: World, a: Action, w': World, dir: string)
    requires Step(decode, w, a, w') && SectionDir(a) == Some(dir)
    ensures if Unopenable(w, dir) then w'.cache == w.cache
      else w'.cache.dir == dir && w'.cache.store.Some? && w'.cache.stamp == StampOnDisk(w', dir)
  {
    hide MutateStep, AuthorizeStep, Stage1Step, Stage3Step;
    if Looks(a) {
      LookResides(decode, w, a, w');
    } else {
      MutateLeaves(w, a.m, a.change, a.saved, w');
    }
  }

  lemma WhatIsIdentified(w: World, dir: string)
    requires ManifestsKnown(w)
    ensures Identified(w, StampOnDisk(w, dir)) ==
      if dir in w.manifests then w.manifests[dir].content else Some(map[])
  {
  }

  /** Every lock section works on the store that its directory's manifest holds at that moment, or fails
      and changes nothing because that manifest cannot be opened. */
  lemma SectionsSeeTheManifest(decode: Decoder, run: seq<World>, actions: seq<Action>, i: nat, dir: string)
    requires IsRun(decode, run, actions) && i < |actions| && SectionDir(actions[i]) == Some(dir)
    ensures if Unopenable(run[i], dir) then run[i + 1].cache == run[i].cache else InStep(run, actions, i + 1, dir)
  {
    hide Step, Unsaved, Unopenable, Lost;
    var n := i + 1;
    RunKeepsStore(decode, run, actions, n);
    SectionLeaves(decode, run[i], actions[i], run[n], dir);
    WhatIsIdentified(run[n], dir);
    forall id ensures id in Lost(run, actions, n) <==> Unsaved(run, actions, n, id) {
      LostIsUnsaved(run, actions, n, id);
    }
  }

  ghost predicate NothingUnsaved(run: seq<World>, actions: seq<Action>, n: nat)
    requires n <= |actions| < |run|
  {
    forall id :: !Unsaved(run, actions, n, id)
  }

  /** After a section that could open its manifest, the store in memory is the manifest's exactly when no
      deletion stands unsaved. */
  lemma MemoryIsManifestExactly(decode: Decoder, run: seq<World>, actions: seq<Action>, i: nat, dir: string)
    requires IsRun(decode, run, actions) && i < |actions| && SectionDir(actions[i]) == Some(dir)
    requires !Unopenable(run[i], dir)
    ensures run[i + 1].cache.store == Some(Registered(run[i + 1], dir)) <==>
      NothingUnsaved(run, actions, i + 1)
  {
    hide Step, Unsaved, Unopenable, StampOnDisk;
    var n := i + 1;
    RunKeepsStore(decode, run, actions, n);
    SectionLeaves(decode, run[i], actions[i], run[n], dir);
    WhatIsIdentified(run[n], dir);
    forall id ensures id in Lost(run, actions, n) <==> Unsaved(run, actions, n, id) {
      LostIsUnsaved(run, actions, n, id);
    }
    LeavesOut(Registered(run[n], dir), Lost(run, actions, n));
  }

  lemma LeavesOut(store: Store, lost: set<string>)
    requires lost <= store.Keys
    ensures store - lost == store <==> lost == {}
  {
    assert (store - lost).Keys == store.Keys - lost;
  }

  /** The condition can fail: a deletion that cannot be saved leaves a registered profile out of memory. */
  lemma FailedDeletionIsNotUndone(decode: Decoder, p: Profile, stamp: Stamp)
    returns (run: seq<World>, actions: seq<Action>)
    ensures IsRun(decode, run, actions) && |actions| == 1 && SectionDir(actions[0]) == Some("")
    ensures HoldsProfile(run[1], "", p) && run[1].cache.store == Some(map[])
  {
    var store: Store := map[p.id := p];
    var w := World(map[], map[], EMPTY_CACHE, map[], map[],
                   map["" := OnDisk(stamp, Some(store))], map[stamp := Some(store)]);
    var m := Manifest("", Some(stamp), Some(store));
    run := [w, w.(cache := Cache("", Some(map[]), Some(stamp), []))];
    actions := [MutateStore(m, Unregister(p.id), None)];
    assert store - {p.id} == map[];
    assert MutateStep(w, m, Unregister(p.id), None, run[1]);
  }

  /** The manifest of the directory holds the profile with this owner and reference. */
  ghost predicate HoldsProfile(w: World, dir: string, p: Profile) {
    && dir in w.manifests && w.manifests[dir].content.Some?
    && p.id in w.manifests[dir].content.value
    && w.manifests[dir].content.value[p.id].owner == p.owner
    && w.manifests[dir].content.value[p.id].hash == p.hash
  }

  lemma AnsweringSection(decode: Decoder, w: World, a: Action, w': World, c: nat, p: Profile, audio: Audio, path: Path)
    requires Step(decode, w, a, w') && AnswersFrom(decode, w, a, w', c, p, audio, path)
    ensures Looks(a) && SectionDir(a) == Some(path.dir) && w'.manifests == w.manifests
    ensures !(Unopenable(w, path.dir) && w'.cache == w.cache)
  {
    hide Step;
    LookResides(decode, w, a, w');
  }

  /** Whoever answers, answers for a profile that the manifest of the answering section's directory
      holds at that moment, and whose deletion has not been attempted since that manifest was read. */
  lemma AnswersAreRegistered(decode: Decoder, run: seq<World>, actions: seq<Action>, i: nat, c: nat, p: Profile,
                             audio: Audio) returns (path: Path)
    requires IsRun(decode, run, actions) && i < |actions|
    requires !Answered(run[i], c, p, audio) && Answered(run[i + 1], c, p, audio)
    ensures path.id == p.id && SectionDir(actions[i]) == Some(path.dir)
    ensures HoldsProfile(run[i], path.dir, p) && !Unsaved(run, actions, i + 1, p.id)
    ensures path in run[i].files ==> FileDecodes(decode, run[i], path, audio)
  {
    hide Step, Inv, Unsaved;
    RunKeepsInv(decode, run, actions, i);
    path := AnswerIsCoherent(decode, run[i], actions[i], run[i + 1], c, p, audio);
    AnsweringSection(decode, run[i], actions[i], run[i + 1], c, p, audio, path);
    SectionsSeeTheManifest(decode, run, actions, i, path.dir);
  }

  // ------------------------------------------------------------------ refusals

  /** The manifest still holds what the lookup asks for: at first an owned profile, then the same owner
      and reference. */
  ghost predicate Grants(run: seq<World>, actions: seq<Action>, i: nat, dir: string, call: Call)
    requires i < |actions| < |run| && !call.Done?
  {
    var id := if call.Starting? then call.id else call.p.id;
    var owner := if call.Starting? then Some(call.owner) else call.p.owner;
    && id in Registered(run[i], dir) && !Unsaved(run, actions, i + 1, id)
    && Registered(run[i], dir)[id].owner == owner
    && (!call.Starting? ==> Registered(run[i], dir)[id].hash == call.p.hash)
  }

  /** Why lookup `c` ends with error `e` in its own step i. */
  ghost predicate Obstacle(decode: Decoder, run: seq<World>, actions: seq<Action>, i: nat, c: nat, e: Error)
    requires i < |actions| < |run| && InProgress(run[i], c)
  {
    var w, a, call := run[i], actions[i], run[i].calls[c];
    match call
    case Missed(_, path, _) =>
      if path in w.files then |w.files[path].bytes| > 16 * 1024 * 1024 && e == PayloadTooLarge else e == Internal
    case Sized(_, path, _) => path !in w.files && e == Internal
    case Holding(_, path, stamp, bytes) =>
      if decode(bytes).None? then e == BadRequest else StampOf(w, path) != stamp && e == ServiceUnavailable
    case _ =>
      SectionDir(a).Some? &&
      var dir := SectionDir(a).value;
      if Unopenable(w, dir) then e == Internal
      else if !Grants(run, actions, i, dir, call) then e == NotFound
      else call.Decoded? && StampOf(w, call.path) != call.stamp && e == ServiceUnavailable
  }

  ghost predicate Refused(w: World, c: nat, e: Error) { c in w.calls && w.calls[c] == Done(Err(e)) }

  /** What the store in memory says after the section, in place of the manifest. */
  ghost predicate Finds(c: Cache, call: Call)
    requires !call.Done?
  {
    var id := if call.Starting? then call.id else call.p.id;
    var owner := if call.Starting? then Some(call.owner) else call.p.owner;
    && c.store.Some? && id in c.store.value && c.store.value[id].owner == owner
    && (!call.Starting? ==> c.store.value[id].hash == call.p.hash)
  }

  lemma AuthorizeOutcome(w: World, c: nat, m: Manifest, stamped: Option<Stamp>, w': World)
    requires AuthorizeStep(w, c, m, stamped, w')
    ensures var outcome := w'.calls[c];
      if Unopenable(w, m.dir) then outcome == Done(Err(Internal))
      else if !Finds(w'.cache, w.calls[c]) then outcome == Done(Err(NotFound))
      else outcome == Authorized(w'.cache.store.value[w.calls[c].id])
  {
    hide ManifestOf, Unopenable, Refresh;
    RefreshResides(w, m);
    RefreshStores(w, m);
  }

  lemma RefreshStores(w: World, m: Manifest)
    ensures Refresh(w.cache, m).Ok? ==> Refresh(w.cache, m).value.store.Some?
    ensures Refresh(w.cache, m).Err? ==> Refresh(w.cache, m).error == Internal
  {
  }

  lemma Stage1Outcome(w: World, c: nat, m: Manifest, w': World)
    requires Stage1Step(w, c, m, w')
    ensures c in w'.calls
    ensures var outcome := w'.calls[c];
      if Unopenable(w, m.dir) then outcome == Done(Err(Internal))
      else if !Finds(w'.cache, w.calls[c]) then outcome == Done(Err(NotFound))
      else !(outcome.Done? && outcome.outcome.Err?)
  {
    hide ManifestOf, Unopenable, Refresh, ProbeStep;
    RefreshResides(w, m);
    RefreshStores(w, m);
  }

  lemma Stage3Outcome(w: World, c: nat, m: Manifest, w': World)
    requires Stage3Step(w, c, m, w')
    ensures var outcome := w'.calls[c];
      if Unopenable(w, m.dir) then outcome == Done(Err(Internal))
      else if !Finds(w'.cache, w.calls[c]) then outcome == Done(Err(NotFound))
      else if StampOf(w, w.calls[c].path) != w.calls[c].stamp then outcome == Done(Err(ServiceUnavailable))
      else outcome.Done? && outcome.outcome.Ok?
  {
    hide Unopenable, Refresh, ProbeStep, PublishStep;
    RefreshResides(w, m);
    RefreshStores(w, m);
  }

  lemma FindsExactly(decode: Decoder, run: seq<World>, actions: seq<Action>, i: nat, c: nat)
    requires IsRun(decode, run, actions) && i < |actions| && InProgress(run[i], c)
    requires Looks(actions[i]) && !Unopenable(run[i], SectionDir(actions[i]).value)
    ensures Finds(run[i + 1].cache, run[i].calls[c]) <==>
      Grants(run, actions, i, SectionDir(actions[i]).value, run[i].calls[c])
  {
    hide Step, Unsaved, Unopenable, Resides;
    var dir := SectionDir(actions[i]).value;
    SectionsSeeTheManifest(decode, run, actions, i, dir);
    LookResides(decode, run[i], actions[i], run[i + 1]);
  }

  lemma SectionOutcome(decode: Decoder, w: World, a: Action, w': World, c: nat, e: Error)
    requires Step(decode, w, a, w') && ActsFor(a, c) && Looks(a)
    ensures InProgress(w, c) && SectionDir(a).Some?
    ensures Refused(w', c, e) <==>
      if Unopenable(w, SectionDir(a).value) then e == Internal
      else if !Finds(w'.cache, w.calls[c]) then e == NotFound
      else w.calls[c].Decoded? && StampOf(w, w.calls[c].path) != w.calls[c].stamp && e == ServiceUnavailable
  {
    hide Unopenable, Finds, StampOf, ManifestOf, Authorize, Stage1, Stage3;
    match a
    case DoAuthorize(_, m, stamped) => AuthorizeOutcome(w, c, m, stamped, w');
    case DoStage1(_, m) => Stage1Outcome(w, c, m, w');
    case DoStage3(_, m) => Stage3Outcome(w, c, m, w');
    case _ =>
  }

  lemma OwnWorkOutcome(decode: Decoder, w: World, a: Action, w': World, c: nat)
    requires Step(decode, w, a, w') && ActsFor(a, c) && !Looks(a) && !a.Fail? && InProgress(w, c)
    ensures w.calls[c].Missed? || w.calls[c].Sized? || w.calls[c].Holding?
  {
    hide ManifestOf, MutateStep, Authorize, Stage1, Stage3;
  }

  /** In its own step a lookup ends with an error exactly when that error's obstacle is there. */
  lemma RefusalIsExact(decode: Decoder, run: seq<World>, actions: seq<Action>, i: nat, c: nat, e: Error)
    requires IsRun(decode, run, actions) && i < |actions| && InProgress(run[i], c)
    requires ActsFor(actions[i], c) && !actions[i].Fail?
    ensures Refused(run[i + 1], c, e) <==> Obstacle(decode, run, actions, i, c, e)
  {
    var w, a, w' := run[i], actions[i], run[i + 1];
    if Looks(a) {
      SectionOutcome(decode, w, a, w', c, e);
      if !Unopenable(w, SectionDir(a).value) { FindsExactly(decode, run, actions, i, c); }
    }
  }

  // ------------------------------------------------------------------ undisturbed lookups

  /** Nothing in step k stands in the way of lookup `c`: the manifest of the directory holds `p`, its file
      is `v`, and the lookup's sections work in that directory. */
  ghost predicate Favourable(run: seq<World>, actions: seq<Action>, k: nat, c: nat, p: Profile, path: Path, v: Version)
    requires k < |actions| < |run|
  {
    && p.id in Registered(run[k], path.dir) && Registered(run[k], path.dir)[p.id] == p
    && !Unsaved(run, actions, k + 1, p.id)
    && path in run[k].files && run[k].files[path] == v
    && (ActsFor(actions[k], c) ==>
          !actions[k].Fail? && (SectionDir(actions[k]).Some? ==> SectionDir(actions[k]).value == path.dir))
  }

  /** The lookup is where an undisturbed lookup can be. */
  ghost predicate OnTrack(w: World, c: nat, p: Profile, path: Path, v: Version, audio: Audio) {
    c in w.calls &&
    match w.calls[c]
    case Starting(id, owner) => id == p.id && Some(owner) == p.owner
    case Authorized(q) => q == p
    case Missed(q, at, stamp) => q == p && at == path && stamp == Some(v.stamp)
    case Sized(q, at, stamp) => q == p && at == path && stamp == Some(v.stamp)
    case Holding(q, at, stamp, bytes) => q == p && at == path && stamp == Some(v.stamp) && bytes == v.bytes
    case Decoded(q, at, stamp, decoded) => q == p && at == path && stamp == Some(v.stamp) && decoded == audio
    case Done(outcome) => outcome == Ok((p, audio))
  }

  lemma TrackedSection(decode: Decoder, w: World, a: Action, w': World, c: nat, p: Profile, path: Path, v: Version,
                       audio: Audio)
    requires Inv(decode, w) && Step(decode, w, a, w') && ActsFor(a, c) && Looks(a) && SectionDir(a) == Some(path.dir)
    requires OnTrack(w, c, p, path, v, audio) && InProgress(w, c)
    requires path.id == p.id && path in w.files && w.files[path] == v && decode(v.bytes) == Some(audio)
    requires w'.cache.store.Some? && p.id in w'.cache.store.value && w'.cache.store.value[p.id] == p
    requires !Unopenable(w, path.dir)
    ensures OnTrack(w', c, p, path, v, audio)
  {
    hide Unopenable, ManifestOf, Authorize, Stage1, Stage3, Inv;
    match a
    case DoAuthorize(_, m, stamped) => AuthorizeOutcome(w, c, m, stamped, w');
    case DoStage1(_, m) =>
      Stage1Outcome(w, c, m, w');
      if w'.calls[c].Done? { Stage1Answers(decode, w, m, w', c, p, w'.calls[c].outcome.value.1); }
    case DoStage3(_, m) =>
      Stage3Outcome(w, c, m, w');
      Stage3Answers(decode, w, m, w', c, p, w'.calls[c].outcome.value.1);
    case _ =>
  }

  lemma TrackedWork(decode: Decoder, w: World, a: Action, w': World, c: nat, p: Profile, path: Path, v: Version,
                    audio: Audio)
    requires Step(decode, w, a, w') && ActsFor(a, c) && !Looks(a) && !a.Fail?
    requires OnTrack(w, c, p, path, v, audio) && InProgress(w, c)
    requires path in w.files && w.files[path] == v && decode(v.bytes) == Some(audio)
    requires |v.bytes| <= 16 * 1024 * 1024
    ensures OnTrack(w', c, p, path, v, audio)
  {
    hide ManifestOf, MutateStep, Authorize, Stage1, Stage3;
  }

  lemma DoneStaysDone(decode: Decoder, w: World, a: Action, w': World, c: nat)
    requires Step(decode, w, a, w') && c in w.calls && w.calls[c].Done?
    ensures !ActsFor(a, c)
  {
    hide ManifestOf, MutateStep, Authorize, Stage1, Stage3;
  }

  lemma TrackedStep(decode: Decoder, run: seq<World>, actions: seq<Action>, k: nat, c: nat, p: Profile, path: Path,
                    v: Version, audio: Audio)
    requires IsRun(decode, run, actions) && k < |actions| && path.id == p.id
    requires decode(v.bytes) == Some(audio) && |v.bytes| <= 16 * 1024 * 1024
    requires Favourable(run, actions, k, c, p, path, v) && OnTrack(run[k], c, p, path, v, audio)
    ensures OnTrack(run[k + 1], c, p, path, v, audio)
  {
    hide Step, Inv, Unsaved;
    var w, a, w' := run[k], actions[k], run[k + 1];
    if !ActsFor(a, c) {
      OthersLeaveItAlone(decode, w, a, w', c);
    } else {
      if w.calls[c].Done? { DoneStaysDone(decode, w, a, w', c); }
      if Looks(a) {
        RunKeepsInv(decode, run, actions, k);
        SectionsSeeTheManifest(decode, run, actions, k, path.dir);
        LookResides(decode, w, a, w');
        TrackedSection(decode, w, a, w', c, p, path, v, audio);
      } else {
        TrackedWork(decode, w, a, w', c, p, path, v, audio);
      }
    }
  }

  /** A lookup with nothing in its way is never refused: it ends with the decoding of its profile's file. */
  lemma {:induction false} UndisturbedLookupAnswers(
    decode: Decoder, run: seq<World>, actions: seq<Action>, b: nat, n: nat, c: nat, p: Profile, owner: string,
    path: Path, v: Version, audio: Audio)
    requires IsRun(decode, run, actions) && b < n <= |actions| && actions[b] == Begin(c, p.id, owner)
    requires p.owner == Some(owner) && path.id == p.id
    requires decode(v.bytes) == Some(audio) && |v.bytes| <= 16 * 1024 * 1024
    requires forall k :: b < k < n ==> Favourable(run, actions, k, c, p, path, v)
    ensures OnTrack(run[n], c, p, path, v, audio)
    ensures c in run[n].calls && (run[n].calls[c].Done? ==> Answered(run[n], c, p, audio))
    decreases n
  {
    hide Favourable;
    if n > b + 1 {
      UndisturbedLookupAnswers(decode, run, actions, b, n - 1, c, p, owner, path, v, audio);
      TrackedStep(decode, run, actions, n - 1, c, p, path, v, audio);
    }
  }

  // ------------------------------------------------------------------ hits

  /** The cache holds this audio for this profile's owner and reference, under this stamp. */
  ghost predicate Cached(c: Cache, p: Profile, stamp: Stamp, audio: Audio) {
    exists e :: e in c.references && e.stamp == Some(stamp) && e.audio == audio && e.key.id == p.id &&
      e.key.owner == (if p.owner.Some? then p.owner.value else "") && e.key.hash == p.hash
  }

  lemma ProbeIsExact(d: Deque, key: Key, stamp: Option<Stamp>, audio: Audio)
    requires UniqueKeys(d) && stamp.Some?
    ensures ProbeStep(d, key, stamp).1 == Some(audio) <==> Entry(key, stamp, audio) in d
  {
    var pos := Position(d, key, stamp);
    if Entry(key, stamp, audio) in d {
      var i :| 0 <= i < |d| && d[i] == Entry(key, stamp, audio);
      assert IsHit(d[i], key, stamp);
    }
  }

  lemma CachedEntry(c: Cache, p: Profile, stamp: Stamp, audio: Audio)
    ensures Cached(c, p, stamp, audio) <==> Entry(KeyOf(p), Some(stamp), audio) in c.references
  {
    if Cached(c, p, stamp, audio) {
      var e :| e in c.references && e.stamp == Some(stamp) && e.audio == audio && e.key.id == p.id &&
        e.key.owner == (if p.owner.Some? then p.owner.value else "") && e.key.hash == p.hash;
      assert e == Entry(KeyOf(p), Some(stamp), audio);
    }
  }

  lemma Stage1Hits(w: World, c: nat, m: Manifest, w': World, p: Profile, path: Path, audio: Audio)
    requires Stage1Step(w, c, m, w') && w.calls[c] == Authorized(p) && path == Path(m.dir, p.id)
    requires UniqueKeys(w.cache.references)
    requires w'.calls[c].Done? ==> w'.calls[c].outcome.Ok?
    ensures Answered(w', c, p, audio) <==>
      !Stale(w, m.dir) && path in w.files && Entry(KeyOf(p), Some(w.files[path].stamp), audio) in w.cache.references
  {
    hide ProbeStep, UniqueKeys, Position;
    if path in w.files {
      ProbeIsExact(w.cache.references, KeyOf(p), Some(w.files[path].stamp), audio);
      NothingIn(KeyOf(p), Some(w.files[path].stamp));
    } else {
      NothingIn(KeyOf(p), None);
      NoStampMisses(w.cache.references, KeyOf(p));
    }
  }

  lemma NothingIn(key: Key, stamp: Option<Stamp>)
    ensures ProbeStep([], key, stamp).1 == None
  {
  }

  lemma NoStampMisses(d: Deque, key: Key)
    ensures ProbeStep(d, key, None).1 == None
  {
  }

  /** A lookup that is not refused is answered in stage 1 exactly when the cache still belongs to the
      present manifest and holds the audio under the file's present stamp. */
  lemma HitsAreExact(decode: Decoder, run: seq<World>, actions: seq<Action>, i: nat, c: nat, m: Manifest, p: Profile,
                     audio: Audio)
    requires IsRun(decode, run, actions) && i < |actions| && actions[i] == DoStage1(c, m)
    requires c in run[i].calls && run[i].calls[c] == Authorized(p)
    requires !Unopenable(run[i], m.dir) && Grants(run, actions, i, m.dir, run[i].calls[c])
    ensures var path := Path(m.dir, p.id);
      Answered(run[i + 1], c, p, audio) <==>
        !Stale(run[i], m.dir) && path in run[i].files &&
        Cached(run[i].cache, p, run[i].files[path].stamp, audio)
  {
    hide Stage1Step, Cached, Stale, Unopenable, Grants, Finds;
    var w, w', path := run[i], run[i + 1], Path(m.dir, p.id);
    RunKeepsInv(decode, run, actions, i);
    FindsExactly(decode, run, actions, i, c);
    Stage1Outcome(w, c, m, w');
    Stage1Hits(w, c, m, w', p, path, audio);
    if path in run[i].files { CachedEntry(run[i].cache, p, run[i].files[path].stamp, audio); }
  }

  lemma PublishedIsLast(d: Deque, key: Key, stamp: Option<Stamp>, audio: Audio)
    ensures 4 * |audio.pcm| <= 64 * 1024 * 1024 ==> Entry(key, stamp, audio) in PublishStep(d, key, stamp, audio)
  {
    if 4 * |audio.pcm| <= 64 * 1024 * 1024 {
      var published := PublishStep(d, key, stamp, audio);
      assert published[|published| - 1] == Entry(key, stamp, audio);
    }
  }

  lemma ProbedStays(d: Deque, key: Key, stamp: Option<Stamp>)
    ensures ProbeStep(d, key, stamp).1.Some? ==>
      Entry(key, stamp, ProbeStep(d, key, stamp).1.value) in ProbeStep(d, key, stamp).0
  {
    var (d', hit) := ProbeStep(d, key, stamp);
    if hit.Some? { assert d'[|d'| - 1] == Entry(key, stamp, hit.value); }
  }

  lemma Stage1Caches(w: World, c: nat, m: Manifest, w': World, p: Profile, audio: Audio)
    requires Stage1Step(w, c, m, w') && Answered(w', c, p, audio)
    ensures Entry(KeyOf(p), StampOf(w, Path(m.dir, p.id)), audio) in w'.cache.references
  {
    hide ProbeStep, Refresh, ManifestOf;
    var q := w.calls[c].p;
    if Refresh(w.cache, m).Ok? {
      ProbedStays(Refresh(w.cache, m).value.references, KeyOf(q), StampOf(w, Path(m.dir, q.id)));
    }
  }

  lemma Stage3Caches(w: World, c: nat, m: Manifest, w': World, p: Profile, audio: Audio)
    requires Stage3Step(w, c, m, w') && Answered(w', c, p, audio) && 4 * |audio.pcm| <= 64 * 1024 * 1024
    ensures Entry(KeyOf(p), StampOf(w, w.calls[c].path), audio) in w'.cache.references
  {
    hide ProbeStep, PublishStep, Refresh, ManifestOf;
    var call := w.calls[c];
    if Refresh(w.cache, m).Ok? {
      var d := Refresh(w.cache, m).value.references;
      ProbedStays(d, KeyOf(call.p), call.stamp);
      PublishedIsLast(d, KeyOf(call.p), call.stamp, call.audio);
    }
  }

  /** Whatever has been answered, and fits the cache, is cached under the stamp its file then has. */
  lemma AnswersAreCached(decode: Decoder, run: seq<World>, actions: seq<Action>, i: nat, c: nat, p: Profile,
                         audio: Audio) returns (path: Path)
    requires IsRun(decode, run, actions) && i < |actions| && 4 * |audio.pcm| <= 64 * 1024 * 1024
    requires !Answered(run[i], c, p, audio) && Answered(run[i + 1], c, p, audio)
    ensures path.id == p.id && SectionDir(actions[i]) == Some(path.dir)
    ensures path in run[i].files ==> Cached(run[i + 1].cache, p, run[i].files[path].stamp, audio)
  {
    hide Inv, MutateStep, Stage1Step, Stage3Step, AuthorizeStep, SizeStep, ReadStep, DecodeStep, Cached;
    var w, a, w' := run[i], actions[i], run[i + 1];
    RunKeepsInv(decode, run, actions, i);
    if !ActsFor(a, c) { OthersLeaveItAlone(decode, w, a, w', c); }
    OnlyStagesAnswer(decode, w, a, w', c, p, audio);
    if a.DoStage1? {
      path := Path(a.m.dir, p.id);
      Stage1Caches(w, c, a.m, w', p, audio);
    } else {
      path := Decoding(w, a.m, w', c);
      Stage3Caches(w, c, a.m, w', p, audio);
      Stage3Answers(decode, w, a.m, w', c, p, audio);
    }
    if path in w.files { CachedEntry(w'.cache, p, w.files[path].stamp, audio); }
  }

  /** A section that reads the manifest anew keeps no entry; only its own lookup's may follow. */
  lemma ReloadDropsEntries(decode: Decoder, run: seq<World>, actions: seq<Action>, i: nat, e: Entry)
    requires IsRun(decode, run, actions) && i < |actions| && Loads(run[i], actions[i])
    requires e in run[i + 1].cache.references
    ensures actions[i].DoStage3? && InProgress(run[i], actions[i].c) && e.key.id == run[i].calls[actions[i].c].p.id
  {
    hide PublishStep, Changed, Writes, Authorize;
    var w, a := run[i], actions[i];
    match a
    case MutateStore(m, _, _) => RefreshEmpties(w, m);
    case DoAuthorize(c, m, stamped) => AuthorizeEmpties(w, m, stamped, w.calls[c].id, w.calls[c].owner);
    case DoStage1(c, m) => RefreshEmpties(w, m);
    case DoStage3(c, m) =>
      RefreshEmpties(w, m);
      PublishKeepsOthers([], KeyOf(w.calls[c].p), w.calls[c].stamp, w.calls[c].audio);
    case _ =>
  }

  lemma RefreshEmpties(w: World, m: Manifest)
    requires m == ManifestOf(w, m.dir) && Stale(w, m.dir) && !Unopenable(w, m.dir)
    ensures Refresh(w.cache, m).Ok? && Refresh(w.cache, m).value.references == []
  {
  }

  lemma AuthorizeEmpties(w: World, m: Manifest, stamped: Option<Stamp>, id: string, owner: string)
    requires m == ManifestOf(w, m.dir) && Stale(w, m.dir) && !Unopenable(w, m.dir)
    ensures Authorize(w.cache, m, stamped, id, owner).0.references == []
  {
  }
}
