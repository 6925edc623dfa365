/**
 The staged lookup of a profile's decoded reference: authorise and probe under the lock, read and
 decode without it, then verify again and publish under the lock.

 `CachedVoices` is the locked state with its lock sections as methods. `World` puts it next to the
 reference files and any number of lookups in progress; `Step` interleaves their sections with
 profile deletion and change, file replacement and removal, manifest reloads and purges.
 */
module VoiceLookup {
  import opened Common
  import opened VoiceCache

  type Raw = seq<nat>

  const MAX_STORED_REFERENCE_BYTES: nat := 16 * 1024 * 1024

  datatype Profile = Profile(id: string, owner: Option<string>, hash: string)

  type Store = map<string, Profile>

  datatype Error = NotFound | PayloadTooLarge | BadRequest | ServiceUnavailable | Internal

  datatype Result<+T> = Ok(value: T) | Err(error: Error)

  function KeyOf(p: Profile): Key { Key(p.id, if p.owner.Some? then p.owner.value else "", p.hash) }

  /** The identity check repeated after every slow path. */
  predicate Resident(store: Store, p: Profile) {
    p.id in store && store[p.id].hash == p.hash && store[p.id].owner == p.owner
  }

  /** What one lock section finds: the configured directory, its manifest's stamp, and what opening it would yield. */
  datatype Manifest = Manifest(dir: string, stamp: Option<Stamp>, store: Option<Store>)

  datatype Cache = Cache(dir: string, store: Option<Store>, stamp: Option<Stamp>, references: Deque)

  const EMPTY_CACHE := Cache("", None, None, [])

  /** Where the store of a directory keeps a profile's reference. */
  datatype Path = Path(dir: string, id: string)

  // ------------------------------------------------------------------ lock sections

  /** `ensure_resident_store`: a new directory or manifest stamp reloads the store and drops every decoded entry. */
  function Refresh(c: Cache, m: Manifest): Result<Cache> {
    if c.store.None? || c.dir != m.dir || c.stamp != m.stamp then
      if m.store.None? then Err(Internal) else Ok(Cache(m.dir, m.store, m.stamp, []))
    else Ok(c)
  }

  /** Authorisation: the owned profile, under the store lock; `stamped` is the manifest stamp read last. */
  function Authorize(c: Cache, m: Manifest, stamped: Option<Stamp>, id: string, owner: string)
    : (Cache, Result<Profile>)
  {
    match Refresh(c, m)
    case Err(e) => (c, Err(e))
    case Ok(loaded) =>
      var store := loaded.store.value;
      (loaded.(stamp := stamped),
       if id in store && store[id].owner == Some(owner) then Ok(store[id]) else Err(NotFound))
  }

  datatype Staged = Hit(audio: Audio) | Miss

  /** Stage 1: re-authorise, then probe with the file's present stamp. */
  function Stage1(c: Cache, m: Manifest, p: Profile, stamp: Option<Stamp>): (Cache, Result<Staged>) {
    match Refresh(c, m)
    case Err(e) => (c, Err(e))
    case Ok(loaded) =>
      if !Resident(loaded.store.value, p) then (loaded, Err(NotFound))
      else
        var (references, hit) := ProbeStep(loaded.references, KeyOf(p), stamp);
        (loaded.(references := references), Ok(if hit.Some? then Hit(hit.value) else Miss))
  }

  /** Stage 3: re-authorise, compare stamps, probe again, and only then publish. */
  function Stage3(c: Cache, m: Manifest, p: Profile, stamp: Option<Stamp>, present: Option<Stamp>, decoded: Audio)
    : (Cache, Result<Audio>)
  {
    match Refresh(c, m)
    case Err(e) => (c, Err(e))
    case Ok(loaded) =>
      if !Resident(loaded.store.value, p) then (loaded, Err(NotFound))
      else if present != stamp then (loaded, Err(ServiceUnavailable))
      else
        var (references, hit) := ProbeStep(loaded.references, KeyOf(p), stamp);
        if hit.Some? then (loaded.(references := references), Ok(hit.value))
        else (loaded.(references := PublishStep(loaded.references, KeyOf(p), stamp, decoded)), Ok(decoded))
  }

  class CachedVoices {
    var dir: string
    var store: Option<Store>
    var stamp: Option<Stamp>
    var references: Deque

    function Contents(): Cache
      reads this
    {
      Cache(dir, store, stamp, references)
    }

    constructor ()
      ensures Contents() == EMPTY_CACHE
    {
      dir, store, stamp, references := "", None, None, [];
    }

    method Probe(key: Key, stamp: Option<Stamp>) returns (hit: Option<Audio>)
      modifies this`references
      ensures (references, hit) == ProbeStep(old(references), key, stamp)
    {
      var pos := Position(references, key, stamp);
      if pos >= |references| { return None; }
      var entry := references[pos];
      references := references[..pos] + references[pos + 1..];
      references := references + [entry];
      return Some(entry.audio);
    }

    method Publish(key: Key, stamp: Option<Stamp>, audio: Audio)
      modifies this`references
      ensures references == PublishStep(old(references), key, stamp, audio)
    {
      var size := Size(audio);
      while |references| >= MAX_DECODED_CACHE_ENTRIES || Bytes(references) + size > MAX_DECODED_CACHE_BYTES
        invariant Evict(references, size) == Evict(old(references), size)
        decreases |references|
      {
        if references == [] { break; }
        references := references[1..];
      }
      assert references == Evict(old(references), size);
      references := Without(references, key);
      if size <= MAX_DECODED_CACHE_BYTES {
        references := references + [Entry(key, stamp, audio)];
      }
    }

    method EnsureResidentStore(m: Manifest) returns (r: Result<()>)
      modifies this
      ensures match Refresh(old(Contents()), m)
              case Ok(loaded) => r.Ok? && Contents() == loaded && store.Some?
              case Err(e) => r == Err(e) && Contents() == old(Contents())
    {
      if store.None? || dir != m.dir || stamp != m.stamp {
        if m.store.None? { return Err(Internal); }
        store := m.store;
        dir := m.dir;
        stamp := m.stamp;
        references := [];
      }
      return Ok(());
    }

    method AuthorizeSection(m: Manifest, stamped: Option<Stamp>, id: string, owner: string) returns (r: Result<Profile>)
      modifies this
      ensures (Contents(), r) == Authorize(old(Contents()), m, stamped, id, owner)
    {
      var ready := EnsureResidentStore(m);
      if ready.Err? { return Err(ready.error); }
      r := if id in store.value && store.value[id].owner == Some(owner) then Ok(store.value[id]) else Err(NotFound);
      stamp := stamped;
    }

    method Stage1Section(m: Manifest, p: Profile, fileStamp: Option<Stamp>) returns (r: Result<Staged>)
      modifies this
      ensures (Contents(), r) == Stage1(old(Contents()), m, p, fileStamp)
    {
      var ready := EnsureResidentStore(m);
      if ready.Err? { return Err(ready.error); }
      if !Resident(store.value, p) { return Err(NotFound); }
      var hit := Probe(KeyOf(p), fileStamp);
      if hit.Some? { return Ok(Hit(hit.value)); }
      return Ok(Miss);
    }

    method Stage3Section(m: Manifest, p: Profile, fileStamp: Option<Stamp>, present: Option<Stamp>, decoded: Audio)
      returns (r: Result<Audio>)
      modifies this
      ensures (Contents(), r) == Stage3(old(Contents()), m, p, fileStamp, present, decoded)
    {
      var ready := EnsureResidentStore(m);
      if ready.Err? { return Err(ready.error); }
      if !Resident(store.value, p) { return Err(NotFound); }
      if present != fileStamp { return Err(ServiceUnavailable); }
      var hit := Probe(KeyOf(p), fileStamp);
      if hit.Some? { return Ok(hit.value); }
      Publish(KeyOf(p), fileStamp, decoded);
      return Ok(decoded);
    }
  }

  // ------------------------------------------------------------------ lookups in progress

  /** A reference file: its stamp and its bytes. */
  datatype Version = Version(stamp: Stamp, bytes: Raw)

  datatype Call =
    | Starting(id: string, owner: string)
    | Authorized(p: Profile)
    | Missed(p: Profile, path: Path, stamp: Option<Stamp>)
    | Sized(p: Profile, path: Path, stamp: Option<Stamp>)
    | Holding(p: Profile, path: Path, stamp: Option<Stamp>, bytes: Raw)
    | Decoded(p: Profile, path: Path, stamp: Option<Stamp>, audio: Audio)
    | Done(outcome: Result<(Profile, Audio)>)

  /** A manifest file: its stamp, and its profiles if it can be opened. */
  datatype OnDisk = OnDisk(stamp: Stamp, content: Option<Store>)

  /** `ledger` and `versions` record what every stamp has ever identified, and `readBy` what each lookup read. */
  datatype World = World(files: map<Path, Version>, ledger: map<Stamp, Raw>, cache: Cache,
                         calls: map<nat, Call>, readBy: map<nat, Version>,
                         manifests: map<string, OnDisk>, versions: map<Stamp, Option<Store>>)

  /** What a section finds in a directory; without a manifest file its store is empty. */
  function ManifestOf(w: World, dir: string): Manifest {
    if dir in w.manifests then Manifest(dir, Some(w.manifests[dir].stamp), w.manifests[dir].content)
    else Manifest(dir, None, Some(map[]))
  }

  /** What a request does to the store it works on, under the lock. */
  datatype Change = LookOnly | Register(p: Profile) | Unregister(id: string)

  /** The store in memory after the change. A registration that cannot be saved is taken back; a deletion is not. */
  function Changed(store: Store, change: Change, saved: Option<Stamp>): Store {
    match change
    case LookOnly => store
    case Register(p) => if saved.Some? then store[p.id := p] else store
    case Unregister(id) => store - {id}
  }

  /** Whether the change writes the manifest, if it can. */
  predicate Writes(store: Store, change: Change) {
    match change
    case LookOnly => false
    case Register(_) => true
    case Unregister(id) => id in store
  }

  function StampOf(w: World, path: Path): Option<Stamp> {
    if path in w.files then Some(w.files[path].stamp) else None
  }

  datatype Action =
    | WriteFile(path: Path, v: Version)
    | RemoveFile(path: Path)
    | WriteManifest(dir: string, manifest: OnDisk)
    | RemoveManifest(dir: string)
    | MutateStore(m: Manifest, change: Change, saved: Option<Stamp>)
    | PurgeProfile(id: string)
    | Begin(c: nat, id: string, owner: string)
    | DoAuthorize(c: nat, m: Manifest, stamped: Option<Stamp>)
    | DoStage1(c: nat, m: Manifest)
    | CheckSize(c: nat)
    | ReadFile(c: nat)
    | Decode(c: nat)
    | DoStage3(c: nat, m: Manifest)
    | Fail(c: nat, error: Error)

  /** Decoding is a parameter: any partial function from bytes to audio. */
  type Decoder = Raw -> Option<Audio>

  ghost predicate MutateStep(w: World, m: Manifest, change: Change, saved: Option<Stamp>, w': World) {
    && m == ManifestOf(w, m.dir)
    && match Refresh(w.cache, m)
       case Err(_) => saved.None? && w' == w
       case Ok(loaded) =>
         var store := Changed(loaded.store.value, change, saved);
         && (saved.Some? ==> Writes(loaded.store.value, change) && saved.value !in w.versions)
         && w' == if saved.None? then w.(cache := Cache(m.dir, Some(store), m.stamp, loaded.references))
                  else w.(cache := Cache(m.dir, Some(store), saved, loaded.references),
                          manifests := w.manifests[m.dir := OnDisk(saved.value, Some(store))],
                          versions := w.versions[saved.value := Some(store)])
  }

  ghost predicate AuthorizeStep(w: World, c: nat, m: Manifest, stamped: Option<Stamp>, w': World) {
    c in w.calls && w.calls[c].Starting? && m == ManifestOf(w, m.dir) && stamped == m.stamp &&
    var (cache, r) := Authorize(w.cache, m, stamped, w.calls[c].id, w.calls[c].owner);
    w' == w.(cache := cache,
             calls := w.calls[c := match r case Ok(p) => Authorized(p) case Err(e) => Done(Err(e))])
  }

  ghost predicate Stage1Step(w: World, c: nat, m: Manifest, w': World) {
    c in w.calls && w.calls[c].Authorized? && m == ManifestOf(w, m.dir) &&
    var p := w.calls[c].p;
    var path := Path(m.dir, p.id);
    var stamp := StampOf(w, path);
    var (cache, r) := Stage1(w.cache, m, p, stamp);
    w' == w.(cache := cache,
             calls := w.calls[c := match r
                                   case Err(e) => Done(Err(e))
                                   case Ok(Hit(audio)) => Done(Ok((p, audio)))
                                   case Ok(Miss) => Missed(p, path, stamp)])
  }

  ghost predicate SizeStep(w: World, c: nat, w': World) {
    c in w.calls && w.calls[c].Missed? &&
    var call := w.calls[c];
    w' == w.(calls := w.calls[c := if call.path !in w.files then Done(Err(Internal))
                                   else if |w.files[call.path].bytes| > MAX_STORED_REFERENCE_BYTES
                                   then Done(Err(PayloadTooLarge))
                                   else Sized(call.p, call.path, call.stamp)])
  }

  ghost predicate ReadStep(w: World, c: nat, w': World) {
    c in w.calls && w.calls[c].Sized? &&
    var call := w.calls[c];
    if call.path !in w.files then w' == w.(calls := w.calls[c := Done(Err(Internal))])
    else w' == w.(calls := w.calls[c := Holding(call.p, call.path, call.stamp, w.files[call.path].bytes)],
                  readBy := w.readBy[c := w.files[call.path]])
  }

  ghost predicate DecodeStep(decode: Decoder, w: World, c: nat, w': World) {
    c in w.calls && w.calls[c].Holding? &&
    var call := w.calls[c];
    w' == w.(calls := w.calls[c := if decode(call.bytes).None? then Done(Err(BadRequest))
                                   else if StampOf(w, call.path) != call.stamp then Done(Err(ServiceUnavailable))
                                   else Decoded(call.p, call.path, call.stamp, decode(call.bytes).value)])
  }

  /** The directory was read once, before stage 1. */
  ghost predicate Stage3Step(w: World, c: nat, m: Manifest, w': World) {
    c in w.calls && w.calls[c].Decoded? && m == ManifestOf(w, w.calls[c].path.dir) &&
    var call := w.calls[c];
    var (cache, r) := Stage3(w.cache, m, call.p, call.stamp, StampOf(w, call.path), call.audio);
    w' == w.(cache := cache,
             calls := w.calls[c := match r case Ok(audio) => Done(Ok((call.p, audio))) case Err(e) => Done(Err(e))])
  }

  ghost predicate Step(decode: Decoder, w: World, a: Action, w': World) {
    match a
    // A stamp identifies the contents of a file and is never reused.
    case WriteFile(path, v) =>
      v.stamp !in w.ledger && w' == w.(files := w.files[path := v], ledger := w.ledger[v.stamp := v.bytes])
    case RemoveFile(path) => w' == w.(files := w.files - {path})
    // Another process writes or removes a manifest; a stamp is never reused here either.
    case WriteManifest(dir, v) =>
      && v.stamp !in w.versions
      && w' == w.(manifests := w.manifests[dir := v], versions := w.versions[v.stamp := v.content])
    case RemoveManifest(dir) => w' == w.(manifests := w.manifests - {dir})
    // Any other request's work on the store, under the same lock; the manifest's stamp is read last.
    case MutateStore(m, change, saved) => MutateStep(w, m, change, saved, w')
    case PurgeProfile(id) => w' == w.(cache := w.cache.(references := PurgeStep(w.cache.references, id)))
    case Begin(c, id, owner) => c !in w.calls && w' == w.(calls := w.calls[c := Starting(id, owner)])
    case DoAuthorize(c, m, stamped) => AuthorizeStep(w, c, m, stamped, w')
    case DoStage1(c, m) => Stage1Step(w, c, m, w')
    case CheckSize(c) => SizeStep(w, c, w')
    case ReadFile(c) => ReadStep(w, c, w')
    case Decode(c) => DecodeStep(decode, w, c, w')
    case DoStage3(c, m) => Stage3Step(w, c, m, w')
    // An I/O error or a dropped request ends a lookup between any two stages.
    case Fail(c, error) =>
      c in w.calls && !w.calls[c].Done? && w' == w.(calls := w.calls[c := Done(Err(error))])
  }

  // ------------------------------------------------------------------ invariant

  ghost predicate FilesInLedger(w: World) {
    && (forall f :: f in w.files ==> w.files[f].stamp in w.ledger && w.ledger[w.files[f].stamp] == w.files[f].bytes)
    && (forall c :: c in w.readBy ==> w.readBy[c].stamp in w.ledger && w.ledger[w.readBy[c].stamp] == w.readBy[c].bytes)
  }

  /** An entry published under a stamp is the decoding of what that stamp identifies. */
  ghost predicate EntryIsCoherent(decode: Decoder, ledger: map<Stamp, Raw>, e: Entry) {
    e.stamp.Some? ==> e.stamp.value in ledger && decode(ledger[e.stamp.value]) == Some(e.audio)
  }

  ghost predicate CacheIsCoherent(decode: Decoder, ledger: map<Stamp, Raw>, d: Deque) {
    forall e :: e in d ==> EntryIsCoherent(decode, ledger, e)
  }

  ghost predicate StampKnown(w: World, stamp: Option<Stamp>) {
    stamp.Some? ==> stamp.value in w.ledger
  }

  ghost predicate CallIsCoherent(decode: Decoder, w: World, c: nat)
    requires c in w.calls
  {
    match w.calls[c]
    case Missed(p, path, stamp) => path.id == p.id && StampKnown(w, stamp)
    case Sized(p, path, stamp) => path.id == p.id && StampKnown(w, stamp)
    case Holding(p, path, stamp, bytes) =>
      && path.id == p.id && StampKnown(w, stamp) && c in w.readBy && w.readBy[c].bytes == bytes
      // The file cannot return to a stamp it has left.
      && (stamp.Some? && stamp == StampOf(w, path) ==> w.readBy[c] == w.files[path])
    case Decoded(p, path, stamp, audio) =>
      && path.id == p.id
      && if stamp.Some? then stamp.value in w.ledger && decode(w.ledger[stamp.value]) == Some(audio)
         else c in w.readBy && decode(w.readBy[c].bytes) == Some(audio)
    case _ => true
  }

  ghost predicate Inv(decode: Decoder, w: World) {
    && FilesInLedger(w)
    && CacheIsCoherent(decode, w.ledger, w.cache.references)
    && WithinBudget(w.cache.references)
    && forall c :: c in w.calls ==> CallIsCoherent(decode, w, c)
  }

  ghost predicate ManifestsKnown(w: World) {
    forall d :: d in w.manifests ==>
      w.manifests[d].stamp in w.versions && w.versions[w.manifests[d].stamp] == w.manifests[d].content
  }

  ghost predicate Init(w: World) {
    w.cache == EMPTY_CACHE && w.calls == map[] && w.readBy == map[] && FilesInLedger(w) && ManifestsKnown(w)
  }

  lemma ProbeIsCoherent(decode: Decoder, ledger: map<Stamp, Raw>, d: Deque, key: Key, stamp: Option<Stamp>)
    requires CacheIsCoherent(decode, ledger, d) && WithinBudget(d)
    ensures var (d', hit) := ProbeStep(d, key, stamp);
      && CacheIsCoherent(decode, ledger, d') && WithinBudget(d')
      && (hit.Some? ==> stamp.Some? && stamp.value in ledger && decode(ledger[stamp.value]) == hit)
  {
    hide WithinBudget;
    ProbeKeepsBudget(d, key, stamp);
    var pos := Position(d, key, stamp);
    if pos < |d| { assert EntryIsCoherent(decode, ledger, d[pos]); }
  }

  lemma {:induction false} EvictedIsSubset(d: Deque, size: nat)
    ensures forall e :: e in Evict(d, size) ==> e in d
    decreases |d|
  {
    if d != [] { EvictedIsSubset(d[1..], size); }
  }

  lemma PublishIsCoherent(decode: Decoder, ledger: map<Stamp, Raw>, d: Deque, key: Key, stamp: Option<Stamp>,
                          audio: Audio)
    requires CacheIsCoherent(decode, ledger, d) && WithinBudget(d)
    requires EntryIsCoherent(decode, ledger, Entry(key, stamp, audio))
    ensures CacheIsCoherent(decode, ledger, PublishStep(d, key, stamp, audio))
    ensures WithinBudget(PublishStep(d, key, stamp, audio))
  {
    hide WithinBudget, EntryIsCoherent;
    PublishKeepsBudget(d, key, stamp, audio);
    EvictedIsSubset(d, Size(audio));
    WithoutFilters(Evict(d, Size(audio)), key);
  }

  ghost predicate CoherentCache(decode: Decoder, ledger: map<Stamp, Raw>, c: Cache) {
    CacheIsCoherent(decode, ledger, c.references) && WithinBudget(c.references)
  }

  lemma RefreshIsCoherent(decode: Decoder, ledger: map<Stamp, Raw>, c: Cache, m: Manifest)
    requires CoherentCache(decode, ledger, c)
    ensures Refresh(c, m).Ok? ==> CoherentCache(decode, ledger, Refresh(c, m).value)
  {
  }

  lemma AuthorizeIsCoherent(decode: Decoder, ledger: map<Stamp, Raw>, c: Cache, m: Manifest, stamped: Option<Stamp>,
                            id: string, owner: string)
    requires CoherentCache(decode, ledger, c)
    ensures CoherentCache(decode, ledger, Authorize(c, m, stamped, id, owner).0)
  {
    hide Refresh;
    RefreshIsCoherent(decode, ledger, c, m);
  }

  /** Stage 1 answers only for a resident profile, with the decoding of the stamp's contents. */
  lemma Stage1IsCoherent(decode: Decoder, ledger: map<Stamp, Raw>, c: Cache, m: Manifest, p: Profile,
                         stamp: Option<Stamp>)
    requires CoherentCache(decode, ledger, c)
    ensures var (c', r) := Stage1(c, m, p, stamp);
      && CoherentCache(decode, ledger, c')
      && (r.Ok? ==> c'.dir == m.dir && c'.stamp == m.stamp && c'.store.Some? && Resident(c'.store.value, p))
      && (r.Ok? && r.value.Hit? ==>
            stamp.Some? && stamp.value in ledger && decode(ledger[stamp.value]) == Some(r.value.audio))
  {
    hide ProbeStep, CacheIsCoherent, WithinBudget;
    RefreshIsCoherent(decode, ledger, c, m);
    if Refresh(c, m).Ok? { ProbeIsCoherent(decode, ledger, Refresh(c, m).value.references, KeyOf(p), stamp); }
  }

  /** Stage 3 answers only for a resident profile and an unchanged stamp. */
  lemma Stage3IsCoherent(decode: Decoder, ledger: map<Stamp, Raw>, c: Cache, m: Manifest, p: Profile,
                         stamp: Option<Stamp>, present: Option<Stamp>, decoded: Audio)
    requires CoherentCache(decode, ledger, c)
    requires stamp.Some? ==> stamp.value in ledger && decode(ledger[stamp.value]) == Some(decoded)
    ensures var (c', r) := Stage3(c, m, p, stamp, present, decoded);
      && CoherentCache(decode, ledger, c')
      && (r.Ok? ==> c'.dir == m.dir && c'.stamp == m.stamp && c'.store.Some? && Resident(c'.store.value, p))
      && (r.Ok? ==> present == stamp && r.value == decoded)
  {
    hide ProbeStep, PublishStep, CacheIsCoherent, WithinBudget;
    RefreshIsCoherent(decode, ledger, c, m);
    if Refresh(c, m).Ok? {
      var d := Refresh(c, m).value.references;
      ProbeIsCoherent(decode, ledger, d, KeyOf(p), stamp);
      PublishIsCoherent(decode, ledger, d, KeyOf(p), stamp, decoded);
    }
  }

  /** Writing a file under a new stamp disturbs no lookup and no entry. */
  lemma WriteKeepsInv(decode: Decoder, w: World, path: Path, v: Version, w': World)
    requires Inv(decode, w) && Step(decode, w, WriteFile(path, v), w')
    ensures Inv(decode, w')
  {
    hide ManifestOf, MutateStep, WithinBudget;
    forall c | c in w'.calls ensures CallIsCoherent(decode, w', c) { assert CallIsCoherent(decode, w, c); }
    forall e | e in w'.cache.references ensures EntryIsCoherent(decode, w'.ledger, e) {
      assert EntryIsCoherent(decode, w.ledger, e);
    }
  }

  /** A step that leaves files, ledger and reads alone and moves one call. */
  lemma CallKeepsInv(decode: Decoder, w: World, c: nat, call: Call, cache: Cache)
    requires Inv(decode, w) && CoherentCache(decode, w.ledger, cache)
    requires CallIsCoherent(decode, w.(calls := w.calls[c := call]), c)
    ensures Inv(decode, w.(cache := cache, calls := w.calls[c := call]))
  {
    hide WithinBudget, CacheIsCoherent;
    var w' := w.(cache := cache, calls := w.calls[c := call]);
    forall k | k in w'.calls ensures CallIsCoherent(decode, w', k) {
      if k != c { assert CallIsCoherent(decode, w, k); }
    }
  }

  /** A step that leaves files, ledger, reads and calls alone. */
  lemma CacheKeepsInv(decode: Decoder, w: World, w': World)
    requires Inv(decode, w) && CoherentCache(decode, w.ledger, w'.cache)
    requires w'.files == w.files && w'.ledger == w.ledger && w'.readBy == w.readBy && w'.calls == w.calls
    ensures Inv(decode, w')
  {
    hide WithinBudget, CacheIsCoherent;
    forall c | c in w'.calls ensures CallIsCoherent(decode, w', c) { assert CallIsCoherent(decode, w, c); }
  }

  lemma MutateKeepsInv(decode: Decoder, w: World, m: Manifest, change: Change, saved: Option<Stamp>, w': World)
    requires Inv(decode, w) && MutateStep(w, m, change, saved, w')
    ensures Inv(decode, w')
  {
    hide WithinBudget, CacheIsCoherent, CallIsCoherent, ManifestOf, Changed, Writes;
    RefreshIsCoherent(decode, w.ledger, w.cache, m);
    CacheKeepsInv(decode, w, w');
  }

  /** Work on the store leaves the files and the lookups alone. */
  lemma MutateEffect(w: World, m: Manifest, change: Change, saved: Option<Stamp>, w': World)
    requires MutateStep(w, m, change, saved, w')
    ensures w'.calls == w.calls && w'.files == w.files && w'.ledger == w.ledger && w'.readBy == w.readBy
    ensures w'.cache.references == w.cache.references || w'.cache.references == []
  {
    hide ManifestOf, Changed, Writes;
  }

  lemma RemoveKeepsInv(decode: Decoder, w: World, path: Path)
    requires Inv(decode, w)
    ensures Inv(decode, w.(files := w.files - {path}))
  {
    hide WithinBudget, CacheIsCoherent;
    var w' := w.(files := w.files - {path});
    forall c | c in w'.calls ensures CallIsCoherent(decode, w', c) { assert CallIsCoherent(decode, w, c); }
  }

  lemma PurgeKeepsInv(decode: Decoder, w: World, id: string)
    requires Inv(decode, w)
    ensures Inv(decode, w.(cache := w.cache.(references := PurgeStep(w.cache.references, id))))
  {
    hide WithinBudget, EntryIsCoherent, CallIsCoherent;
    PurgeFilters(w.cache.references, id);
    PurgeKeepsBudget(w.cache.references, id);
    CacheKeepsInv(decode, w, w.(cache := w.cache.(references := PurgeStep(w.cache.references, id))));
  }

  lemma ReadKeepsInv(decode: Decoder, w: World, c: nat, w': World)
    requires Inv(decode, w) && ReadStep(w, c, w')
    ensures Inv(decode, w')
  {
    hide WithinBudget, CacheIsCoherent;
    assert CallIsCoherent(decode, w, c);
    forall k | k in w'.calls ensures CallIsCoherent(decode, w', k) { assert CallIsCoherent(decode, w, k); }
  }

  lemma AuthorizeKeepsInv(decode: Decoder, w: World, c: nat, m: Manifest, stamped: Option<Stamp>, w': World)
    requires Inv(decode, w) && AuthorizeStep(w, c, m, stamped, w')
    ensures Inv(decode, w')
  {
    hide WithinBudget, CacheIsCoherent, Authorize, ManifestOf, FilesInLedger;
    AuthorizeIsCoherent(decode, w.ledger, w.cache, m, stamped, w.calls[c].id, w.calls[c].owner);
    CallKeepsInv(decode, w, c, w'.calls[c], w'.cache);
  }

  lemma Stage1KeepsInv(decode: Decoder, w: World, c: nat, m: Manifest, w': World)
    requires Inv(decode, w) && Stage1Step(w, c, m, w')
    ensures Inv(decode, w')
  {
    hide WithinBudget, CacheIsCoherent, Stage1, ManifestOf, FilesInLedger;
    var path := Path(m.dir, w.calls[c].p.id);
    Stage1IsCoherent(decode, w.ledger, w.cache, m, w.calls[c].p, StampOf(w, path));
    StampIsKnown(w, path);
    CallKeepsInv(decode, w, c, w'.calls[c], w'.cache);
  }

  lemma Stage3KeepsInv(decode: Decoder, w: World, c: nat, m: Manifest, w': World)
    requires Inv(decode, w) && Stage3Step(w, c, m, w')
    ensures Inv(decode, w')
  {
    hide WithinBudget, CacheIsCoherent, Stage3, ManifestOf, FilesInLedger;
    assert CallIsCoherent(decode, w, c);
    var call := w.calls[c];
    Stage3IsCoherent(decode, w.ledger, w.cache, m, call.p, call.stamp, StampOf(w, call.path), call.audio);
    CallKeepsInv(decode, w, c, w'.calls[c], w'.cache);
  }

  lemma SizeKeepsInv(decode: Decoder, w: World, c: nat, w': World)
    requires Inv(decode, w) && SizeStep(w, c, w')
    ensures Inv(decode, w')
  {
    hide WithinBudget, CacheIsCoherent, FilesInLedger;
    assert CallIsCoherent(decode, w, c);
    CallKeepsInv(decode, w, c, w'.calls[c], w.cache);
  }

  lemma DecodeKeepsInv(decode: Decoder, w: World, c: nat, w': World)
    requires Inv(decode, w) && DecodeStep(decode, w, c, w')
    ensures Inv(decode, w')
  {
    hide WithinBudget, CacheIsCoherent, FilesInLedger, CallIsCoherent;
    DecodedIsCoherent(decode, w, c, w');
    CallKeepsInv(decode, w, c, w'.calls[c], w.cache);
  }

  lemma StepKeepsInv(decode: Decoder, w: World, a: Action, w': World)
    requires Inv(decode, w) && Step(decode, w, a, w')
    ensures Inv(decode, w')
  {
    hide Inv, MutateStep, AuthorizeStep, Stage1Step, SizeStep, ReadStep, DecodeStep, Stage3Step;
    match a
    case WriteFile(path, v) => WriteKeepsInv(decode, w, path, v, w');
    case RemoveFile(path) => RemoveKeepsInv(decode, w, path);
    case WriteManifest(_, _) => CacheStays(decode, w); CacheKeepsInv(decode, w, w');
    case RemoveManifest(_) => CacheStays(decode, w); CacheKeepsInv(decode, w, w');
    case MutateStore(m, change, saved) => MutateKeepsInv(decode, w, m, change, saved, w');
    case PurgeProfile(id) => PurgeKeepsInv(decode, w, id);
    case Begin(c, id, owner) => CacheStays(decode, w); CallKeepsInv(decode, w, c, w'.calls[c], w.cache);
    case DoAuthorize(c, m, stamped) => AuthorizeKeepsInv(decode, w, c, m, stamped, w');
    case DoStage1(c, m) => Stage1KeepsInv(decode, w, c, m, w');
    case CheckSize(c) => SizeKeepsInv(decode, w, c, w');
    case ReadFile(c) => ReadKeepsInv(decode, w, c, w');
    case Decode(c) => DecodeKeepsInv(decode, w, c, w');
    case DoStage3(c, m) => Stage3KeepsInv(decode, w, c, m, w');
    case Fail(c, error) => CacheStays(decode, w); CallKeepsInv(decode, w, c, w'.calls[c], w.cache);
  }

  lemma CacheStays(decode: Decoder, w: World)
    requires Inv(decode, w)
    ensures CoherentCache(decode, w.ledger, w.cache)
  {
  }

  lemma StampIsKnown(w: World, path: Path)
    requires FilesInLedger(w)
    ensures StampKnown(w, StampOf(w, path))
  {
  }

  lemma DecodedIsCoherent(decode: Decoder, w: World, c: nat, w': World)
    requires Inv(decode, w) && DecodeStep(decode, w, c, w')
    ensures CallIsCoherent(decode, w.(calls := w.calls[c := w'.calls[c]]), c)
  {
    hide ManifestOf, MutateStep, WithinBudget, CacheIsCoherent;
    assert CallIsCoherent(decode, w, c);
  }

  // ------------------------------------------------------------------ runs

  ghost predicate IsRun(decode: Decoder, run: seq<World>, actions: seq<Action>) {
    && |run| == |actions| + 1 && Init(run[0])
    && forall i :: 0 <= i < |actions| ==> Step(decode, run[i], actions[i], run[i + 1])
  }

  lemma {:induction false} RunKeepsInv(decode: Decoder, run: seq<World>, actions: seq<Action>, n: nat)
    requires IsRun(decode, run, actions) && n <= |actions|
    ensures Inv(decode, run[n])
  {
    hide Step, Inv;
    if n == 0 {
      InitHolds(decode, run[0]);
    } else {
      RunKeepsInv(decode, run, actions, n - 1);
      StepKeepsInv(decode, run[n - 1], actions[n - 1], run[n]);
    }
  }

  lemma InitHolds(decode: Decoder, w: World)
    requires Init(w)
    ensures Inv(decode, w)
  {
    assert Bytes([]) == 0;
  }

  ghost predicate InProgress(w: World, c: nat) { c in w.calls && !w.calls[c].Done? }

  ghost predicate Answered(w: World, c: nat, p: Profile, audio: Audio) {
    c in w.calls && w.calls[c] == Done(Ok((p, audio)))
  }

  /** The file at `path` holds bytes that decode to `audio`. */
  ghost predicate FileDecodes(decode: Decoder, w: World, path: Path, audio: Audio) {
    path in w.files && decode(w.files[path].bytes) == Some(audio)
  }

  /** `p` is resident, in the store of directory `dir`. */
  ghost predicate ResidentNow(w: World, p: Profile, dir: string) {
    w.cache.dir == dir && w.cache.store.Some? && Resident(w.cache.store.value, p)
  }

  ghost function Stamps(stamp: Option<Stamp>): set<Stamp> { if stamp.Some? then {stamp.value} else {} }

  /** The stamp of its file that lookup `c` reads in this step, if it reads one and finds one. */
  ghost function Observes(w: World, a: Action, c: nat): set<Stamp> {
    match a
    case DoStage1(k, m) =>
      if k == c && c in w.calls && w.calls[c].Authorized? then Stamps(StampOf(w, Path(m.dir, w.calls[c].p.id))) else {}
    case Decode(k) =>
      if k == c && c in w.calls && w.calls[c].Holding? then Stamps(StampOf(w, w.calls[c].path)) else {}
    case DoStage3(k, m) =>
      if k == c && c in w.calls && w.calls[c].Decoded? then Stamps(StampOf(w, w.calls[c].path)) else {}
    case _ => {}
  }

  predicate ActsFor(a: Action, c: nat) {
    match a
    case WriteFile(_, _) => false
    case RemoveFile(_) => false
    case WriteManifest(_, _) => false
    case RemoveManifest(_) => false
    case MutateStore(_, _, _) => false
    case PurgeProfile(_) => false
    case own => own.c == c
  }

  /** A lookup moves only in its own steps. */
  lemma OthersLeaveItAlone(decode: Decoder, w: World, a: Action, w': World, c: nat)
    requires Step(decode, w, a, w') && !ActsFor(a, c)
    ensures c in w.calls <==> c in w'.calls
    ensures c in w.calls ==> w'.calls[c] == w.calls[c]
    ensures c in w.readBy ==> c in w'.readBy && w'.readBy[c] == w.readBy[c]
  {
    hide ManifestOf, MutateStep, Authorize, Refresh, Stage1, Stage3;
    if a.MutateStore? { MutateEffect(w, a.m, a.change, a.saved, w'); }
  }

  /** What holds when lookup `c` answers in the lock section of action `a`. */
  ghost predicate AnswersFrom(decode: Decoder, w: World, a: Action, w': World, c: nat, p: Profile, audio: Audio,
                              path: Path)
  {
    && InProgress(w, c) && path.id == p.id && ResidentNow(w', p, path.dir) && w'.files == w.files
    && (path in w.files ==> FileDecodes(decode, w, path, audio))
    && (path !in w.files ==>
      w.calls[c] == Decoded(p, path, None, audio) && c in w.readBy && decode(w.readBy[c].bytes) == Some(audio))
    && Observes(w, a, c) == Stamps(StampOf(w, path)) && w'.ledger == w.ledger
    && LoadedFrom(w, a, path.dir) && w'.cache.stamp == ManifestOf(w, path.dir).stamp
  }

  /** The section read the manifest of `dir`. */
  ghost predicate LoadedFrom(w: World, a: Action, dir: string) {
    match a
    case DoStage1(_, m) => m == ManifestOf(w, dir)
    case DoStage3(_, m) => m == ManifestOf(w, dir)
    case _ => false
  }

  lemma Stage1Answers(decode: Decoder, w: World, m: Manifest, w': World, c: nat, p: Profile, audio: Audio)
    requires Inv(decode, w) && Stage1Step(w, c, m, w') && Answered(w', c, p, audio)
    ensures AnswersFrom(decode, w, DoStage1(c, m), w', c, p, audio, Path(m.dir, p.id))
  {
    hide WithinBudget, CacheIsCoherent, Stage1, Refresh, ManifestOf;
    Stage1IsCoherent(decode, w.ledger, w.cache, m, w.calls[c].p, StampOf(w, Path(m.dir, p.id)));
  }

  lemma Stage3Answers(decode: Decoder, w: World, m: Manifest, w': World, c: nat, p: Profile, audio: Audio)
    requires Inv(decode, w) && Stage3Step(w, c, m, w') && Answered(w', c, p, audio)
    ensures c in w.calls && w.calls[c].Decoded?
    ensures AnswersFrom(decode, w, DoStage3(c, m), w', c, p, audio, w.calls[c].path)
  {
    hide WithinBudget, CacheIsCoherent, Stage3, Refresh;
    var call := w.calls[c];
    assert CallIsCoherent(decode, w, c);
    Stage3IsCoherent(decode, w.ledger, w.cache, m, call.p, call.stamp, StampOf(w, call.path), call.audio);
  }

  lemma OnlyStagesAnswer(decode: Decoder, w: World, a: Action, w': World, c: nat, p: Profile, audio: Audio)
    requires Step(decode, w, a, w') && ActsFor(a, c) && Answered(w', c, p, audio)
    ensures c in w.calls
    ensures (a.DoStage1? && Stage1Step(w, c, a.m, w')) || (a.DoStage3? && Stage3Step(w, c, a.m, w'))
  {
    hide ManifestOf, MutateStep, Authorize, Refresh, Stage1, Stage3;
  }

  /** The file a lookup in stage 3 has decoded. */
  lemma Decoding(w: World, m: Manifest, w': World, c: nat) returns (path: Path)
    requires Stage3Step(w, c, m, w')
    ensures c in w.calls && w.calls[c].Decoded? && path == w.calls[c].path
  {
    path := w.calls[c].path;
  }

  /** The step in which a lookup answers: its last lock section. */
  lemma AnswerIsCoherent(decode: Decoder, w: World, a: Action, w': World, c: nat, p: Profile, audio: Audio)
    returns (path: Path)
    requires Inv(decode, w) && Step(decode, w, a, w')
    requires !Answered(w, c, p, audio) && Answered(w', c, p, audio)
    ensures AnswersFrom(decode, w, a, w', c, p, audio, path)
  {
    hide Inv, AnswersFrom, MutateStep, Stage1Step, Stage3Step, AuthorizeStep, SizeStep, ReadStep, DecodeStep;
    if !ActsFor(a, c) { OthersLeaveItAlone(decode, w, a, w', c); }
    OnlyStagesAnswer(decode, w, a, w', c, p, audio);
    if a.DoStage1? {
      path := Path(a.m.dir, p.id);
      Stage1Answers(decode, w, a.m, w', c, p, audio);
    } else {
      path := Decoding(w, a.m, w', c);
      Stage3Answers(decode, w, a.m, w', c, p, audio);
    }
  }

  /** The lookup is past its read of `path`. */
  ghost predicate HasRead(w: World, c: nat, path: Path) {
    c in w.calls && (w.calls[c].Holding? || w.calls[c].Decoded?) && w.calls[c].path == path
  }

  lemma ReadingStep(decode: Decoder, w: World, a: Action, w': World, c: nat, path: Path)
    requires Step(decode, w, a, w') && HasRead(w', c, path)
    ensures if HasRead(w, c, path) then c in w.readBy ==> c in w'.readBy && w'.readBy[c] == w.readBy[c]
      else InProgress(w, c) && path in w.files && c in w'.readBy && w'.readBy[c] == w.files[path]
  {
    hide Step;
    if ActsFor(a, c) { OwnReadingStep(decode, w, a, w', c, path); } else { OthersLeaveItAlone(decode, w, a, w', c); }
  }

  lemma OwnReadingStep(decode: Decoder, w: World, a: Action, w': World, c: nat, path: Path)
    requires Step(decode, w, a, w') && ActsFor(a, c) && HasRead(w', c, path)
    ensures if HasRead(w, c, path) then c in w.readBy ==> c in w'.readBy && w'.readBy[c] == w.readBy[c]
      else InProgress(w, c) && path in w.files && c in w'.readBy && w'.readBy[c] == w.files[path]
  {
    hide ManifestOf, MutateStep, Authorize, Refresh, Stage1, Stage3;
  }

  /** The version a lookup holds was the file's, at an instant when the lookup was in progress. */
  lemma {:induction false} ReadWasHeld(
    decode: Decoder, run: seq<World>, actions: seq<Action>, n: nat, c: nat, path: Path) returns (k: nat)
    requires IsRun(decode, run, actions) && n <= |actions| && HasRead(run[n], c, path)
    ensures k < n && InProgress(run[k], c) && path in run[k].files
    ensures c in run[n].readBy && run[n].readBy[c] == run[k].files[path]
  {
    hide Step;
    var w, a, w' := run[n - 1], actions[n - 1], run[n];
    ReadingStep(decode, w, a, w', c, path);
    if HasRead(w, c, path) {
      k := ReadWasHeld(decode, run, actions, n - 1, c, path);
    } else {
      k := n - 1;
    }
  }

  /** Coherence: in every interleaving, a lookup that has answered did so in one lock section (step i)
      in which its profile's id, owner and reference hash were resident, and its audio is the decoding
      of bytes that store's file of the profile held at an instant (k) of the lookup. That instant is
      the answering section itself whenever the file then exists. */
  lemma {:induction false} Coherence(decode: Decoder, run: seq<World>, actions: seq<Action>, n: nat, c: nat,
                                     p: Profile, audio: Audio) returns (i: nat, k: nat, path: Path)
    requires IsRun(decode, run, actions) && n <= |actions| && Answered(run[n], c, p, audio)
    ensures k <= i < n && InProgress(run[k], c) && InProgress(run[i], c) && Answered(run[i + 1], c, p, audio)
    ensures path.id == p.id && ResidentNow(run[i + 1], p, path.dir)
    ensures FileDecodes(decode, run[k], path, audio)
    ensures path in run[i].files ==> k == i
  {
    hide Step, Inv;
    if n == 0 {
      assert false;
    } else if Answered(run[n - 1], c, p, audio) {
      i, k, path := Coherence(decode, run, actions, n - 1, c, p, audio);
    } else {
      i, k := n - 1, n - 1;
      RunKeepsInv(decode, run, actions, i);
      path := AnswerIsCoherent(decode, run[i], actions[i], run[n], c, p, audio);
      if path !in run[i].files { k := ReadWasHeld(decode, run, actions, i, c, path); }
    }
  }

  /** All stamps that lookup `c` has read in the first n steps. */
  ghost function Observed(run: seq<World>, actions: seq<Action>, n: nat, c: nat): set<Stamp>
    requires n <= |actions| < |run|
  {
    if n == 0 then {} else Observed(run, actions, n - 1, c) + Observes(run[n - 1], actions[n - 1], c)
  }

  /** The stamps a lookup has read by the time it is where it is. */
  ghost predicate HasObserved(w: World, c: nat, stamps: set<Stamp>) {
    if c !in w.calls then stamps == {}
    else
      match w.calls[c]
      case Starting(_, _) => stamps == {}
      case Authorized(_) => stamps == {}
      case Done(_) => true
      case call => stamps == Stamps(call.stamp)
  }

  lemma OthersObserveNothing(decode: Decoder, w: World, a: Action, w': World, c: nat, stamps: set<Stamp>)
    requires Step(decode, w, a, w') && !ActsFor(a, c) && HasObserved(w, c, stamps)
    ensures HasObserved(w', c, stamps) && Observes(w, a, c) == {}
  {
    hide Step, HasObserved;
    OthersLeaveItAlone(decode, w, a, w', c);
    LooksAlike(w, w', c, stamps);
  }

  lemma LooksAlike(w: World, w': World, c: nat, stamps: set<Stamp>)
    ensures (c in w.calls <==> c in w'.calls) && (c in w.calls ==> w'.calls[c] == w.calls[c]) ==>
      HasObserved(w', c, stamps) == HasObserved(w, c, stamps)
  {
  }

  lemma OwnStepObserves(decode: Decoder, w: World, a: Action, w': World, c: nat, stamps: set<Stamp>)
    requires Step(decode, w, a, w') && ActsFor(a, c) && HasObserved(w, c, stamps)
    ensures HasObserved(w', c, stamps + Observes(w, a, c))
  {
    hide ManifestOf, MutateStep, Authorize, Refresh, Stage1, Stage3;
  }

  lemma ObservingStep(decode: Decoder, w: World, a: Action, w': World, c: nat, stamps: set<Stamp>)
    requires Step(decode, w, a, w') && HasObserved(w, c, stamps)
    ensures HasObserved(w', c, stamps + Observes(w, a, c))
  {
    hide Step, HasObserved, Observes, ActsFor;
    if ActsFor(a, c) {
      OwnStepObserves(decode, w, a, w', c, stamps);
    } else {
      OthersObserveNothing(decode, w, a, w', c, stamps);
      assert stamps + {} == stamps;
    }
  }

  lemma {:induction false} LookupHasObserved(decode: Decoder, run: seq<World>, actions: seq<Action>, n: nat, c: nat)
    requires IsRun(decode, run, actions) && n <= |actions|
    ensures HasObserved(run[n], c, Observed(run, actions, n, c))
  {
    hide Step, HasObserved, Observes;
    if n == 0 {
      NothingObserved(run[0], c);
    } else {
      LookupHasObserved(decode, run, actions, n - 1, c);
      ObservingStep(decode, run[n - 1], actions[n - 1], run[n], c, Observed(run, actions, n - 1, c));
    }
  }

  lemma NothingObserved(w: World, c: nat)
    requires Init(w)
    ensures HasObserved(w, c, {})
  {
  }

  /** The stamp identifies contents that decode to `audio`. */
  ghost predicate Vouches(decode: Decoder, w: World, stamp: Stamp, audio: Audio) {
    stamp in w.ledger && decode(w.ledger[stamp]) == Some(audio)
  }

  ghost predicate OneVouches(decode: Decoder, w: World, stamps: set<Stamp>, audio: Audio) {
    exists s :: s in stamps && Vouches(decode, w, s, audio)
  }

  /** In the section that answers, some stamp the lookup has read vouches for the answer if and only if the
      file of the resident profile then exists. */
  lemma StampVouchesExactly(decode: Decoder, run: seq<World>, actions: seq<Action>, i: nat, c: nat, p: Profile,
                            audio: Audio) returns (path: Path)
    requires IsRun(decode, run, actions) && i < |actions|
    requires !Answered(run[i], c, p, audio) && Answered(run[i + 1], c, p, audio)
    ensures path.id == p.id && ResidentNow(run[i + 1], p, path.dir)
    ensures OneVouches(decode, run[i + 1], Observed(run, actions, i + 1, c), audio) <==> path in run[i].files
  {
    hide Step, Inv, Answered, HasObserved, Observes, ResidentNow;
    RunKeepsInv(decode, run, actions, i);
    path := AnswerIsCoherent(decode, run[i], actions[i], run[i + 1], c, p, audio);
    LookupHasObserved(decode, run, actions, i, c);
    if path in run[i].files {
      FileStampVouches(decode, run[i], path, audio);
      assert run[i].files[path].stamp in Observed(run, actions, i + 1, c);
    } else {
      NoStampObserved(run[i], c, p, path, audio, Observed(run, actions, i, c));
      assert Observed(run, actions, i + 1, c) == {};
    }
  }

  lemma FileStampVouches(decode: Decoder, w: World, path: Path, audio: Audio)
    requires Inv(decode, w) && FileDecodes(decode, w, path, audio)
    ensures Vouches(decode, w, w.files[path].stamp, audio)
  {
  }

  lemma NoStampObserved(w: World, c: nat, p: Profile, path: Path, audio: Audio, stamps: set<Stamp>)
    requires c in w.calls && w.calls[c] == Decoded(p, path, None, audio) && HasObserved(w, c, stamps)
    ensures stamps == {}
  {
  }

  ghost predicate NotResident(w: World, id: string) {
    w.cache.store.Some? ==> id !in w.cache.store.value
  }

  ghost predicate NoEntries(w: World, id: string) {
    forall e :: e in w.cache.references ==> e.key.id != id
  }

  lemma ProbeKeepsEntries(d: Deque, key: Key, stamp: Option<Stamp>)
    ensures forall e :: e in ProbeStep(d, key, stamp).0 ==> e in d
  {
  }

  /** A section adds entries only for a profile that is resident when it ends. */
  lemma StepKeepsNoEntries(decode: Decoder, w: World, a: Action, w': World, id: string)
    requires Step(decode, w, a, w') && NoEntries(w, id) && NotResident(w', id)
    ensures NoEntries(w', id)
  {
    hide ManifestOf, MutateStep, ProbeStep, PublishStep;
    if a.MutateStore? { MutateEffect(w, a.m, a.change, a.saved, w'); }
    match a
    case PurgeProfile(k) => PurgeFilters(w.cache.references, k);
    case DoStage1(c, m) =>
      if Refresh(w.cache, m).Ok? {
        var p := w.calls[c].p;
        ProbeKeepsEntries(Refresh(w.cache, m).value.references, KeyOf(p), StampOf(w, Path(m.dir, p.id)));
      }
    case DoStage3(c, m) =>
      if Refresh(w.cache, m).Ok? {
        var d := Refresh(w.cache, m).value.references;
        ProbeKeepsEntries(d, KeyOf(w.calls[c].p), w.calls[c].stamp);
        PublishKeepsOthers(d, KeyOf(w.calls[c].p), w.calls[c].stamp, w.calls[c].audio);
      }
    case _ =>
  }

  lemma PublishKeepsOthers(d: Deque, key: Key, stamp: Option<Stamp>, audio: Audio)
    ensures forall e :: e in PublishStep(d, key, stamp, audio) ==> e in d || e.key == key
  {
    EvictedIsSubset(d, Size(audio));
    WithoutFilters(Evict(d, Size(audio)), key);
  }

  /** Deletion is final: after the purge, and while the profile stays out of the resident store, no
      lookup, however late, puts its audio back in the cache. */
  lemma {:induction false} PurgeIsFinal(
    decode: Decoder, run: seq<World>, actions: seq<Action>, i: nat, n: nat, id: string)
    requires IsRun(decode, run, actions) && i < n <= |actions| && actions[i] == PurgeProfile(id)
    requires forall j :: i < j <= n ==> NotResident(run[j], id)
    ensures NoEntries(run[n], id)
    decreases n
  {
    hide Step, NotResident;
    if n == i + 1 {
      PurgeLeavesNone(decode, run[i], run[n], id);
    } else {
      PurgeIsFinal(decode, run, actions, i, n - 1, id);
      StepKeepsNoEntries(decode, run[n - 1], actions[n - 1], run[n], id);
    }
  }

  lemma PurgeLeavesNone(decode: Decoder, w: World, w': World, id: string)
    requires Step(decode, w, PurgeProfile(id), w')
    ensures NoEntries(w', id)
  {
    PurgeFilters(w.cache.references, id);
  }

  /** The profile a lookup carries once authorised. */
  ghost predicate Carries(call: Call, p: Profile) {
    match call
    case Starting(_, _) => false
    case Done(outcome) => outcome.Ok? && outcome.value.0 == p
    case _ => call.p == p
  }

  lemma CarryingStep(decode: Decoder, w: World, a: Action, w': World, c: nat, p: Profile)
    requires Step(decode, w, a, w') && c in w'.calls && Carries(w'.calls[c], p)
    ensures c in w.calls
    ensures Carries(w.calls[c], p) || (w.calls[c].Starting? && p.owner == Some(w.calls[c].owner))
  {
    hide Step, Carries;
    if ActsFor(a, c) { OwnCarryingStep(decode, w, a, w', c, p); } else { OthersLeaveItAlone(decode, w, a, w', c); }
  }

  lemma OwnCarryingStep(decode: Decoder, w: World, a: Action, w': World, c: nat, p: Profile)
    requires Step(decode, w, a, w') && ActsFor(a, c) && c in w'.calls && Carries(w'.calls[c], p)
    ensures c in w.calls
    ensures Carries(w.calls[c], p) || (w.calls[c].Starting? && p.owner == Some(w.calls[c].owner))
  {
    hide ManifestOf, MutateStep, Refresh, Stage1, Stage3, ProbeStep, PublishStep;
  }

  /** A lookup that answers was asked for by the owner of the profile it answers with. */
  lemma {:induction false} AnswerBelongsToCaller(
    decode: Decoder, run: seq<World>, actions: seq<Action>, n: nat, c: nat, p: Profile) returns (m: nat)
    requires IsRun(decode, run, actions) && n <= |actions| && c in run[n].calls && Carries(run[n].calls[c], p)
    ensures m < n && c in run[m].calls && run[m].calls[c].Starting? && p.owner == Some(run[m].calls[c].owner)
  {
    hide Step;
    var w, a, w' := run[n - 1], actions[n - 1], run[n];
    CarryingStep(decode, w, a, w', c, p);
    if Carries(w.calls[c], p) {
      m := AnswerBelongsToCaller(decode, run, actions, n - 1, c, p);
    } else {
      m := n - 1;
    }
  }

  /** A lookup whose file is absent when it begins and when it ends, and present only while it is read. */
  ghost function Scene(p: Profile, owner: string, v: Version, audio: Audio, k: nat): World {
    var path := Path("", p.id);
    var stored := Cache("", Some(map[p.id := p]), Some([0]), []);
    var calls: map<nat, Call> := if k == 0 then map[] else map[0 :=
      match k
      case 1 => Starting(p.id, owner)
      case 2 => Authorized(p)
      case 3 => Missed(p, path, None)
      case 4 => Missed(p, path, None)
      case 5 => Sized(p, path, None)
      case 6 => Holding(p, path, None, v.bytes)
      case 7 => Holding(p, path, None, v.bytes)
      case 8 => Decoded(p, path, None, audio)
      case _ => Done(Ok((p, audio)))];
    World(if 4 <= k <= 6 then map[path := v] else map[], if k >= 4 then map[v.stamp := v.bytes] else map[],
          if k <= 1 then EMPTY_CACHE
          else if k <= 8 then stored
          else stored.(references := PublishStep([], KeyOf(p), None, audio)),
          calls, if k >= 6 then map[0 := v] else map[],
          map["" := OnDisk([0], Some(map[p.id := p]))], map[[0] := Some(map[p.id := p])])
  }

  ghost function SceneAction(p: Profile, owner: string, v: Version, k: nat): Action {
    var m := Manifest("", Some([0]), Some(map[p.id := p]));
    match k
    case 0 => Begin(0, p.id, owner)
    case 1 => DoAuthorize(0, m, Some([0]))
    case 2 => DoStage1(0, m)
    case 3 => WriteFile(Path("", p.id), v)
    case 4 => CheckSize(0)
    case 5 => ReadFile(0)
    case 6 => RemoveFile(Path("", p.id))
    case 7 => Decode(0)
    case _ => DoStage3(0, m)
  }

  lemma SceneBegins(decode: Decoder, p: Profile, owner: string, v: Version, audio: Audio, k: nat)
    requires p.owner == Some(owner) && k <= 3
    ensures Step(decode, Scene(p, owner, v, audio, k), SceneAction(p, owner, v, k), Scene(p, owner, v, audio, k + 1))
  {
    hide MutateStep, PublishStep;
  }

  lemma SceneGoesOn(decode: Decoder, p: Profile, owner: string, v: Version, audio: Audio, k: nat)
    requires decode(v.bytes) == Some(audio) && |v.bytes| <= MAX_STORED_REFERENCE_BYTES && 4 <= k <= 7
    ensures Step(decode, Scene(p, owner, v, audio, k), SceneAction(p, owner, v, k), Scene(p, owner, v, audio, k + 1))
  {
    hide MutateStep, PublishStep, AuthorizeStep, Stage1Step, Stage3Step;
    if k == 6 { assert map[Path("", p.id) := v] - {Path("", p.id)} == map[]; }
  }

  lemma SceneEnds(decode: Decoder, p: Profile, owner: string, v: Version, audio: Audio)
    ensures Step(decode, Scene(p, owner, v, audio, 8), SceneAction(p, owner, v, 8), Scene(p, owner, v, audio, 9))
  {
    hide MutateStep, PublishStep, AuthorizeStep, Stage1Step;
  }

  /** The one case in which no stamp vouches for the answer is reachable: a file that exists only
      between the two stamp readings is served all the same. */
  lemma VanishedFileIsStillServed(decode: Decoder, p: Profile, owner: string, v: Version, audio: Audio)
    returns (run: seq<World>, actions: seq<Action>)
    requires p.owner == Some(owner) && decode(v.bytes) == Some(audio) && |v.bytes| <= MAX_STORED_REFERENCE_BYTES
    ensures IsRun(decode, run, actions) && |actions| == 9 && InProgress(run[8], 0) && Answered(run[9], 0, p, audio)
    ensures forall k :: 0 <= k <= 9 && !(4 <= k <= 6) ==> Path("", p.id) !in run[k].files
  {
    hide Step, PublishStep;
    run := seq(10, k requires 0 <= k => Scene(p, owner, v, audio, k));
    actions := seq(9, k requires 0 <= k => SceneAction(p, owner, v, k));
    forall k | 0 <= k < 9 ensures Step(decode, run[k], actions[k], run[k + 1]) {
      if k <= 3 {
        SceneBegins(decode, p, owner, v, audio, k);
      } else if k <= 7 {
        SceneGoesOn(decode, p, owner, v, audio, k);
      } else {
        SceneEnds(decode, p, owner, v, audio);
      }
    }
  }
}
