/**
 The bearer-token store: every mutation builds a candidate map, persists it through a temporary
 file and a rename, and only then swaps it into memory.

 `TokenStore` is the program over a `Disk` whose write or rename may fail. `Step` is what one
 operation may do to memory and disk, and the theorems are about whole runs of it, restarts and
 crashes included.
 */
module TokenStore {
  import opened Common

  datatype Token = Token(id: string, hash: string, createdAt: real, expiresAt: Option<real>, revoked: bool)

  function IsValid(t: Token, now: real): bool {
    !t.revoked && (t.expiresAt.Some? ==> now < t.expiresAt.value)
  }

  /** The store file: serialization is a list of records, in the order the map yielded them. */
  datatype File = Missing | Unreadable | Malformed | Records(list: seq<Token>)

  datatype LoadError =
    | CannotRead
    | CannotParse
    | InvalidRecord(id: string)
    | DuplicateId(id: string)
    | DuplicateHash(id: string)
    | CannotWrite

  datatype Result<+T> = Ok(value: T) | Err(error: LoadError)

  type Tokens = map<string, Token>

  predicate IsLowerHex(c: char) { '0' <= c <= '9' || 'a' <= c <= 'f' }

  /** The length of a string in bytes, as it is stored. */
  function Utf8Length(s: string): nat {
    if s == [] then 0
    else
      var c := s[|s| - 1] as int;
      Utf8Length(s[..|s| - 1]) + if c < 0x80 then 1 else if c < 0x800 then 2 else if c < 0x1_0000 then 3 else 4
  }

  /** Lengths count bytes; sixty-four hexadecimal digits are as many bytes. */
  predicate ValidRecord(t: Token) {
    0 < Utf8Length(t.id) <= 128 && |t.hash| == 64 && forall i :: 0 <= i < 64 ==> IsLowerHex(t.hash[i])
  }

  // ------------------------------------------------------------------ loading

  ghost function Ids(list: seq<Token>, n: nat): set<string>
    requires n <= |list|
  {
    set i | 0 <= i < n :: list[i].id
  }

  ghost function Hashes(list: seq<Token>, n: nat): set<string>
    requires n <= |list|
  {
    set i | 0 <= i < n :: list[i].hash
  }

  /** The outcome of the load loop after the first n records. */
  ghost function LoadPrefix(list: seq<Token>, n: nat): Result<Tokens>
    requires n <= |list|
  {
    if n == 0 then Ok(map[])
    else
      match LoadPrefix(list, n - 1)
      case Err(e) => Err(e)
      case Ok(tokens) =>
        var t := list[n - 1];
        if !ValidRecord(t) then Err(InvalidRecord(t.id))
        else if t.id in Ids(list, n - 1) then Err(DuplicateId(t.id))
        else if t.hash in tokens then Err(DuplicateHash(t.id))
        else Ok(tokens[t.hash := t])
  }

  ghost function Load(list: seq<Token>): Result<Tokens> { LoadPrefix(list, |list|) }

  ghost predicate Keyed(tokens: Tokens) {
    forall h :: h in tokens ==> tokens[h].hash == h && ValidRecord(tokens[h])
  }

  ghost predicate DistinctIds(tokens: Tokens) {
    forall g, h :: g in tokens && h in tokens && tokens[g].id == tokens[h].id ==> g == h
  }

  ghost predicate WellFormed(tokens: Tokens) { Keyed(tokens) && DistinctIds(tokens) }

  /** The first n records of `list` are records of `tokens`, no two with the same hash. */
  ghost predicate Lists(list: seq<Token>, n: nat, tokens: Tokens)
    requires n <= |list|
  {
    && (forall i :: 0 <= i < n ==> list[i].hash in tokens && tokens[list[i].hash] == list[i])
    && (forall i, j :: 0 <= i < j < n ==> list[i].hash != list[j].hash)
  }

  /** `list` holds exactly the records of `tokens`, each once, in any order. */
  ghost predicate Enumerates(list: seq<Token>, tokens: Tokens) {
    Lists(list, |list|, tokens) && Hashes(list, |list|) == tokens.Keys
  }

  /** One more record keeps the loaded map well formed when its identifier and hash are new. */
  lemma ExtendsWell(list: seq<Token>, n: nat, before: Tokens)
    requires 0 < n <= |list| && WellFormed(before) && Lists(list, n - 1, before) && Hashes(list, n - 1) == before.Keys
    requires ValidRecord(list[n - 1]) && list[n - 1].id !in Ids(list, n - 1) && list[n - 1].hash !in before
    ensures var tokens := before[list[n - 1].hash := list[n - 1]];
      WellFormed(tokens) && Lists(list, n, tokens) && Hashes(list, n) == tokens.Keys
  {
    hide ValidRecord;
    forall h | h in before ensures before[h].id in Ids(list, n - 1) {
      assert h in Hashes(list, n - 1);
      var i :| 0 <= i < n - 1 && list[i].hash == h;
    }
    assert Hashes(list, n) == Hashes(list, n - 1) + {list[n - 1].hash};
  }

  lemma {:induction false} LoadedIsWellFormed(list: seq<Token>, n: nat)
    requires n <= |list| && LoadPrefix(list, n).Ok?
    ensures var tokens := LoadPrefix(list, n).value;
      && WellFormed(tokens) && Lists(list, n, tokens) && Hashes(list, n) == tokens.Keys
  {
    if n > 0 {
      hide ValidRecord, WellFormed, Lists, Hashes, Ids;
      LoadedIsWellFormed(list, n - 1);
      ExtendsWell(list, n, LoadPrefix(list, n - 1).value);
    }
  }

  lemma {:induction false} EnumerationLoads(list: seq<Token>, n: nat, tokens: Tokens)
    requires n <= |list| && WellFormed(tokens) && Lists(list, |list|, tokens)
    ensures LoadPrefix(list, n).Ok? && LoadPrefix(list, n).value.Keys == Hashes(list, n)
    ensures forall h :: h in LoadPrefix(list, n).value ==> h in tokens && LoadPrefix(list, n).value[h] == tokens[h]
  {
    hide ValidRecord;
    if n > 0 {
      EnumerationLoads(list, n - 1, tokens);
      var t := list[n - 1];
      forall i | 0 <= i < n - 1 ensures list[i].id != t.id {
        assert tokens[list[i].hash] == list[i] && tokens[t.hash] == t && list[i].hash != t.hash;
      }
      assert t.hash !in Hashes(list, n - 1);
      assert Hashes(list, n) == Hashes(list, n - 1) + {t.hash};
    }
  }

  /** Round trip: a list loads as `tokens` exactly when it enumerates them and they are well formed,
      so what is read back does not depend on the order in which the map was written. */
  lemma LoadReadsBack(list: seq<Token>, tokens: Tokens)
    ensures Load(list) == Ok(tokens) <==> WellFormed(tokens) && Enumerates(list, tokens)
  {
    hide WellFormed, Lists, Hashes, LoadPrefix;
    if Load(list) == Ok(tokens) { LoadedIsWellFormed(list, |list|); }
    if WellFormed(tokens) && Enumerates(list, tokens) {
      EnumerationLoads(list, |list|, tokens);
      assert LoadPrefix(list, |list|).value == tokens;
    }
  }

  lemma HashesGrow(list: seq<Token>, t: Token)
    ensures Hashes(list + [t], |list| + 1) == Hashes(list, |list|) + {t.hash}
  {
    var longer := list + [t];
    forall h | h in Hashes(list, |list|) ensures h in Hashes(longer, |longer|) {
      var i :| 0 <= i < |list| && list[i].hash == h;
      assert longer[i].hash == h;
    }
    assert longer[|list|].hash == t.hash;
  }

  // ------------------------------------------------------------------ operations

  datatype Fault = NoFault | WriteFails(partial: File) | RenameFails

  /** The main file and the temporary beside it. */
  class Disk {
    var main: File
    var temp: File

    constructor (main: File, temp: File)
      ensures this.main == main && this.temp == temp
    {
      this.main := main;
      this.temp := temp;
    }
  }

  function RevokeIn(tokens: Tokens, id: string): Tokens {
    map h | h in tokens :: if tokens[h].id == id then tokens[h].(revoked := true) else tokens[h]
  }

  predicate Accepts(tokens: Tokens, hash: string, now: real) {
    hash in tokens && IsValid(tokens[hash], now)
  }

  ghost predicate Known(tokens: Tokens, id: string) {
    exists h :: h in tokens && tokens[h].id == id
  }

  /** The two assumptions on a generated token: its id and its hash are new. */
  ghost predicate IsFresh(tokens: Tokens, t: Token) {
    ValidRecord(t) && !t.revoked && t.hash !in tokens && !Known(tokens, t.id)
  }

  class TokenStore {
    var tokens: Tokens
    const path: string
    const disk: Disk

    ghost predicate Valid()
      reads this, disk
    {
      && WellFormed(tokens)
      && (path != "" ==> disk.main.Records? && Load(disk.main.list) == Ok(tokens))
    }

    ghost function State(): Vault
      reads this, disk
    {
      Vault(tokens, disk.main)
    }

    constructor (path: string, disk: Disk, tokens: Tokens)
      ensures this.path == path && this.disk == disk && this.tokens == tokens
    {
      this.path := path;
      this.disk := disk;
      this.tokens := tokens;
    }

    /** Every failure other than a missing file is a hard error; a missing file is initialised empty. */
    static method LoadFrom(path: string, disk: Disk, fault: Fault) returns (r: Result<TokenStore>)
      modifies disk
      ensures r.Ok? ==> r.value.Valid() && fresh(r.value) && r.value.path == path && r.value.disk == disk
      ensures path != "" && old(disk.main).Records? ==>
                && disk.main == old(disk.main)
                && (match Load(disk.main.list)
                    case Ok(tokens) => r.Ok? && r.value.tokens == tokens
                    case Err(e) => r == Err(e))
      ensures path == "" || old(disk.main).Missing? ==>
                if path == "" || fault.NoFault? then r.Ok? && r.value.tokens == map[] else r == Err(CannotWrite)
      ensures r.Err? || path == "" ==> disk.main == old(disk.main)
      ensures path != "" && old(disk.main).Unreadable? ==> r == Err(CannotRead)
      ensures path != "" && old(disk.main).Malformed? ==> r == Err(CannotParse)
    {
      if path == "" || disk.main.Missing? {
        var ok := Persist(path, disk, map[], fault);
        if !ok { return Err(CannotWrite); }
        var store := new TokenStore(path, disk, map[]);
        return Ok(store);
      }
      match disk.main
      case Unreadable => return Err(CannotRead);
      case Malformed => return Err(CannotParse);
      case Records(list) =>
        var loaded := ReadRecords(list);
        match loaded
        case Err(e) => return Err(e);
        case Ok(tokens) =>
          LoadedIsWellFormed(list, |list|);
          var store := new TokenStore(path, disk, tokens);
          return Ok(store);
    }

    /** The load loop: validate each record, and refuse a repeated id or hash. */
    static method ReadRecords(list: seq<Token>) returns (r: Result<Tokens>)
      ensures r == Load(list)
    {
      hide ValidRecord;
      var tokens: Tokens := map[];
      var seenIds: set<string> := {};
      var i := 0;
      while i < |list|
        invariant 0 <= i <= |list|
        invariant LoadPrefix(list, i) == Ok(tokens)
        invariant seenIds == Ids(list, i)
      {
        var t := list[i];
        if LoadPrefix(list, i + 1).Err? { LoadStops(list, i + 1); }
        if !ValidRecord(t) { return Err(InvalidRecord(t.id)); }
        if t.id in seenIds { return Err(DuplicateId(t.id)); }
        seenIds := seenIds + {t.id};
        if t.hash in tokens { return Err(DuplicateHash(t.id)); }
        tokens := tokens[t.hash := t];
        i := i + 1;
      }
      return Ok(tokens);
    }

    /** `values().collect()`: the map's values in the map's own order. */
    static method Values(tokens: Tokens) returns (list: seq<Token>)
      requires WellFormed(tokens)
      ensures Enumerates(list, tokens)
    {
      hide ValidRecord, DistinctIds;
      list := [];
      var rest := tokens.Keys;
      while rest != {}
        invariant rest <= tokens.Keys
        invariant Lists(list, |list|, tokens) && Hashes(list, |list|) == tokens.Keys - rest
        decreases rest
      {
        var h :| h in rest;
        assert forall i :: 0 <= i < |list| ==> list[i].hash in Hashes(list, |list|);
        HashesGrow(list, tokens[h]);
        list := list + [tokens[h]];
        rest := rest - {h};
      }
    }

    /** Write the temporary, then rename it over the store; an empty path saves nothing. */
    static method Persist(path: string, disk: Disk, tokens: Tokens, fault: Fault) returns (ok: bool)
      requires WellFormed(tokens)
      modifies disk
      ensures ok == (path == "" || fault.NoFault?)
      ensures !ok || path == "" ==> disk.main == old(disk.main)
      ensures ok && path != "" ==> disk.main.Records? && Enumerates(disk.main.list, tokens)
                                   && Load(disk.main.list) == Ok(tokens) && disk.temp.Missing?
      ensures path == "" ==> disk.temp == old(disk.temp)
    {
      if path == "" { return true; }
      var list := Values(tokens);
      LoadReadsBack(list, tokens);
      if fault.WriteFails? {
        disk.temp := fault.partial;
        return false;
      }
      disk.temp := Records(list);
      if fault.RenameFails? { return false; }
      disk.main, disk.temp := disk.temp, Missing;
      return true;
    }

    method Create(t: Token, fault: Fault) returns (ok: bool)
      requires Valid() && IsFresh(tokens, t)
      modifies this, disk
      ensures Valid()
      ensures ok == (path == "" || fault.NoFault?)
      ensures tokens == if ok then old(tokens)[t.hash := t] else old(tokens)
      ensures !ok || path == "" ==> disk.main == old(disk.main)
      ensures path != "" ==> Step(old(State()), Apply(Add(t), fault), State())
    {
      var candidate := tokens[t.hash := t];
      FreshKeepsWellFormed(tokens, t);
      ok := Persist(path, disk, candidate, fault);
      if !ok { return; }
      tokens := candidate;
    }

    /** The first record with this id in iteration order, if any. */
    method Find(id: string) returns (found: Option<string>)
      requires Valid()
      ensures found.Some? ==> found.value in tokens && tokens[found.value].id == id
      ensures found.None? ==> !Known(tokens, id)
    {
      var rest := tokens.Keys;
      while rest != {}
        invariant rest <= tokens.Keys
        invariant forall h :: h in tokens.Keys - rest ==> tokens[h].id != id
        decreases rest
      {
        var h :| h in rest;
        if tokens[h].id == id { return Some(h); }
        rest := rest - {h};
      }
      return None;
    }

    /** Some(true): revoked. Some(false): no such token. None: the store could not be persisted. */
    method Revoke(id: string, fault: Fault) returns (r: Option<bool>)
      requires Valid()
      modifies this, disk
      ensures Valid()
      ensures r == if !Known(old(tokens), id) then Some(false)
                   else if path == "" || fault.NoFault? then Some(true) else None
      ensures tokens == if r == Some(true) then RevokeIn(old(tokens), id) else old(tokens)
      ensures r != Some(true) || path == "" ==> disk.main == old(disk.main)
      ensures path != "" ==> Step(old(State()), Apply(Cancel(id), fault), State())
    {
      var found := Find(id);
      if found.None? { return Some(false); }
      var hash := found.value;
      assert Known(tokens, id);
      var candidate := tokens[hash := tokens[hash].(revoked := true)];
      assert candidate == RevokeIn(tokens, id);
      RevokeKeepsWellFormed(tokens, id);
      var ok := Persist(path, disk, candidate, fault);
      if !ok { return None; }
      tokens := candidate;
      return Some(true);
    }

    /** The full scan: every stored hash is compared, so the loop never stops early. */
    method Validate(candidateHash: string, now: real) returns (matchedValid: bool)
      requires Valid()
      ensures matchedValid == Accepts(tokens, candidateHash, now)
    {
      matchedValid := false;
      var rest := tokens.Keys;
      while rest != {}
        invariant rest <= tokens.Keys
        invariant matchedValid == (candidateHash in tokens.Keys - rest && IsValid(tokens[candidateHash], now))
        decreases rest
      {
        var h :| h in rest;
        var token := tokens[h];
        if token.hash == candidateHash && IsValid(token, now) { matchedValid := true; }
        rest := rest - {h};
      }
    }
  }

  /** The first error decides the load. */
  lemma {:induction false} LoadStops(list: seq<Token>, n: nat)
    requires n <= |list| && LoadPrefix(list, n).Err?
    ensures Load(list) == LoadPrefix(list, n)
    decreases |list| - n
  {
    if n < |list| { LoadStops(list, n + 1); }
  }

  lemma FreshKeepsWellFormed(tokens: Tokens, t: Token)
    requires WellFormed(tokens) && IsFresh(tokens, t)
    ensures WellFormed(tokens[t.hash := t])
  {
  }

  lemma RevokeKeepsWellFormed(tokens: Tokens, id: string)
    requires WellFormed(tokens)
    ensures WellFormed(RevokeIn(tokens, id))
  {
  }

  // ------------------------------------------------------------------ runs

  /** Memory and the main file. */
  datatype Vault = Vault(live: Tokens, disk: File)

  datatype Change = Add(t: Token) | Cancel(id: string)

  /** A mutation that completes or fails, a restart, or a crash inside a mutation followed by one. */
  datatype Op = Apply(change: Change, fault: Fault) | Restart | Crash(change: Change, renamed: bool)

  ghost function Candidate(live: Tokens, change: Change): Tokens {
    match change
    case Add(t) => live[t.hash := t]
    case Cancel(id) => RevokeIn(live, id)
  }

  ghost predicate Saved(v: Vault, tokens: Tokens) {
    v.live == tokens && v.disk.Records? && Enumerates(v.disk.list, tokens)
  }

  ghost predicate Reloaded(v: Vault, v': Vault) {
    v.disk.Records? && Load(v.disk.list) == Ok(v'.live) && v'.disk == v.disk
  }

  ghost predicate Step(v: Vault, op: Op, v': Vault) {
    match op
    case Apply(change, fault) =>
      && (change.Add? ==> IsFresh(v.live, change.t))
      && (if change.Cancel? && !Known(v.live, change.id) then v' == v
          else if fault.NoFault? then Saved(v', Candidate(v.live, change))
          else v' == v)
    case Restart => Reloaded(v, v')
    case Crash(change, renamed) =>
      && (change.Add? ==> IsFresh(v.live, change.t))
      && exists saved: Vault :: Reloaded(saved, v')
           && if renamed then saved.disk.Records? && Enumerates(saved.disk.list, Candidate(v.live, change))
              else saved == v
  }

  /** Memory is what a restart would read. */
  ghost predicate MemoryIsDisk(v: Vault) {
    WellFormed(v.live) && v.disk.Records? && Load(v.disk.list) == Ok(v.live)
  }

  lemma CandidateIsWellFormed(live: Tokens, change: Change)
    requires WellFormed(live) && (change.Add? ==> IsFresh(live, change.t))
    ensures WellFormed(Candidate(live, change))
  {
    match change
    case Add(t) => FreshKeepsWellFormed(live, t);
    case Cancel(id) => RevokeKeepsWellFormed(live, id);
  }

  /** One operation leaves memory equal to disk, and either changes nothing or applies its change. */
  lemma StepKeepsMemoryOnDisk(v: Vault, op: Op, v': Vault)
    requires MemoryIsDisk(v) && Step(v, op, v')
    ensures MemoryIsDisk(v')
    ensures v'.live == v.live || (!op.Restart? && v'.live == Candidate(v.live, op.change))
  {
    hide Enumerates, Load, IsFresh, Known, RevokeIn, WellFormed, Candidate;
    if !op.Restart? {
      var c := Candidate(v.live, op.change);
      CandidateIsWellFormed(v.live, op.change);
      if v'.disk.Records? { LoadReadsBack(v'.disk.list, c); }
      if op.Crash? {
        var saved: Vault :| Reloaded(saved, v')
          && if op.renamed then saved.disk.Records? && Enumerates(saved.disk.list, c) else saved == v;
      }
    }
  }

  ghost predicate IsRun(run: seq<Vault>, ops: seq<Op>) {
    && |run| == |ops| + 1 && MemoryIsDisk(run[0])
    && forall i :: 0 <= i < |ops| ==> Step(run[i], ops[i], run[i + 1])
  }

  /** Memory equals disk at every point of every run, and no restart can fail. */
  lemma {:induction false} MemoryAlwaysEqualsDisk(run: seq<Vault>, ops: seq<Op>, n: nat)
    requires IsRun(run, ops) && n <= |ops|
    ensures MemoryIsDisk(run[n]) && exists v :: Step(run[n], Restart, v)
  {
    hide MemoryIsDisk, Step;
    if n > 0 {
      MemoryAlwaysEqualsDisk(run, ops, n - 1);
      StepKeepsMemoryOnDisk(run[n - 1], ops[n - 1], run[n]);
    }
    RestartIsPossible(run[n]);
  }

  lemma RestartIsPossible(v: Vault)
    requires MemoryIsDisk(v)
    ensures Step(v, Restart, v)
  {
  }

  ghost predicate IsRevoked(tokens: Tokens, hash: string) {
    hash in tokens && tokens[hash].revoked
  }

  lemma {:induction false} RevokedStays(run: seq<Vault>, ops: seq<Op>, from: nat, end: nat, hash: string)
    requires IsRun(run, ops) && from <= end <= |ops| && IsRevoked(run[from].live, hash)
    ensures IsRevoked(run[end].live, hash)
    decreases end
  {
    hide Step, MemoryIsDisk, WellFormed;
    if from < end {
      RevokedStays(run, ops, from, end - 1, hash);
      MemoryAlwaysEqualsDisk(run, ops, end - 1);
      StepKeepsMemoryOnDisk(run[end - 1], ops[end - 1], run[end]);
      if !ops[end - 1].Restart? && ops[end - 1].change.Add? { FreshOfStep(run[end - 1], ops[end - 1], run[end]); }
    }
  }

  lemma FreshOfStep(v: Vault, op: Op, v': Vault)
    requires Step(v, op, v') && !op.Restart? && op.change.Add?
    ensures op.change.t.hash !in v.live
  {
  }

  /** Revocation is permanent: once `revoke` has succeeded, the token is rejected in every later
      state of every run, at any time, through restarts and crashes. */
  lemma RevocationIsPermanent(run: seq<Vault>, ops: seq<Op>, i: nat, j: nat, hash: string, now: real)
    requires IsRun(run, ops) && i < j <= |ops|
    requires hash in run[i].live && ops[i] == Apply(Cancel(run[i].live[hash].id), NoFault)
    ensures !Accepts(run[j].live, hash, now)
  {
    RevokedStays(run, ops, i + 1, j, hash);
  }

  /** A change concerns a hash when it adds it or cancels its token's id. */
  ghost predicate Concerns(change: Change, live: Tokens, hash: string) {
    match change
    case Add(t) => t.hash == hash
    case Cancel(id) => hash in live && live[hash].id == id
  }

  /** Mutations are exact: no step, failing or crashing included, changes the outcome of `validate`
      for a hash its change does not concern. */
  lemma OtherTokensKeepTheirOutcome(v: Vault, op: Op, v': Vault, hash: string, now: real)
    requires MemoryIsDisk(v) && Step(v, op, v')
    requires op.Restart? || !Concerns(op.change, v.live, hash)
    ensures Accepts(v'.live, hash, now) == Accepts(v.live, hash, now)
    ensures hash in v.live ==> hash in v'.live && v'.live[hash] == v.live[hash]
  {
    hide WellFormed, Load, Step;
    StepKeepsMemoryOnDisk(v, op, v');
  }

  // ------------------------------------------------------------------ what `validate` answers over a run

  /** The operation revokes `id` for good: it succeeds, or crashes after the rename. */
  predicate Revokes(op: Op, id: string) {
    match op
    case Apply(change, fault) => change == Cancel(id) && fault.NoFault?
    case Crash(change, renamed) => change == Cancel(id) && renamed
    case Restart => false
  }

  /** `t` is stored as it was created, but for its revocation. */
  ghost predicate Stored(tokens: Tokens, t: Token, revoked: bool) {
    t.hash in tokens && tokens[t.hash] == t.(revoked := revoked)
  }

  /** One operation on a stored token: revoked exactly if it was, or the operation revokes it. */
  lemma StoredStep(v: Vault, op: Op, v': Vault, t: Token, revoked: bool)
    requires MemoryIsDisk(v) && Step(v, op, v') && Stored(v.live, t, revoked)
    ensures Stored(v'.live, t, revoked || Revokes(op, t.id))
  {
    hide MemoryIsDisk, Step, WellFormed;
    EveryStepIsTold(v, op, v');
    if !op.Restart? && op.change.Add? { FreshOfStep(v, op, v'); }
  }

  /** Whether an operation applies its change is told by its outcome. */
  lemma EveryStepIsTold(v: Vault, op: Op, v': Vault)
    requires MemoryIsDisk(v) && Step(v, op, v')
    ensures v'.live ==
      match op
      case Apply(change, fault) => if fault.NoFault? then Candidate(v.live, change) else v.live
      case Crash(change, renamed) => if renamed then Candidate(v.live, change) else v.live
      case Restart => v.live
  {
    hide Enumerates, Load, IsFresh, WellFormed, Candidate;
    if !op.Restart? {
      var c := Candidate(v.live, op.change);
      CandidateIsWellFormed(v.live, op.change);
      UnknownChangesNothing(v.live, op.change);
      if op.Crash? {
        var saved: Vault :| Reloaded(saved, v')
          && if op.renamed then saved.disk.Records? && Enumerates(saved.disk.list, c) else saved == v;
        if saved.disk.Records? { LoadReadsBack(saved.disk.list, c); }
      }
    }
  }

  lemma UnknownChangesNothing(live: Tokens, change: Change)
    ensures change.Cancel? && !Known(live, change.id) ==> Candidate(live, change) == live
  {
    if change.Cancel? && !Known(live, change.id) {
      forall h | h in live ensures live[h].id != change.id {
        assert !(h in live && live[h].id == change.id);
      }
    }
  }

  ghost predicate RevokedBetween(ops: seq<Op>, i: nat, j: nat, id: string)
    requires j <= |ops|
  {
    exists k :: i < k < j && Revokes(ops[k], id)
  }

  lemma {:induction false} CreatedTokenIsStored(run: seq<Vault>, ops: seq<Op>, i: nat, j: nat, t: Token)
    requires IsRun(run, ops) && i < j <= |ops| && ops[i] == Apply(Add(t), NoFault)
    ensures Stored(run[j].live, t, RevokedBetween(ops, i, j, t.id)) && !t.revoked
    decreases j
  {
    hide MemoryIsDisk, Step;
    if j == i + 1 {
      MemoryAlwaysEqualsDisk(run, ops, i);
      EveryStepIsTold(run[i], ops[i], run[j]);
      CreatedIsLive(run[i], t, run[j]);
    } else {
      CreatedTokenIsStored(run, ops, i, j - 1, t);
      MemoryAlwaysEqualsDisk(run, ops, j - 1);
      StoredStep(run[j - 1], ops[j - 1], run[j], t, RevokedBetween(ops, i, j - 1, t.id));
      assert RevokedBetween(ops, i, j, t.id) <==> RevokedBetween(ops, i, j - 1, t.id) || Revokes(ops[j - 1], t.id);
    }
  }

  lemma CreatedIsLive(v: Vault, t: Token, v': Vault)
    requires Step(v, Apply(Add(t), NoFault), v')
    ensures !t.revoked
  {
  }

  /** From its creation on, through failures, restarts and crashes, a token is accepted at `now` if and only
      if it has not been revoked and either never expires or expires later than `now`. */
  lemma AcceptanceIsExact(run: seq<Vault>, ops: seq<Op>, i: nat, j: nat, t: Token, now: real)
    requires IsRun(run, ops) && i < j <= |ops| && ops[i] == Apply(Add(t), NoFault)
    ensures Accepts(run[j].live, t.hash, now) <==>
      !RevokedBetween(ops, i, j, t.id) && (t.expiresAt.None? || now < t.expiresAt.value)
  {
    hide Step, RevokedBetween;
    CreatedTokenIsStored(run, ops, i, j, t);
  }

  /** A hash that is stored in no record is never accepted. */
  lemma OnlyStoredTokensAreAccepted(run: seq<Vault>, ops: seq<Op>, j: nat, hash: string, now: real)
    requires IsRun(run, ops) && j <= |ops| && Accepts(run[j].live, hash, now)
    ensures run[j].disk.Records?
    ensures exists k :: 0 <= k < |run[j].disk.list| && IsRecordOf(run[j].disk.list[k], hash, now)
  {
    hide Step;
    MemoryAlwaysEqualsDisk(run, ops, j);
    LoadReadsBack(run[j].disk.list, run[j].live);
    var list := run[j].disk.list;
    assert hash in Hashes(list, |list|);
    var k :| 0 <= k < |list| && list[k].hash == hash;
    assert IsRecordOf(list[k], hash, now);
  }

  ghost predicate IsRecordOf(t: Token, hash: string, now: real) {
    t.hash == hash && !t.revoked && (t.expiresAt.None? || now < t.expiresAt.value)
  }

  // ------------------------------------------------------------------ which records load

  lemma {:induction false} Utf8LengthBounds(s: string)
    ensures |s| <= Utf8Length(s) <= 4 * |s|
    ensures Utf8Length(s) == |s| <==> forall i :: 0 <= i < |s| ==> s[i] as int < 128
  {
    if s != [] { Utf8LengthBounds(s[..|s| - 1]); }
  }

  lemma {:induction false} Utf8LengthAdds(s: string, t: string)
    ensures Utf8Length(s + t) == Utf8Length(s) + Utf8Length(t)
    decreases |t|
  {
    if t == [] {
      assert s + t == s;
    } else {
      assert (s + t)[..|s + t| - 1] == s + t[..|t| - 1];
      Utf8LengthAdds(s, t[..|t| - 1]);
    }
  }

  /** A character takes the fewest bytes of a form that carries 7, 11, 16 or 21 bits. */
  lemma Utf8IsShortest(c: char)
    ensures Utf8Length([c]) <= 1 <==> c as int < 0x80
    ensures Utf8Length([c]) <= 2 <==> c as int < 0x800
    ensures Utf8Length([c]) <= 3 <==> c as int < 0x1_0000
    ensures 1 <= Utf8Length([c]) <= 4
  {
    assert Utf8Length([c][..0]) == 0;
  }

  ghost predicate HasEarlier(list: seq<Token>, n: nat, byId: bool)
    requires n < |list|
  {
    exists i :: 0 <= i < n && if byId then list[i].id == list[n].id else list[i].hash == list[n].hash
  }

  /** A list that does not load is refused at its first bad record, with that record's identifier: for being
      invalid, else for repeating an identifier, else for repeating a hash. */
  lemma {:induction false} FirstBadRecord(list: seq<Token>) returns (n: nat)
    requires Load(list).Err?
    ensures n < |list| && Load(list[..n]).Ok?
    ensures var t := list[n];
      Load(list) == Err(if !ValidRecord(t) then InvalidRecord(t.id)
                        else if HasEarlier(list, n, true) then DuplicateId(t.id) else DuplicateHash(t.id))
    ensures ValidRecord(list[n]) && !HasEarlier(list, n, true) ==> HasEarlier(list, n, false)
  {
    hide ValidRecord;
    n := |list|;
    while LoadPrefix(list, n).Err?
      invariant n <= |list| && (n < |list| ==> LoadPrefix(list, n + 1).Err?)
      invariant n < |list| ==> LoadPrefix(list, n + 1) == Load(list)
      decreases n
    {
      n := n - 1;
      if LoadPrefix(list, n).Err? { assert LoadPrefix(list, n + 1) == LoadPrefix(list, n); }
    }
    SamePrefix(list, n);
    LoadedIsWellFormed(list, n);
  }

  lemma {:induction false} SamePrefix(list: seq<Token>, n: nat)
    requires n <= |list|
    ensures Load(list[..n]) == LoadPrefix(list, n)
  {
    PrefixOfPrefix(list, n, n);
  }

  lemma {:induction false} PrefixOfPrefix(list: seq<Token>, n: nat, k: nat)
    requires k <= n <= |list|
    ensures LoadPrefix(list[..n], k) == LoadPrefix(list, k)
  {
    if k > 0 {
      PrefixOfPrefix(list, n, k - 1);
      assert Ids(list[..n], k - 1) == Ids(list, k - 1);
    }
  }

  /** A record with an identifier of one to 128 plain characters loads exactly when its hash is written with
      64 lower-case hexadecimal digits. */
  lemma HexDigestsLoad(t: Token)
    requires forall i :: 0 <= i < |t.id| ==> t.id[i] as int < 128
    ensures Load([t]) == Ok(map[t.hash := t]) <==>
      1 <= |t.id| <= 128 && |t.hash| == 64 && forall i :: 0 <= i < 64 ==> t.hash[i] in "0123456789abcdef"
    ensures Load([t]) == Ok(map[t.hash := t]) || Load([t]) == Err(InvalidRecord(t.id))
  {
    Utf8LengthBounds(t.id);
    hide Utf8Length;
    if |t.hash| == 64 {
      forall i | 0 <= i < 64 ensures IsLowerHex(t.hash[i]) <==> t.hash[i] in "0123456789abcdef" { HexDigit(t.hash[i]); }
    }
    assert LoadPrefix([t], 0) == Ok(map[]);
  }

  lemma HexDigit(c: char)
    ensures IsLowerHex(c) <==> c in "0123456789abcdef"
  {
  }
}
