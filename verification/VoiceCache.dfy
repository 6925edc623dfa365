/**
 The decoded-reference cache: a deque in recency order under a count budget and a byte budget.

 The deque operations are `ProbeStep` and `PublishStep`. The reference is `Recency`, a map whose
 slots carry the time of their last use; it evicts by a declarative rule that knows nothing of
 deque positions or loops.
 */
module VoiceCache {
  import opened Common
  import opened Sums

  const MAX_DECODED_CACHE_BYTES: nat := 64 * 1024 * 1024
  const MAX_DECODED_CACHE_ENTRIES: nat := 16
  const BYTES_PER_SAMPLE: nat := 4

  /** Device, inode, length and times of a file. */
  type Stamp = seq<nat>

  datatype Audio = Audio(pcm: seq<real>, sampleRate: nat)

  function Size(a: Audio): nat { |a.pcm| * BYTES_PER_SAMPLE }

  /** `id:owner:hash`; none of the three contains the separator. */
  datatype Key = Key(id: string, owner: string, hash: string)

  datatype Entry = Entry(key: Key, stamp: Option<Stamp>, audio: Audio)

  type Deque = seq<Entry>

  // ------------------------------------------------------------------ deque operations

  predicate IsHit(e: Entry, key: Key, stamp: Option<Stamp>) {
    e.key == key && e.stamp == stamp && stamp.Some?
  }

  /** The first matching position, or |d|. */
  function Position(d: Deque, key: Key, stamp: Option<Stamp>): (pos: nat)
    ensures pos <= |d|
    ensures pos < |d| ==> IsHit(d[pos], key, stamp)
    ensures forall i :: 0 <= i < pos ==> !IsHit(d[i], key, stamp)
  {
    if d == [] || IsHit(d[0], key, stamp) then 0 else 1 + Position(d[1..], key, stamp)
  }

  function ProbeStep(d: Deque, key: Key, stamp: Option<Stamp>): (Deque, Option<Audio>) {
    var pos := Position(d, key, stamp);
    if pos < |d| then (d[..pos] + d[pos + 1..] + [d[pos]], Some(d[pos].audio)) else (d, None)
  }

  function Bytes(d: Deque): nat {
    if d == [] then 0 else Size(d[0].audio) + Bytes(d[1..])
  }

  predicate Fits(count: nat, bytes: nat, size: nat) {
    count < MAX_DECODED_CACHE_ENTRIES && bytes + size <= MAX_DECODED_CACHE_BYTES
  }

  function Evict(d: Deque, size: nat): Deque {
    if d == [] || Fits(|d|, Bytes(d), size) then d else Evict(d[1..], size)
  }

  function Without(d: Deque, key: Key): Deque {
    if d == [] then [] else (if d[0].key == key then [] else [d[0]]) + Without(d[1..], key)
  }

  function PublishStep(d: Deque, key: Key, stamp: Option<Stamp>, audio: Audio): Deque {
    var rest := Without(Evict(d, Size(audio)), key);
    if Size(audio) <= MAX_DECODED_CACHE_BYTES then rest + [Entry(key, stamp, audio)] else rest
  }

  /** `delete_voice` drops every entry of the profile. */
  function PurgeStep(d: Deque, id: string): Deque {
    if d == [] then [] else (if d[0].key.id == id then [] else [d[0]]) + PurgeStep(d[1..], id)
  }

  // ------------------------------------------------------------------ budgets

  ghost predicate UniqueKeys(d: Deque) {
    forall i, j :: 0 <= i < j < |d| ==> d[i].key != d[j].key
  }

  ghost predicate WithinBudget(d: Deque) {
    UniqueKeys(d) && |d| <= MAX_DECODED_CACHE_ENTRIES && Bytes(d) <= MAX_DECODED_CACHE_BYTES
  }

  lemma {:induction false} BytesConcat(a: Deque, b: Deque)
    ensures Bytes(a + b) == Bytes(a) + Bytes(b)
    decreases |a|
  {
    if a == [] {
      assert a + b == b;
    } else {
      assert (a + b)[1..] == a[1..] + b;
      BytesConcat(a[1..], b);
    }
  }

  lemma {:induction false} WithoutShrinks(d: Deque, key: Key)
    ensures |Without(d, key)| <= |d| && Bytes(Without(d, key)) <= Bytes(d)
    decreases |d|
  {
    if d != [] {
      WithoutShrinks(d[1..], key);
      BytesConcat(if d[0].key == key then [] else [d[0]], Without(d[1..], key));
    }
  }

  lemma {:induction false} WithoutFilters(d: Deque, key: Key)
    ensures forall e :: e in Without(d, key) <==> e in d && e.key != key
    ensures UniqueKeys(d) ==> UniqueKeys(Without(d, key))
    decreases |d|
  {
    if d != [] {
      WithoutFilters(d[1..], key);
      assert d == [d[0]] + d[1..];
    }
  }

  /** What the eviction loop removes: the shortest least-recently-used prefix that makes both budgets
      fit, or everything when nothing can. */
  lemma {:induction false} EvictsShortestPrefix(d: Deque, size: nat) returns (n: nat)
    ensures n <= |d| && Evict(d, size) == d[n..]
    ensures forall m :: 0 <= m < n ==> !Fits(|d[m..]|, Bytes(d[m..]), size)
    ensures n < |d| ==> Fits(|d[n..]|, Bytes(d[n..]), size)
    ensures size <= MAX_DECODED_CACHE_BYTES ==> Fits(|d[n..]|, Bytes(d[n..]), size)
    ensures size > MAX_DECODED_CACHE_BYTES ==> n == |d|
    decreases |d|
  {
    if d == [] || Fits(|d|, Bytes(d), size) {
      n := 0;
      assert d[0..] == d;
    } else {
      n := EvictsShortestPrefix(d[1..], size);
      n := n + 1;
      assert forall m :: 1 <= m <= |d| ==> d[m..] == d[1..][m - 1..];
      assert d[0..] == d;
    }
  }

  lemma MoveToBack(a: Deque, e: Entry, b: Deque)
    ensures Bytes(a + b + [e]) == Bytes(a + [e] + b)
    ensures UniqueKeys(a + [e] + b) ==> UniqueKeys(a + b + [e])
  {
    BytesConcat(a + [e], b);
    BytesConcat(a, [e]);
    BytesConcat(a + b, [e]);
    BytesConcat(a, b);
    var was, now := a + [e] + b, a + b + [e];
    if UniqueKeys(was) {
      forall i, j | 0 <= i < j < |now| ensures now[i].key != now[j].key {
        var i' := if i < |a| then i else i + 1;
        var j' := if j < |a| then j else if j < |now| - 1 then j + 1 else |a|;
        assert was[i'] == now[i] && was[j'] == now[j];
      }
    }
  }

  lemma ProbeKeepsBudget(d: Deque, key: Key, stamp: Option<Stamp>)
    requires WithinBudget(d)
    ensures WithinBudget(ProbeStep(d, key, stamp).0)
  {
    hide UniqueKeys, Bytes;
    var pos := Position(d, key, stamp);
    if pos < |d| {
      MoveToBack(d[..pos], d[pos], d[pos + 1..]);
      assert d == d[..pos] + [d[pos]] + d[pos + 1..];
    }
  }

  /** Every publish keeps both budgets; a reference over the byte budget empties the cache and is not stored. */
  lemma PublishKeepsBudget(d: Deque, key: Key, stamp: Option<Stamp>, audio: Audio)
    requires WithinBudget(d)
    ensures WithinBudget(PublishStep(d, key, stamp, audio))
    ensures Size(audio) > MAX_DECODED_CACHE_BYTES ==> PublishStep(d, key, stamp, audio) == []
    ensures Size(audio) <= MAX_DECODED_CACHE_BYTES ==>
      var d' := PublishStep(d, key, stamp, audio);
      d' != [] && d'[|d'| - 1] == Entry(key, stamp, audio)
  {
    var n := EvictsShortestPrefix(d, Size(audio));
    var kept := Evict(d, Size(audio));
    var rest := Without(kept, key);
    WithoutFilters(kept, key);
    WithoutShrinks(kept, key);
    BytesConcat(rest, [Entry(key, stamp, audio)]);
    forall i | 0 <= i < |rest| ensures rest[i].key != key { assert rest[i] in rest; }
  }

  lemma {:induction false} PurgeShrinks(d: Deque, id: string)
    ensures |PurgeStep(d, id)| <= |d| && Bytes(PurgeStep(d, id)) <= Bytes(d)
    decreases |d|
  {
    if d != [] {
      PurgeShrinks(d[1..], id);
      BytesConcat(if d[0].key.id == id then [] else [d[0]], PurgeStep(d[1..], id));
    }
  }

  lemma {:induction false} PurgeFilters(d: Deque, id: string)
    ensures forall e :: e in PurgeStep(d, id) <==> e in d && e.key.id != id
    ensures UniqueKeys(d) ==> UniqueKeys(PurgeStep(d, id))
    decreases |d|
  {
    if d != [] {
      PurgeFilters(d[1..], id);
      assert d == [d[0]] + d[1..];
    }
  }

  // ------------------------------------------------------------------ the recency reference

  datatype Slot = Slot(stamp: Option<Stamp>, audio: Audio, lastUse: nat)

  type Slots = map<Key, Slot>

  datatype Recency = Recency(slots: Slots, clock: nat)

  ghost function Keep(slots: Slots, keys: set<Key>): Slots { map k | k in slots && k in keys :: slots[k] }

  ghost function TotalBytes(slots: Slots): nat { Sum(map k | k in slots :: Size(slots[k].audio)) }

  /** Room for one more of this size: sixteen entries and 64 MiB in all. */
  ghost predicate SetFits(slots: Slots, keys: set<Key>, size: nat) {
    |keys| < 16 && TotalBytes(Keep(slots, keys)) + size <= 64 * 1024 * 1024
  }

  /** Closed under "used no earlier than". */
  ghost predicate IsRecent(slots: Slots, keys: set<Key>) {
    && keys <= slots.Keys
    && forall j, k :: j in slots && k in keys && slots[j].lastUse >= slots[k].lastUse ==> j in keys
  }

  /** The survivors of an eviction: the largest recency-closed set that leaves room, if any does. */
  ghost predicate Survivors(slots: Slots, keys: set<Key>, size: nat) {
    && IsRecent(slots, keys)
    && (keys == {} || SetFits(slots, keys, size))
    && forall more :: IsRecent(slots, more) && keys < more ==> !SetFits(slots, more, size)
  }

  ghost function Use(r: Recency, key: Key, stamp: Option<Stamp>, audio: Audio): Recency {
    Recency(r.slots[key := Slot(stamp, audio, r.clock)], r.clock + 1)
  }

  ghost function RecencyProbe(r: Recency, key: Key, stamp: Option<Stamp>): (Recency, Option<Audio>) {
    if key in r.slots && r.slots[key].stamp == stamp && stamp.Some?
    then (Use(r, key, stamp, r.slots[key].audio), Some(r.slots[key].audio)) else (r, None)
  }

  ghost predicate RecencyPublish(r: Recency, key: Key, stamp: Option<Stamp>, audio: Audio, r': Recency) {
    exists keys :: Survivors(r.slots, keys, Size(audio))
      && var kept := Recency(Keep(r.slots, keys) - {key}, r.clock);
         r' == if 4 * |audio.pcm| <= 64 * 1024 * 1024 then Use(kept, key, stamp, audio) else kept
  }

  // ------------------------------------------------------------------ refinement

  ghost function KeysOf(d: Deque): set<Key> { set i | 0 <= i < |d| :: d[i].key }

  /** The deque lists the slots in the order of their last use. */
  ghost predicate Lists(d: Deque, r: Recency) {
    && KeysOf(d) == r.slots.Keys
    && (forall i :: 0 <= i < |d| ==>
          d[i].key in r.slots && Holds(d[i], r.slots[d[i].key]) && r.slots[d[i].key].lastUse < r.clock)
    && (forall i, j :: 0 <= i < j < |d| ==> r.slots[d[i].key].lastUse < r.slots[d[j].key].lastUse)
  }

  ghost predicate Holds(e: Entry, slot: Slot) { e.stamp == slot.stamp && e.audio == slot.audio }

  lemma SuffixLists(d: Deque, r: Recency, n: nat)
    requires Lists(d, r) && n <= |d|
    ensures Lists(d[n..], Recency(Keep(r.slots, KeysOf(d[n..])), r.clock))
    ensures IsRecent(r.slots, KeysOf(d[n..]))
  {
    forall j, k | j in r.slots && k in KeysOf(d[n..]) && r.slots[j].lastUse >= r.slots[k].lastUse
      ensures j in KeysOf(d[n..])
    {
      var b :| 0 <= b < |d| && d[b].key == j;
      var a :| 0 <= a < |d[n..]| && d[n..][a].key == k;
      assert d[n..][a] == d[a + n];
      assert a + n <= b;
      assert d[n..][b - n].key == j;
    }
    assert KeysOf(d[n..]) <= r.slots.Keys;
  }

  function Removed(d: Deque, p: nat): (e: Deque)
    requires p < |d|
    ensures |e| == |d| - 1 && forall i :: 0 <= i < |e| ==> e[i] == d[if i < p then i else i + 1]
  {
    d[..p] + d[p + 1..]
  }

  lemma RemovalKeys(d: Deque, p: nat)
    requires p < |d| && UniqueKeys(d)
    ensures KeysOf(Removed(d, p)) == KeysOf(d) - {d[p].key}
  {
    var e := Removed(d, p);
    forall k | k in KeysOf(d) - {d[p].key} ensures k in KeysOf(e) {
      var i :| 0 <= i < |d| && d[i].key == k;
      assert e[if i < p then i else i - 1].key == k;
    }
    forall k | k in KeysOf(e) ensures k in KeysOf(d) - {d[p].key} {
      var i :| 0 <= i < |e| && e[i].key == k;
      assert d[if i < p then i else i + 1].key == k;
    }
  }

  lemma RemovalLists(d: Deque, r: Recency, p: nat)
    requires Lists(d, r) && p < |d|
    ensures Lists(Removed(d, p), Recency(r.slots - {d[p].key}, r.clock))
  {
    hide KeysOf, Removed;
    ListsIsUnique(d, r);
    RemovalKeys(d, p);
  }

  lemma AppendLists(d: Deque, r: Recency, e: Entry)
    requires Lists(d, r) && e.key !in r.slots
    ensures Lists(d + [e], Use(r, e.key, e.stamp, e.audio))
  {
    AppendKeys(d, e);
    forall i | 0 <= i < |d| ensures d[i].key != e.key { assert d[i].key in r.slots; }
    hide KeysOf;
  }

  lemma AppendKeys(d: Deque, e: Entry)
    ensures KeysOf(d + [e]) == KeysOf(d) + {e.key}
  {
    var longer := d + [e];
    forall k | k in KeysOf(d) ensures k in KeysOf(longer) {
      var i :| 0 <= i < |d| && d[i].key == k;
      assert longer[i].key == k;
    }
    assert longer[|d|].key == e.key;
  }

  lemma ListsIsUnique(d: Deque, r: Recency)
    requires Lists(d, r)
    ensures UniqueKeys(d)
  {
    forall i, j | 0 <= i < j < |d| ensures d[i].key != d[j].key {
      assert r.slots[d[i].key].lastUse < r.slots[d[j].key].lastUse;
    }
  }

  lemma TotalRemove(slots: Slots, k: Key)
    requires k in slots
    ensures TotalBytes(slots) == Size(slots[k].audio) + TotalBytes(slots - {k})
    ensures |slots| == |slots - {k}| + 1
  {
    hide Size;
    var sizes := map j | j in slots :: Size(slots[j].audio);
    SumRemove(sizes, k);
    assert sizes - {k} == map j | j in slots - {k} :: Size((slots - {k})[j].audio);
    assert slots.Keys == (slots - {k}).Keys + {k};
  }

  lemma EmptyLists(r: Recency)
    requires Lists([], r)
    ensures r.slots == map[] && TotalBytes(r.slots) == 0
  {
    assert r.slots.Keys == {};
  }

  lemma FirstIsHeld(d: Deque, r: Recency)
    requires Lists(d, r) && d != []
    ensures d[0].key in r.slots && r.slots[d[0].key].audio == d[0].audio
    ensures Lists(d[1..], Recency(r.slots - {d[0].key}, r.clock))
  {
    hide KeysOf;
    RemovalLists(d, r, 0);
    assert Removed(d, 0) == d[1..];
  }

  lemma {:induction false} TotalsMatch(d: Deque, r: Recency)
    requires Lists(d, r)
    ensures TotalBytes(r.slots) == Bytes(d) && |r.slots| == |d|
    decreases |d|
  {
    hide Lists, KeysOf, TotalBytes, Size;
    if d == [] {
      EmptyLists(r);
    } else {
      FirstIsHeld(d, r);
      TotalsMatch(d[1..], Recency(r.slots - {d[0].key}, r.clock));
      TotalRemove(r.slots, d[0].key);
    }
  }

  lemma SuffixFits(d: Deque, r: Recency, n: nat, size: nat)
    requires Lists(d, r) && n <= |d|
    ensures SetFits(r.slots, KeysOf(d[n..]), size) <==> Fits(|d[n..]|, Bytes(d[n..]), size)
    ensures |KeysOf(d[n..])| == |d| - n
  {
    hide Lists;
    SuffixLists(d, r, n);
    var kept := Keep(r.slots, KeysOf(d[n..]));
    TotalsMatch(d[n..], Recency(kept, r.clock));
    assert kept.Keys == KeysOf(d[n..]);
  }

  /** The recency-closed sets are exactly the suffixes of the deque. */
  lemma RecentIsSuffix(d: Deque, r: Recency, keys: set<Key>) returns (n: nat)
    requires Lists(d, r) && IsRecent(r.slots, keys)
    ensures n <= |d| && keys == KeysOf(d[n..])
  {
    n := 0;
    while n < |d| && d[n].key !in keys
      invariant 0 <= n <= |d|
      invariant forall i :: 0 <= i < n ==> d[i].key !in keys
    {
      n := n + 1;
    }
    forall k | k in keys ensures k in KeysOf(d[n..]) {
      assert k in KeysOf(d);
      var i :| 0 <= i < |d| && d[i].key == k;
      assert d[n..][i - n].key == k;
    }
    forall k | k in KeysOf(d[n..]) ensures k in keys {
      var i :| 0 <= i < |d[n..]| && d[n..][i].key == k;
      assert d[i + n].key == k && d[n].key in keys;
      assert i > 0 ==> r.slots[d[i + n].key].lastUse >= r.slots[d[n].key].lastUse;
    }
  }

  /** The eviction loop leaves exactly the declared survivors. */
  lemma EvictionLeavesSurvivors(d: Deque, r: Recency, size: nat)
    requires Lists(d, r)
    ensures Survivors(r.slots, KeysOf(Evict(d, size)), size)
    ensures Lists(Evict(d, size), Recency(Keep(r.slots, KeysOf(Evict(d, size))), r.clock))
  {
    hide Lists, SetFits, Keep, Fits, IsRecent;
    var n := EvictsShortestPrefix(d, size);
    SuffixLists(d, r, n);
    SuffixFits(d, r, n, size);
    forall more | IsRecent(r.slots, more) && KeysOf(d[n..]) < more ensures !SetFits(r.slots, more, size) {
      var m := RecentIsSuffix(d, r, more);
      SuffixFits(d, r, m, size);
      SubsetIsSmaller(KeysOf(d[n..]), more);
    }
  }

  lemma {:induction false} WithoutIsRemoval(d: Deque, key: Key) returns (p: nat)
    requires UniqueKeys(d)
    ensures p <= |d| && (p < |d| ==> d[p].key == key) && (p < |d| <==> key in KeysOf(d))
    ensures Without(d, key) == if p < |d| then Removed(d, p) else d
    decreases |d|
  {
    hide UniqueKeys, KeysOf;
    if d == [] {
      p := 0;
      NoKeys();
    } else {
      UniqueRest(d);
      KeysOfRest(d);
      p := WithoutIsRemoval(d[1..], key);
      if d[0].key == key {
        p := 0;
        assert Removed(d, 0) == d[1..];
      } else {
        if p < |d[1..]| { RemovedLater(d, p); }
        p := p + 1;
      }
    }
  }

  lemma NoKeys()
    ensures KeysOf([]) == {}
  {
  }

  lemma RemovedLater(d: Deque, p: nat)
    requires d != [] && p < |d| - 1
    ensures Removed(d, p + 1) == [d[0]] + Removed(d[1..], p)
  {
    assert |Removed(d, p + 1)| == |[d[0]] + Removed(d[1..], p)|;
  }

  lemma UniqueRest(d: Deque)
    requires UniqueKeys(d) && d != []
    ensures UniqueKeys(d[1..]) && d[0].key !in KeysOf(d[1..])
  {
    forall i | 0 <= i < |d[1..]| ensures d[1..][i].key != d[0].key { assert d[1..][i] == d[i + 1]; }
  }

  lemma KeysOfRest(d: Deque)
    requires d != []
    ensures KeysOf(d) == {d[0].key} + KeysOf(d[1..])
  {
    forall k | k in KeysOf(d) ensures k in {d[0].key} + KeysOf(d[1..]) {
      var i :| 0 <= i < |d| && d[i].key == k;
      if i > 0 { assert d[1..][i - 1].key == k; }
    }
    forall k | k in KeysOf(d[1..]) ensures k in KeysOf(d) {
      var i :| 0 <= i < |d[1..]| && d[1..][i].key == k;
      assert d[i + 1].key == k;
    }
  }

  lemma RemovalByKeyLists(d: Deque, r: Recency, key: Key)
    requires Lists(d, r)
    ensures Lists(Without(d, key), Recency(r.slots - {key}, r.clock))
  {
    ListsIsUnique(d, r);
    var p := WithoutIsRemoval(d, key);
    if p < |d| { RemovalLists(d, r, p); } else { assert r.slots - {key} == r.slots; }
  }

  /** `publish` refines the recency reference. */
  lemma {:induction false} PublishRefines(d: Deque, r: Recency, key: Key, stamp: Option<Stamp>, audio: Audio)
    returns (r': Recency)
    requires Lists(d, r)
    ensures RecencyPublish(r, key, stamp, audio, r') && Lists(PublishStep(d, key, stamp, audio), r')
  {
    hide Lists, Survivors, Keep;
    var keys := KeysOf(Evict(d, Size(audio)));
    EvictionLeavesSurvivors(d, r, Size(audio));
    var survivors := Recency(Keep(r.slots, keys), r.clock);
    RemovalByKeyLists(Evict(d, Size(audio)), survivors, key);
    var kept := Recency(survivors.slots - {key}, r.clock);
    r' := if Size(audio) <= MAX_DECODED_CACHE_BYTES then Use(kept, key, stamp, audio) else kept;
    AppendLists(Without(Evict(d, Size(audio)), key), kept, Entry(key, stamp, audio));
  }

  /** `probe` refines the recency reference: same answer, same state. */
  lemma ProbeRefines(d: Deque, r: Recency, key: Key, stamp: Option<Stamp>)
    requires Lists(d, r)
    ensures RecencyProbe(r, key, stamp).1 == ProbeStep(d, key, stamp).1
    ensures Lists(ProbeStep(d, key, stamp).0, RecencyProbe(r, key, stamp).0)
  {
    hide Lists, Position;
    var pos := Position(d, key, stamp);
    ProbeHits(d, r, key, stamp);
    if pos < |d| { HitMovesToBack(d, r, pos, key); }
  }

  lemma HitMovesToBack(d: Deque, r: Recency, pos: nat, key: Key)
    requires Lists(d, r) && pos < |d| && d[pos].key == key && key in r.slots && Holds(d[pos], r.slots[key])
    ensures Lists(d[..pos] + d[pos + 1..] + [d[pos]], Use(r, key, d[pos].stamp, r.slots[key].audio))
  {
    hide Lists;
    RemovalLists(d, r, pos);
    AppendLists(Removed(d, pos), Recency(r.slots - {key}, r.clock), d[pos]);
    assert (r.slots - {key})[key := Slot(d[pos].stamp, d[pos].audio, r.clock)]
        == r.slots[key := Slot(d[pos].stamp, d[pos].audio, r.clock)];
  }

  /** The position found is the slot the reference looks up. */
  lemma ProbeHits(d: Deque, r: Recency, key: Key, stamp: Option<Stamp>)
    requires Lists(d, r)
    ensures var pos := Position(d, key, stamp);
      if pos < |d| then d[pos].key == key && d[pos].stamp == stamp && key in r.slots && Holds(d[pos], r.slots[key])
      else stamp.Some? && key in r.slots ==> r.slots[key].stamp != stamp
  {
    if Position(d, key, stamp) == |d| && key in r.slots {
      assert key in KeysOf(d);
      var i :| 0 <= i < |d| && d[i].key == key;
      assert !IsHit(d[i], key, stamp) && Holds(d[i], r.slots[key]);
    }
  }

  ghost function Forget(slots: Slots, id: string): Slots { map k | k in slots && k.id != id :: slots[k] }

  lemma {:induction false} PurgeRemovesOne(d: Deque, id: string) returns (p: nat)
    ensures p <= |d|
    ensures p < |d| ==> d[p].key.id == id && PurgeStep(Removed(d, p), id) == PurgeStep(d, id)
    ensures p == |d| ==> PurgeStep(d, id) == d && forall i :: 0 <= i < |d| ==> d[i].key.id != id
    decreases |d|
  {
    if d == [] {
      p := 0;
    } else if d[0].key.id == id {
      p := 0;
      assert Removed(d, 0) == d[1..];
    } else {
      var q := PurgeRemovesOne(d[1..], id);
      p := q + 1;
      if q < |d[1..]| { assert Removed(d, p)[1..] == Removed(d[1..], q) && Removed(d, p)[0] == d[0]; }
    }
  }

  lemma ForgetsNothing(d: Deque, r: Recency, id: string)
    requires Lists(d, r) && forall i :: 0 <= i < |d| ==> d[i].key.id != id
    ensures Forget(r.slots, id) == r.slots
  {
    forall k | k in r.slots ensures k.id != id { assert k in KeysOf(d); }
  }

  lemma ForgetsTheRemoved(slots: Slots, k: Key, id: string)
    requires k.id == id
    ensures Forget(slots - {k}, id) == Forget(slots, id)
  {
  }

  lemma {:induction false} PurgeLists(d: Deque, r: Recency, id: string)
    requires Lists(d, r)
    ensures Lists(PurgeStep(d, id), Recency(Forget(r.slots, id), r.clock))
    decreases |d|
  {
    hide Lists, Forget, PurgeStep;
    var p := PurgeRemovesOne(d, id);
    if p < |d| {
      RemovalLists(d, r, p);
      PurgeLists(Removed(d, p), Recency(r.slots - {d[p].key}, r.clock), id);
      ForgetsTheRemoved(r.slots, d[p].key, id);
    } else {
      ForgetsNothing(d, r, id);
    }
  }

  // ------------------------------------------------------------------ runs

  datatype Op = Probe(key: Key, stamp: Option<Stamp>) | Publish(key: Key, stamp: Option<Stamp>, audio: Audio)
              | Purge(id: string) | Clear

  function Apply(d: Deque, op: Op): (Deque, Option<Audio>) {
    match op
    case Probe(key, stamp) => ProbeStep(d, key, stamp)
    case Publish(key, stamp, audio) => (PublishStep(d, key, stamp, audio), None)
    case Purge(id) => (PurgeStep(d, id), None)
    case Clear => ([], None)
  }

  ghost predicate RecencyApply(r: Recency, op: Op, r': Recency, answer: Option<Audio>) {
    match op
    case Probe(key, stamp) => (r', answer) == RecencyProbe(r, key, stamp)
    case Publish(key, stamp, audio) => RecencyPublish(r, key, stamp, audio, r') && answer == None
    case Purge(id) => r' == Recency(Forget(r.slots, id), r.clock) && answer == None
    case Clear => r' == Recency(map[], r.clock) && answer == None
  }

  ghost function DequeAfter(ops: seq<Op>, n: nat): Deque
    requires n <= |ops|
  {
    if n == 0 then [] else Apply(DequeAfter(ops, n - 1), ops[n - 1]).0
  }

  lemma ApplyRefines(d: Deque, r: Recency, op: Op) returns (r': Recency)
    requires Lists(d, r) && WithinBudget(d)
    ensures RecencyApply(r, op, r', Apply(d, op).1)
    ensures Lists(Apply(d, op).0, r') && WithinBudget(Apply(d, op).0)
  {
    hide Lists, WithinBudget, PublishStep, ProbeStep, PurgeStep;
    match op
    case Probe(key, stamp) =>
      r' := RecencyProbe(r, key, stamp).0;
      ProbeRefines(d, r, key, stamp);
      ProbeKeepsBudget(d, key, stamp);
    case Publish(key, stamp, audio) =>
      r' := PublishRefines(d, r, key, stamp, audio);
      PublishKeepsBudget(d, key, stamp, audio);
    case Purge(id) =>
      r' := Recency(Forget(r.slots, id), r.clock);
      PurgeLists(d, r, id);
      PurgeKeepsBudget(d, id);
    case Clear =>
      r' := Recency(map[], r.clock);
      NothingLists(r.clock);
  }

  lemma PurgeKeepsBudget(d: Deque, id: string)
    requires WithinBudget(d)
    ensures WithinBudget(PurgeStep(d, id))
  {
    PurgeFilters(d, id);
    PurgeShrinks(d, id);
  }

  lemma NothingLists(clock: nat)
    ensures Lists([], Recency(map[], clock)) && WithinBudget([])
  {
    assert KeysOf([]) == {};
  }

  /** Main theorem: after any sequence of operations the deque lists a recency cache that went through
      the same operations with the same answers, and both budgets hold. */
  lemma {:induction false} CacheIsRecencyCache(ops: seq<Op>, n: nat) returns (rs: seq<Recency>)
    requires n <= |ops|
    ensures |rs| == n + 1 && rs[0] == Recency(map[], 0)
    ensures forall i :: 0 <= i < n ==> RecencyApply(rs[i], ops[i], rs[i + 1], Apply(DequeAfter(ops, i), ops[i]).1)
    ensures Lists(DequeAfter(ops, n), rs[n]) && WithinBudget(DequeAfter(ops, n))
  {
    hide Lists, WithinBudget, Apply, RecencyApply;
    if n == 0 {
      rs := [Recency(map[], 0)];
      NothingLists(0);
    } else {
      rs := CacheIsRecencyCache(ops, n - 1);
      var r' := ApplyRefines(DequeAfter(ops, n - 1), rs[n - 1], ops[n - 1]);
      rs := rs + [r'];
    }
  }
}
