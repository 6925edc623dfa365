/**
 What a publish evicts needlessly. The eviction loop makes room while the old entry of the same key
 still counts, and only then drops that entry; here the loop is compared with one that would drop
 the old entry first.
 */
module OverEviction {
  import opened Common
  import opened VoiceCache

  ghost predicate HasRoom(d: Deque, size: nat) { Fits(|d|, Bytes(d), size) }

  /** The program's survivors are those of a loop that evicts only what the budgets need. */
  ghost predicate EvictsOnlyWhatIsNeeded(d: Deque, key: Key, size: nat) {
    Without(Evict(d, size), key) == Evict(Without(d, key), size)
  }

  /** Some run of most recent entries, starting with another key's, has room only without the old entry. */
  ghost predicate OldEntryIsInTheWay(d: Deque, key: Key, size: nat) {
    exists i :: 0 <= i < |d| && InTheWayFrom(d, i, key, size)
  }

  ghost predicate InTheWayFrom(d: Deque, i: nat, key: Key, size: nat)
    requires i < |d|
  {
    d[i].key != key && HasRoom(Without(d[i..], key), size) && !HasRoom(d[i..], size)
  }

  lemma {:induction false} SuffixHasRoom(d: Deque, i: nat, size: nat)
    requires i <= |d| && HasRoom(d, size)
    ensures HasRoom(d[i..], size)
    decreases i
  {
    if i > 0 {
      SuffixHasRoom(d[1..], i - 1, size);
      assert d[1..][i - 1..] == d[i..];
    } else {
      assert d[0..] == d;
    }
  }

  lemma {:induction false} EvictedIsNoLonger(d: Deque, key: Key, size: nat)
    ensures |Without(Evict(d, size), key)| <= |Without(d, key)|
    decreases |d|
  {
    if d != [] { EvictedIsNoLonger(d[1..], key, size); }
  }

  /** Whether the old entry is in the way, one entry at a time. */
  lemma InTheWayStep(d: Deque, key: Key, size: nat)
    requires d != []
    ensures OldEntryIsInTheWay(d, key, size) <==> InTheWayFrom(d, 0, key, size) || OldEntryIsInTheWay(d[1..], key, size)
  {
    forall i | 0 < i < |d| ensures InTheWayFrom(d, i, key, size) <==> InTheWayFrom(d[1..], i - 1, key, size) {
      assert d[1..][i - 1..] == d[i..];
    }
    if OldEntryIsInTheWay(d[1..], key, size) {
      var i :| 0 <= i < |d[1..]| && InTheWayFrom(d[1..], i, key, size);
      assert InTheWayFrom(d, i + 1, key, size);
    }
  }

  lemma WithRoomNothingIsInTheWay(d: Deque, key: Key, size: nat)
    requires HasRoom(d, size)
    ensures EvictsOnlyWhatIsNeeded(d, key, size) && !OldEntryIsInTheWay(d, key, size)
  {
    WithoutShrinks(d, key);
    forall i | 0 <= i < |d| ensures HasRoom(d[i..], size) { SuffixHasRoom(d, i, size); }
  }

  /** A publish evicts exactly what the budgets need unless the old entry of its key is in the way, and
      then it always evicts too much. */
  lemma {:induction false} EvictionIsNeededExactly(d: Deque, key: Key, size: nat)
    ensures EvictsOnlyWhatIsNeeded(d, key, size) <==> !OldEntryIsInTheWay(d, key, size)
    decreases |d|
  {
    hide OldEntryIsInTheWay, Fits;
    if d == [] {
      NothingIsInTheWay(key, size);
    } else if HasRoom(d, size) {
      WithRoomNothingIsInTheWay(d, key, size);
    } else {
      EvictionIsNeededExactly(d[1..], key, size);
      InTheWayStep(d, key, size);
      EvictedIsNoLonger(d[1..], key, size);
      assert d[0..] == d;
      var w := Without(d, key);
      if d[0].key == key {
        assert w == Without(d[1..], key);
      } else {
        assert w[1..] == Without(d[1..], key);
        assert if HasRoom(w, size) then Evict(w, size) == w else Evict(w, size) == Evict(w[1..], size);
      }
    }
  }

  lemma NothingIsInTheWay(key: Key, size: nat)
    ensures !OldEntryIsInTheWay([], key, size)
  {
  }

  lemma {:induction false} WithoutOfSuffix(d: Deque, n: nat, key: Key) returns (m: nat)
    requires n <= |d|
    ensures m <= |Without(d, key)| && Without(d[n..], key) == Without(d, key)[m..]
    decreases n
  {
    if n == 0 {
      m := 0;
      assert d[0..] == d;
    } else {
      m := WithoutOfSuffix(d[1..], n - 1, key);
      assert d[1..][n - 1..] == d[n..];
      if d[0].key != key {
        assert Without(d, key)[m + 1..] == Without(d[1..], key)[m..];
        m := m + 1;
      }
    }
  }

  /** The same read off the result: nothing was evicted needlessly exactly when nothing but the old
      entry went, or the other entry that went last would not fit beside the survivors. */
  lemma LastEvictedDecides(d: Deque, key: Key, size: nat)
    ensures var rest, w := Without(Evict(d, size), key), Without(d, key);
      && |rest| <= |w|
      && (EvictsOnlyWhatIsNeeded(d, key, size)
          <==> |rest| == |w| || !Fits(|rest| + 1, Bytes(w[|w| - |rest| - 1..]), size))
  {
    hide Fits, Without, Evict, Bytes, HasRoom;
    var rest, w := Without(Evict(d, size), key), Without(d, key);
    var m, k := SurvivorsAreSuffixes(d, key, size);
    assert rest == w[m..] && |rest| == |w| - m;
    if m > 0 {
      RoomOfSuffix(w, m - 1, size);
      if k < m { RoomGrows(w, k, m - 1, size); }
    }
  }

  /** Both loops leave suffixes of the other entries, the program's never the longer one. */
  lemma SurvivorsAreSuffixes(d: Deque, key: Key, size: nat) returns (m: nat, k: nat)
    ensures var w := Without(d, key);
      && k <= m <= |w| && Without(Evict(d, size), key) == w[m..] && Evict(w, size) == w[k..]
      && (k < |w| ==> HasRoom(w[k..], size)) && forall j :: 0 <= j < k ==> !HasRoom(w[j..], size)
  {
    hide Fits, Without, Evict, Bytes;
    var n := EvictsShortestPrefix(d, size);
    m := WithoutOfSuffix(d, n, key);
    k := EvictsShortestPrefix(Without(d, key), size);
    if n < |d| {
      WithoutHasRoom(d[n..], key, size);
    } else {
      NothingIsNothing(key);
      assert d[n..] == [];
    }
  }

  lemma WithoutHasRoom(d: Deque, key: Key, size: nat)
    requires HasRoom(d, size)
    ensures HasRoom(Without(d, key), size)
  {
    WithoutShrinks(d, key);
  }

  lemma NothingIsNothing(key: Key)
    ensures Without([], key) == []
  {
  }

  lemma RoomOfSuffix(w: Deque, m: nat, size: nat)
    requires m <= |w|
    ensures HasRoom(w[m..], size) <==> Fits(|w| - m, Bytes(w[m..]), size)
  {
  }

  lemma RoomGrows(w: Deque, k: nat, m: nat, size: nat)
    requires k <= m <= |w| && HasRoom(w[k..], size)
    ensures HasRoom(w[m..], size)
  {
    SuffixHasRoom(w[k..], m - k, size);
    assert w[k..][m - k..] == w[m..];
  }

  // ------------------------------------------------------------------ how much can be lost

  const HALF: nat := MAX_DECODED_CACHE_BYTES / 2

  lemma {:induction false} OnlyTheOldEntryIsLeft(x: Deque, gone: Entry, size: nat)
    requires Size(gone.audio) == HALF && size == HALF && forall e :: e in x ==> |e.audio.pcm| > 0
    ensures Evict(x + [gone], size) == [gone] && Bytes(x + [gone]) >= HALF + |x|
    decreases |x|
  {
    if x == [] {
      assert x + [gone] == [gone] && Bytes([gone]) == HALF;
    } else {
      assert (x + [gone])[1..] == x[1..] + [gone] && x[0] in x;
      OnlyTheOldEntryIsLeft(x[1..], gone, size);
    }
  }

  lemma {:induction false} OthersStay(x: Deque, gone: Entry)
    requires forall e :: e in x ==> e.key != gone.key
    ensures Without(x + [gone], gone.key) == x
    decreases |x|
  {
    if x == [] {
      assert x + [gone] == [gone] && [gone][1..] == [];
    } else {
      assert (x + [gone])[1..] == x[1..] + [gone] && x[0] in x;
      OthersStay(x[1..], gone);
    }
  }

  /** Replacing an entry of half the byte budget drops every other entry, up to fifteen of them,
      although all of them fit beside the new one. */
  lemma RepublishDropsEverything(x: Deque, gone: Entry, stamp: Option<Stamp>, audio: Audio)
    requires UniqueKeys(x) && |x| < MAX_DECODED_CACHE_ENTRIES && Bytes(x) <= HALF
    requires forall e :: e in x ==> e.key != gone.key && |e.audio.pcm| > 0
    requires Size(gone.audio) == HALF && Size(audio) == HALF
    ensures WithinBudget(x + [gone]) && WithinBudget(x + [Entry(gone.key, stamp, audio)])
    ensures PublishStep(x + [gone], gone.key, stamp, audio) == [Entry(gone.key, stamp, audio)]
    ensures x != [] ==> !EvictsOnlyWhatIsNeeded(x + [gone], gone.key, HALF)
  {
    hide Evict, Without, WithinBudget, UniqueKeys, Bytes, Fits;
    FitsBeside(x, gone);
    FitsBeside(x, Entry(gone.key, stamp, audio));
    OnlyTheOldEntryIsLeft(x, gone, HALF);
    OthersStay([], gone);
    assert [] + [gone] == [gone];
    OthersStay(x, gone);
    WithRoomNothingGoes(x);
  }

  lemma WithRoomNothingGoes(x: Deque)
    requires |x| < MAX_DECODED_CACHE_ENTRIES && Bytes(x) <= HALF
    ensures Evict(x, HALF) == x
  {
  }

  lemma FitsBeside(x: Deque, e: Entry)
    requires UniqueKeys(x) && |x| < MAX_DECODED_CACHE_ENTRIES && Bytes(x) <= HALF && Size(e.audio) == HALF
    requires forall o :: o in x ==> o.key != e.key
    ensures WithinBudget(x + [e])
  {
    BytesConcat(x, [e]);
    assert Bytes([e]) == HALF;
    forall i | 0 <= i < |x| ensures x[i].key != e.key { assert x[i] in x; }
    hide Bytes;
  }

  ghost function Silence(samples: nat): Audio { Audio(seq(samples, _ => 0.0), 16000) }

  ghost function Track(id: string, stamp: Stamp, samples: nat): Entry {
    Entry(Key(id, "owner", "hash"), Some(stamp), Silence(samples))
  }

  lemma PairBytes(a: Entry, b: Entry)
    ensures Bytes([a, b]) == Size(a.audio) + Size(b.audio)
  {
    BytesConcat([a], [b]);
    assert [a] + [b] == [a, b];
  }

  const MIB: nat := 1024 * 1024

  /** Two references of 16 MiB and one of 32 MiB: replacing the last drops the other two, although the
      budgets need no eviction at all. */
  lemma NeedlessEviction(old16a: Entry, old16b: Entry, old32: Entry, new32: Entry)
    requires old16a == Track("a", [1], 4 * MIB) && old16b == Track("b", [2], 4 * MIB)
    requires old32 == Track("k", [3], 8 * MIB) && new32 == Track("k", [4], 8 * MIB)
    ensures WithinBudget([old16a, old16b, old32]) && WithinBudget([old16a, old16b, new32])
    ensures PublishStep([old16a, old16b, old32], old32.key, new32.stamp, new32.audio) == [new32]
    ensures !EvictsOnlyWhatIsNeeded([old16a, old16b, old32], old32.key, Size(new32.audio))
  {
    var x := [old16a, old16b];
    PairBytes(old16a, old16b);
    assert Size(old16a.audio) == 16 * MIB && Size(old32.audio) == HALF && Size(new32.audio) == HALF;
    assert x + [old32] == [old16a, old16b, old32] && x + [new32] == [old16a, old16b, new32];
    RepublishDropsEverything(x, old32, new32.stamp, new32.audio);
  }
}
