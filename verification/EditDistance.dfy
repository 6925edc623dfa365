/**
 The rolling-row edit distance used to score transcripts.

 `Table` is the full two-dimensional recurrence, with the program's tie-breaking;
 `Edits` is the program: one previous row, one current row. The recurrence takes the
 diagonal unconditionally when two tokens match, so that it computes a minimum is a theorem
 about edit scripts (`EditsIsOptimal`), not a consequence of its definition.
 */
module EditDistance {

  /** One table entry: total cost, and how many edits of each kind realise it. */
  datatype Cell = Cell(cost: nat, subs: nat, dels: nat, inss: nat)

  datatype Edit = Keep | Substitute | Delete | Insert

  /** Strict minimum of the three candidates; ties go to the earliest in the list. */
  function Cheapest(diagonal: Cell, above: Cell, left: Cell): (best: Cell)
    ensures best.cost <= diagonal.cost + 1 && best.cost <= above.cost + 1 && best.cost <= left.cost + 1
    ensures diagonal.cost <= above.cost && diagonal.cost <= left.cost ==>
      best == diagonal.(cost := diagonal.cost + 1, subs := diagonal.subs + 1)
    ensures above.cost < diagonal.cost && above.cost <= left.cost ==>
      best == above.(cost := above.cost + 1, dels := above.dels + 1)
    ensures left.cost < diagonal.cost && left.cost < above.cost ==>
      best == left.(cost := left.cost + 1, inss := left.inss + 1)
  {
    var afterSub := Cell(diagonal.cost + 1, diagonal.subs + 1, diagonal.dels, diagonal.inss);
    var afterDel := Cell(above.cost + 1, above.subs, above.dels + 1, above.inss);
    var afterIns := Cell(left.cost + 1, left.subs, left.dels, left.inss + 1);
    var best := if afterDel.cost < afterSub.cost then afterDel else afterSub;
    if afterIns.cost < best.cost then afterIns else best
  }

  /** Entry (i, j) of the table: rewriting the first i tokens of `a` into the first j of `b`. */
  function Table<T(==)>(a: seq<T>, i: nat, b: seq<T>, j: nat): Cell
    requires i <= |a| && j <= |b|
    decreases i + j
  {
    if i == 0 then Cell(j, 0, 0, j)
    else if j == 0 then Cell(i, 0, i, 0)
    else if a[i - 1] == b[j - 1] then Table(a, i - 1, b, j - 1)
    else Cheapest(Table(a, i - 1, b, j - 1), Table(a, i - 1, b, j), Table(a, i, b, j - 1))
  }

  /** The recurrence, one entry at a time. */
  lemma TableEntry<T>(a: seq<T>, i: nat, b: seq<T>, j: nat)
    requires i <= |a| && j <= |b|
    ensures Table(a, i, b, j) ==
      if i == 0 then Cell(j, 0, 0, j)
      else if j == 0 then Cell(i, 0, i, 0)
      else if a[i - 1] == b[j - 1] then Table(a, i - 1, b, j - 1)
      else Cheapest(Table(a, i - 1, b, j - 1), Table(a, i - 1, b, j), Table(a, i, b, j - 1))
  {
  }

  lemma FirstRow<T>(a: seq<T>, b: seq<T>)
    ensures forall j {:trigger Table(a, 0, b, j)} :: 0 <= j <= |b| ==> Table(a, 0, b, j) == Cell(j, 0, 0, j)
  {
  }

  /** The program: `previous` is one row of the table, replaced by `current` after each token. */
  method Edits<T(==)>(reference: seq<T>, hypothesis: seq<T>) returns (result: Cell)
    ensures result == Table(reference, |reference|, hypothesis, |hypothesis|)
  {
    hide Table, Cheapest;
    FirstRow(reference, hypothesis);
    var n := |hypothesis|;
    var previous := seq(n + 1, i requires 0 <= i => Cell(i, 0, 0, i));
    var i := 0;
    while i < |reference|
      invariant 0 <= i <= |reference|
      invariant |previous| == n + 1
      invariant forall j {:trigger previous[j]} :: 0 <= j <= n ==> previous[j] == Table(reference, i, hypothesis, j)
    {
      var token := reference[i];
      i := i + 1;
      TableEntry(reference, i, hypothesis, 0);
      var current := [Cell(i, 0, i, 0)];
      var j := 0;
      while j < n
        invariant 0 <= j <= n
        invariant |current| == j + 1
        invariant forall k {:trigger current[k]} :: 0 <= k <= j ==> current[k] == Table(reference, i, hypothesis, k)
      {
        var predicted := hypothesis[j];
        j := j + 1;
        TableEntry(reference, i, hypothesis, j);
        var diagonal := previous[j - 1];
        if token == predicted {
          current := current + [diagonal];
        } else {
          current := current + [Cheapest(diagonal, previous[j], current[|current| - 1])];
        }
      }
      previous := current;
    }
    result := previous[n];
  }

  // ---------------------------------------------------------------- edit scripts

  /** `script`, read from its end, rewrites the first i tokens of `a` into the first j of `b`. */
  ghost predicate Rewrites<T>(script: seq<Edit>, a: seq<T>, i: nat, b: seq<T>, j: nat)
    requires i <= |a| && j <= |b|
    decreases |script|
  {
    if |script| == 0 then i == 0 && j == 0
    else
      var s := script[..|script| - 1];
      match script[|script| - 1]
      case Keep => i > 0 && j > 0 && a[i - 1] == b[j - 1] && Rewrites(s, a, i - 1, b, j - 1)
      case Substitute => i > 0 && j > 0 && Rewrites(s, a, i - 1, b, j - 1)
      case Delete => i > 0 && Rewrites(s, a, i - 1, b, j)
      case Insert => j > 0 && Rewrites(s, a, i, b, j - 1)
  }

  ghost function Count(script: seq<Edit>, kind: Edit): nat {
    if |script| == 0 then 0
    else Count(script[..|script| - 1], kind) + if script[|script| - 1] == kind then 1 else 0
  }

  ghost function Price(script: seq<Edit>): nat {
    Count(script, Substitute) + Count(script, Delete) + Count(script, Insert)
  }

  lemma Snoc(script: seq<Edit>, e: Edit)
    ensures (script + [e])[..|script + [e]| - 1] == script
    ensures forall k :: Count(script + [e], k) == Count(script, k) + if e == k then 1 else 0
  {
    assert (script + [e])[..|script + [e]| - 1] == script;
  }

  /** A script that reaches j tokens of `b` yields one that reaches j - 1, for at most one more. */
  lemma {:induction false} DropTarget<T>(script: seq<Edit>, a: seq<T>, i: nat, b: seq<T>, j: nat)
    returns (shorter: seq<Edit>)
    requires i <= |a| && 0 < j <= |b| && Rewrites(script, a, i, b, j)
    ensures Rewrites(shorter, a, i, b, j - 1) && Price(shorter) <= Price(script) + 1
    decreases |script|
  {
    var s := script[..|script| - 1];
    if script[|script| - 1] == Insert {
      shorter := s;
    } else {
      var r := s;
      if script[|script| - 1] == Delete { r := DropTarget(s, a, i - 1, b, j); }
      shorter := r + [Delete];
      Snoc(r, Delete);
    }
  }

  /** The mirror image on the reference side. */
  lemma {:induction false} DropSource<T>(script: seq<Edit>, a: seq<T>, i: nat, b: seq<T>, j: nat)
    returns (shorter: seq<Edit>)
    requires 0 < i <= |a| && j <= |b| && Rewrites(script, a, i, b, j)
    ensures Rewrites(shorter, a, i - 1, b, j) && Price(shorter) <= Price(script) + 1
    decreases |script|
  {
    var s := script[..|script| - 1];
    if script[|script| - 1] == Delete {
      shorter := s;
    } else {
      var r := s;
      if script[|script| - 1] == Insert { r := DropSource(s, a, i, b, j - 1); }
      shorter := r + [Insert];
      Snoc(r, Insert);
    }
  }

  /** No script is cheaper than the table entry. */
  lemma {:induction false} TableIsLowerBound<T>(a: seq<T>, i: nat, b: seq<T>, j: nat, script: seq<Edit>)
    requires i <= |a| && j <= |b| && Rewrites(script, a, i, b, j)
    ensures Table(a, i, b, j).cost <= Price(script)
    decreases i + j
  {
    hide Cheapest;
    if |script| > 0 {
      var s := script[..|script| - 1];
      var last := script[|script| - 1];
      if i > 0 && j > 0 && a[i - 1] == b[j - 1] {
        // The interesting case: the program never looks at the two neighbours here.
        var r := s;
        if last == Delete { r := DropTarget(s, a, i - 1, b, j); }
        if last == Insert { r := DropSource(s, a, i, b, j - 1); }
        TableIsLowerBound(a, i - 1, b, j - 1, r);
      } else if last == Delete {
        TableIsLowerBound(a, i - 1, b, j, s);
      } else if last == Insert {
        TableIsLowerBound(a, i, b, j - 1, s);
      } else {
        TableIsLowerBound(a, i - 1, b, j - 1, s);
      }
    }
  }

  /** The counts in `c` are the counts of `script`. */
  ghost predicate Realises(script: seq<Edit>, c: Cell) {
    && c.subs == Count(script, Substitute) && c.dels == Count(script, Delete) && c.inss == Count(script, Insert)
    && c.cost == Price(script)
  }

  /** The counts after one more edit. */
  ghost function Plus(c: Cell, last: Edit): Cell {
    match last
    case Keep => c
    case Substitute => c.(cost := c.cost + 1, subs := c.subs + 1)
    case Delete => c.(cost := c.cost + 1, dels := c.dels + 1)
    case Insert => c.(cost := c.cost + 1, inss := c.inss + 1)
  }

  /** The edit that the program chose last on its way to entry (i, j). */
  lemma LastEdit<T>(a: seq<T>, i: nat, b: seq<T>, j: nat) returns (last: Edit)
    requires i <= |a| && j <= |b| && i + j > 0
    ensures if last.Delete? then i > 0 && Table(a, i, b, j) == Plus(Table(a, i - 1, b, j), last)
      else if last.Insert? then j > 0 && Table(a, i, b, j) == Plus(Table(a, i, b, j - 1), last)
      else i > 0 && j > 0 && Table(a, i, b, j) == Plus(Table(a, i - 1, b, j - 1), last)
    ensures last.Keep? ==> a[i - 1] == b[j - 1]
  {
    hide Cheapest;
    if i == 0 {
      last := Insert;
    } else if j == 0 {
      last := Delete;
    } else if a[i - 1] == b[j - 1] {
      last := Keep;
    } else {
      var diagonal, above := Table(a, i - 1, b, j - 1).cost, Table(a, i - 1, b, j).cost;
      var left := Table(a, i, b, j - 1).cost;
      last := if above < diagonal && above <= left then Delete else if diagonal <= left then Substitute else Insert;
    }
  }

  lemma OneMoreEditCounts(s: seq<Edit>, last: Edit, c: Cell)
    requires Realises(s, c)
    ensures Realises(s + [last], Plus(c, last))
  {
    Snoc(s, last);
  }

  lemma OneMoreEditRewrites<T>(s: seq<Edit>, last: Edit, a: seq<T>, i: nat, b: seq<T>, j: nat)
    requires i <= |a| && j <= |b|
    ensures Rewrites(s + [last], a, i, b, j) ==
      match last
      case Keep => i > 0 && j > 0 && a[i - 1] == b[j - 1] && Rewrites(s, a, i - 1, b, j - 1)
      case Substitute => i > 0 && j > 0 && Rewrites(s, a, i - 1, b, j - 1)
      case Delete => i > 0 && Rewrites(s, a, i - 1, b, j)
      case Insert => j > 0 && Rewrites(s, a, i, b, j - 1)
  {
    Snoc(s, last);
  }

  lemma NothingIsRealised<T>(a: seq<T>, b: seq<T>)
    ensures Rewrites([], a, 0, b, 0) && Realises([], Table(a, 0, b, 0))
  {
  }

  /** Every table entry is realised by a script with exactly its counts. */
  lemma {:induction false} TableIsRealised<T>(a: seq<T>, i: nat, b: seq<T>, j: nat) returns (script: seq<Edit>)
    requires i <= |a| && j <= |b|
    ensures Rewrites(script, a, i, b, j) && Realises(script, Table(a, i, b, j))
    decreases i + j
  {
    hide Table, Rewrites, Realises;
    if i == 0 && j == 0 {
      script := [];
      NothingIsRealised(a, b);
    } else {
      var last := LastEdit(a, i, b, j);
      var s, c;
      match last {
        case Delete => s := TableIsRealised(a, i - 1, b, j); c := Table(a, i - 1, b, j);
        case Insert => s := TableIsRealised(a, i, b, j - 1); c := Table(a, i, b, j - 1);
        case _ => s := TableIsRealised(a, i - 1, b, j - 1); c := Table(a, i - 1, b, j - 1);
      }
      script := s + [last];
      OneMoreEditCounts(s, last, c);
      OneMoreEditRewrites(s, last, a, i, b, j);
    }
  }

  lemma {:induction false} InsertionsBalanceDeletions<T>(script: seq<Edit>, a: seq<T>, i: nat, b: seq<T>, j: nat)
    requires i <= |a| && j <= |b| && Rewrites(script, a, i, b, j)
    ensures Count(script, Insert) - Count(script, Delete) == j - i
    decreases |script|
  {
    if |script| > 0 {
      var s := script[..|script| - 1];
      match script[|script| - 1] {
        case Delete => InsertionsBalanceDeletions(s, a, i - 1, b, j);
        case Insert => InsertionsBalanceDeletions(s, a, i, b, j - 1);
        case _ => InsertionsBalanceDeletions(s, a, i - 1, b, j - 1);
      }
    }
  }

  /** `script` rewrites all of `a` into all of `b`. */
  ghost predicate Transforms<T>(script: seq<Edit>, a: seq<T>, b: seq<T>) {
    Rewrites(script, a, |a|, b, |b|)
  }

  /** Main theorem: the returned cost is the minimum over all edit scripts, its counts belong to
      one script that attains it, and they balance against the two lengths. */
  lemma EditsIsOptimal<T>(a: seq<T>, b: seq<T>)
    ensures var c := Table(a, |a|, b, |b|);
      && (exists script :: Transforms(script, a, b) && Realises(script, c))
      && (forall script :: Transforms(script, a, b) ==> c.cost <= Price(script))
      && c.cost == c.subs + c.dels + c.inss
      && c.inss - c.dels == |b| - |a|
  {
    var best := TableIsRealised(a, |a|, b, |b|);
    assert Transforms(best, a, b);
    InsertionsBalanceDeletions(best, a, |a|, b, |b|);
    forall script | Transforms(script, a, b) ensures Table(a, |a|, b, |b|).cost <= Price(script) {
      TableIsLowerBound(a, |a|, b, |b|, script);
    }
  }

  lemma {:induction false} FreeScriptKeepsEverything<T>(script: seq<Edit>, a: seq<T>, i: nat, b: seq<T>, j: nat)
    requires i <= |a| && j <= |b| && Rewrites(script, a, i, b, j) && Price(script) == 0
    ensures i == j && a[..i] == b[..j]
    decreases |script|
  {
    if |script| > 0 {
      FreeScriptKeepsEverything(script[..|script| - 1], a, i - 1, b, j - 1);
      assert a[..i] == a[..i - 1] + [a[i - 1]] && b[..j] == b[..j - 1] + [b[j - 1]];
    }
  }

  lemma {:induction false} NoEditsOnEqualInputs<T>(a: seq<T>, i: nat)
    requires i <= |a|
    ensures Table(a, i, a, i) == Cell(0, 0, 0, 0)
  {
    if i > 0 { NoEditsOnEqualInputs(a, i - 1); }
  }

  /** A transcript is flagged for manual review (word cost above zero) exactly when it differs. */
  lemma ReviewExactlyWhenDifferent<T>(a: seq<T>, b: seq<T>)
    ensures Table(a, |a|, b, |b|).cost > 0 <==> a != b
  {
    assert a[..|a|] == a && b[..|b|] == b;
    if a == b {
      NoEditsOnEqualInputs(a, |a|);
    } else if Table(a, |a|, b, |b|).cost == 0 {
      var script := TableIsRealised(a, |a|, b, |b|);
      FreeScriptKeepsEverything(script, a, |a|, b, |b|);
    }
  }
}
