/**
 The recursive configuration merge: `base` is overwritten in place by `patch`.

 `Merge` is the pure reading of the program, `MergeInto` the program (the exclusive borrow of
 `base` becomes an in/out value). `PathLaw` says what any dotted path reads afterwards.
 */
module MergeJson {
  import opened Common

  datatype Json =
    | Null
    | Bool(b: bool)
    | Number(literal: string)
    | String(text: string)
    | Array(items: seq<Json>)
    | Object(fields: map<string, Json>)

  function Merge(base: Json, patch: Json): Json
    decreases patch
  {
    if base.Object? && patch.Object? then
      Object(map k | k in base.fields.Keys + patch.fields.Keys ::
        if k !in patch.fields then base.fields[k]
        else Merge(if k in base.fields then base.fields[k] else Null, patch.fields[k]))
    else patch
  }

  /** The program: an entry loop over the patch's fields, in whatever order the map yields them. */
  method MergeInto(base: Json, patch: Json) returns (merged: Json)
    ensures merged == Merge(base, patch)
    decreases patch
  {
    if !(base.Object? && patch.Object?) { return patch; }
    var fields := base.fields;
    var todo := patch.fields.Keys;
    while todo != {}
      invariant todo <= patch.fields.Keys
      invariant fields.Keys == base.fields.Keys + (patch.fields.Keys - todo)
      invariant forall k :: k in fields ==>
        fields[k] == if k in patch.fields.Keys - todo then Merge(base, patch).fields[k] else base.fields[k]
      decreases todo
    {
      var key :| key in todo;
      var entry := if key in fields then fields[key] else Null;
      var value := MergeInto(entry, patch.fields[key]);
      fields := fields[key := value];
      todo := todo - {key};
    }
    merged := Object(fields);
  }

  // ------------------------------------------------------------------ paths

  /** Reading a dotted path: only objects have members. */
  function Get(json: Json, path: seq<string>): Option<Json>
    decreases |path|
  {
    if |path| == 0 then Some(json)
    else if json.Object? && path[0] in json.fields then Get(json.fields[path[0]], path[1..])
    else None
  }

  ghost predicate IsObjectAt(json: Json, path: seq<string>) {
    Get(json, path).Some? && Get(json, path).value.Object?
  }

  lemma PrefixStep(json: Json, path: seq<string>, n: nat)
    requires 0 < n <= |path|
    ensures Get(json, path[..n]) == if json.Object? && path[0] in json.fields
                                    then Get(json.fields[path[0]], path[1..][..n - 1]) else None
  {
    assert path[..n][1..] == path[1..][..n - 1];
  }

  /** The patch's value is read wherever the patch has a non-object on the path, and wherever it
      has an object that the base cannot receive. */
  lemma {:induction false} PatchIsRead(base: Json, patch: Json, path: seq<string>, n: nat)
    requires n <= |path| && Get(patch, path[..n]).Some?
    requires !(IsObjectAt(patch, path[..n]) && IsObjectAt(base, path[..n]))
    ensures Get(Merge(base, patch), path) == Get(patch, path)
    decreases |path|
  {
    if base.Object? && patch.Object? {
      PrefixStep(patch, path, n);
      PrefixStep(base, path, n);
      var k := path[0];
      PatchIsRead(if k in base.fields then base.fields[k] else Null, patch.fields[k], path[1..], n - 1);
    }
  }

  /** The base's value is read wherever both are objects down to a key that the patch lacks. */
  lemma {:induction false} BaseIsRead(base: Json, patch: Json, path: seq<string>, n: nat)
    requires n < |path| && IsObjectAt(base, path[..n]) && IsObjectAt(patch, path[..n])
    requires Get(patch, path[..n + 1]).None?
    ensures Get(Merge(base, patch), path) == Get(base, path)
    decreases |path|
  {
    PrefixStep(patch, path, n + 1);
    if n > 0 {
      PrefixStep(patch, path, n);
      PrefixStep(base, path, n);
      BaseIsRead(base.fields[path[0]], patch.fields[path[0]], path[1..], n - 1);
    }
  }

  /** Where both are objects the result is an object over both key sets. */
  lemma {:induction false} ObjectsAreJoined(base: Json, patch: Json, path: seq<string>)
    requires IsObjectAt(base, path) && IsObjectAt(patch, path)
    ensures IsObjectAt(Merge(base, patch), path)
    ensures Get(Merge(base, patch), path).value.fields.Keys
            == Get(base, path).value.fields.Keys + Get(patch, path).value.fields.Keys
    decreases |path|
  {
    if |path| > 0 { ObjectsAreJoined(base.fields[path[0]], patch.fields[path[0]], path[1..]); }
  }

  /** Path law: what a path reads after the merge, in the three cases of where base and patch part. */
  lemma PathLaw(base: Json, patch: Json, path: seq<string>)
    ensures forall n :: 0 <= n <= |path| && Get(patch, path[..n]).Some?
                        && !(IsObjectAt(patch, path[..n]) && IsObjectAt(base, path[..n]))
              ==> Get(Merge(base, patch), path) == Get(patch, path)
    ensures forall n :: 0 <= n < |path| && IsObjectAt(base, path[..n]) && IsObjectAt(patch, path[..n])
                        && Get(patch, path[..n + 1]).None?
              ==> Get(Merge(base, patch), path) == Get(base, path)
    ensures IsObjectAt(base, path) && IsObjectAt(patch, path) ==>
              && IsObjectAt(Merge(base, patch), path)
              && Get(Merge(base, patch), path).value.fields.Keys
                 == Get(base, path).value.fields.Keys + Get(patch, path).value.fields.Keys
  {
    forall n | 0 <= n <= |path| && Get(patch, path[..n]).Some?
               && !(IsObjectAt(patch, path[..n]) && IsObjectAt(base, path[..n]))
      ensures Get(Merge(base, patch), path) == Get(patch, path)
    {
      PatchIsRead(base, patch, path, n);
    }
    forall n | 0 <= n < |path| && IsObjectAt(base, path[..n]) && IsObjectAt(patch, path[..n])
               && Get(patch, path[..n + 1]).None?
      ensures Get(Merge(base, patch), path) == Get(base, path)
    {
      BaseIsRead(base, patch, path, n);
    }
    if IsObjectAt(base, path) && IsObjectAt(patch, path) { ObjectsAreJoined(base, patch, path); }
  }

  /** The three cases of `PathLaw` leave no path out. */
  lemma {:induction false} PathLawIsTotal(base: Json, patch: Json, path: seq<string>)
    ensures (IsObjectAt(base, path) && IsObjectAt(patch, path))
         || (exists n :: 0 <= n <= |path| && Get(patch, path[..n]).Some?
                         && !(IsObjectAt(patch, path[..n]) && IsObjectAt(base, path[..n])))
         || (exists n :: 0 <= n < |path| && IsObjectAt(base, path[..n]) && IsObjectAt(patch, path[..n])
                         && Get(patch, path[..n + 1]).None?)
  {
    var n := 0;
    while n < |path| && IsObjectAt(base, path[..n]) && IsObjectAt(patch, path[..n])
      invariant 0 <= n <= |path|
      invariant n == 0 || (IsObjectAt(base, path[..n - 1]) && IsObjectAt(patch, path[..n - 1]))
    {
      n := n + 1;
    }
    assert path[..|path|] == path;
    if Get(patch, path[..n]).None? { assert path[..n] == path[..n - 1 + 1]; }
  }

  /** Merging the same patch twice is merging it once. */
  lemma {:induction false} MergeIsIdempotent(base: Json, patch: Json)
    ensures Merge(Merge(base, patch), patch) == Merge(base, patch)
    decreases patch
  {
    var once := Merge(base, patch);
    if patch.Object? {
      if base.Object? {
        forall k | k in patch.fields ensures Merge(once.fields[k], patch.fields[k]) == once.fields[k] {
          MergeIsIdempotent(if k in base.fields then base.fields[k] else Null, patch.fields[k]);
        }
      } else {
        forall k | k in patch.fields ensures Merge(patch.fields[k], patch.fields[k]) == patch.fields[k] {
          MergeIsIdempotent(Null, patch.fields[k]);
        }
      }
      assert Merge(once, patch).fields.Keys == once.fields.Keys;
    }
  }

  // ------------------------------------------------------------------ two patches in a row

  /** `later` only refines `earlier`: an object in `later` meets an object, or nothing, in `earlier`. */
  ghost predicate Refines(earlier: Json, later: Json)
    decreases later
  {
    later.Object? ==>
      && earlier.Object?
      && forall k :: k in earlier.fields && k in later.fields ==> Refines(earlier.fields[k], later.fields[k])
  }

  ghost predicate Associates(base: Json, p: Json, q: Json) {
    Merge(Merge(base, p), q) == Merge(base, Merge(p, q))
  }

  /** A scalar patch followed by an object patch: applied one after the other they clear the base's
      fields, merged first they keep them. */
  lemma MergeIsNotAssociative()
    ensures var base, p, q := Object(map["kept" := Bool(true)]), Null, Object(map["added" := Bool(true)]);
      && Merge(Merge(base, p), q) == Object(map["added" := Bool(true)])
      && Merge(base, Merge(p, q)) == Object(map["kept" := Bool(true), "added" := Bool(true)])
  {
  }

  lemma {:induction false} RefiningPatchesAssociate(base: Json, p: Json, q: Json)
    requires Refines(p, q)
    ensures Associates(base, p, q)
    decreases q
  {
    if base.Object? && q.Object? {
      var once, joined := Merge(Merge(base, p), q), Merge(base, Merge(p, q));
      assert once.fields.Keys == joined.fields.Keys;
      forall k | k in once.fields ensures once.fields[k] == joined.fields[k] {
        var below := if k in base.fields then base.fields[k] else Null;
        if k in p.fields && k in q.fields {
          RefiningPatchesAssociate(below, p.fields[k], q.fields[k]);
        } else if k in q.fields {
          assert Merge(p, q).fields[k] == Merge(Null, q.fields[k]) == q.fields[k];
        }
      }
    }
  }

  lemma {:induction false} LongerThanAll(keys: set<string>) returns (n: nat)
    ensures forall k :: k in keys ==> |k| < n
  {
    n := 0;
    if k :| k in keys {
      var m := LongerThanAll(keys - {k});
      n := if m > |k| then m else |k| + 1;
    }
  }

  /** Patches that do not refine part on some base. */
  lemma {:induction false} OtherPatchesDiffer(p: Json, q: Json) returns (base: Json)
    requires !Refines(p, q)
    ensures !Associates(base, p, q)
    decreases q
  {
    if !p.Object? {
      var n := LongerThanAll(q.fields.Keys);
      var absent := seq(n, _ => 'x');
      base := Object(map[absent := Null]);
      assert absent in Merge(base, Merge(p, q)).fields;
    } else {
      var k :| k in p.fields && k in q.fields && !Refines(p.fields[k], q.fields[k]);
      var inner := OtherPatchesDiffer(p.fields[k], q.fields[k]);
      base := Object(map[k := inner]);
      assert Merge(Merge(base, p), q).fields[k] == Merge(Merge(inner, p.fields[k]), q.fields[k]);
      assert Merge(base, Merge(p, q)).fields[k] == Merge(inner, Merge(p.fields[k], q.fields[k]));
    }
  }

  /** Applying two patches in a row is applying their merge, on every base, exactly when the later one
      refines the earlier one. */
  lemma MergeAssociatesExactly(p: Json, q: Json)
    ensures (forall base :: Associates(base, p, q)) <==> Refines(p, q)
  {
    if Refines(p, q) {
      forall base ensures Associates(base, p, q) { RefiningPatchesAssociate(base, p, q); }
    } else {
      var base := OtherPatchesDiffer(p, q);
      assert !Associates(base, p, q);
    }
  }
}
