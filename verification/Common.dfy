/** Shared vocabulary: optional values, machine-word arithmetic, sizes of sets. */
module Common {

  datatype Option<+T> = None | Some(value: T)

  const USIZE_MAX: nat := 0xFFFF_FFFF_FFFF_FFFF

  function Min(x: nat, y: nat): nat { if x <= y then x else y }

  function Max(x: nat, y: nat): nat { if x >= y then x else y }

  function SaturatingAdd(x: nat, y: nat): nat { Min(x + y, USIZE_MAX) }

  lemma SubsetIsSmaller<T>(a: set<T>, b: set<T>)
    requires a <= b
    ensures |a| <= |b| && (a != b ==> |a| < |b|)
  {
    assert b == a + (b - a);
  }
}
