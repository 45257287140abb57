/** An optional value, and sizes of finite sets. */
module Common {

  datatype Option<+T> = None | Some(value: T)

  lemma {:induction false} SubsetSize<T>(a: set<T>, b: set<T>)
    requires a <= b
    ensures |a| <= |b|
    ensures |a| == |b| ==> a == b
  {
    assert |b - a| == |b| - |a|;
    assert b == a + (b - a);
  }

  /** There is always another number. */
  lemma {:induction false} Unused(used: set<nat>) returns (n: nat)
    ensures n !in used
  {
    n := Above(used);
  }

  lemma {:induction false} Above(used: set<nat>) returns (top: nat)
    ensures forall n :: n in used ==> n < top
    decreases used
  {
    top := 0;
    if used != {} {
      var n :| n in used;
      top := Above(used - {n});
      assert forall m :: m in used ==> m == n || m in used - {n};
      top := if top <= n then n + 1 else top;
    }
  }
}
