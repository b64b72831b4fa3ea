/** Values shared by several components. */
module Common {
  datatype Option<+T> = None | Some(value: T)

  /** The `n` numbers from `o` on. */
  function Range(o: nat, n: nat): (r: set<nat>)
    ensures |r| == n
    ensures forall x :: x in r <==> o <= x < o + n
  {
    if n == 0 then {} else Range(o, n - 1) + {o + n - 1}
  }

  lemma SubsetSize(a: set<nat>, b: set<nat>)
    requires a <= b
    ensures |a| <= |b|
    ensures |a| == |b| ==> a == b
  {
    if a != {} {
      var x :| x in a;
      SubsetSize(a - {x}, b - {x});
    }
  }
}
