/**
 * Machine words: where the queue's wrapping index arithmetic agrees with the unbounded indices the other modules use.
 */
module Words {
  import opened Blocks
  import ImplicitQueue

  predicate PowerOfTwo(n: nat) {
    n == 1 || (n > 1 && n % 2 == 0 && PowerOfTwo(n / 2))
  }

  lemma {:induction false} PowersDivide(a: nat, b: nat)
    requires PowerOfTwo(a) && PowerOfTwo(b) && a <= b
    ensures b % a == 0
    decreases a
  {
    if a > 1 {
      PowersDivide(a / 2, b / 2);
      var q := (b / 2) / (a / 2);
      assert b / 2 == q * (a / 2);
      assert b == q * a;
      QuotientIs(a, b, q, 0);
    }
  }

  /** `circular_less_than`, of two words of range `W`. */
  predicate CircularLess(W: nat, a: nat, b: nat)
    requires W > 0
  {
    Wrap(W, a - b) > W / 2
  }

  lemma WrapLess(W: nat, d: int)
    requires W > 0 && d < W && d + W > 0
    ensures Wrap(W, d) == if d >= 0 then d else d + W
  {
    if d >= 0 {
      WrapIs(W, d, 0, d);
    } else {
      WrapIs(W, d, -1, d + W);
    }
  }

  /**
   * Of two indices less than a lap apart, the comparison of their words is that of the indices themselves exactly when
   * the first is less than half a lap below, or at most half a lap above, the second.
   */
  lemma CircularLessIsLess(w: nat, W: nat, x: nat, y: nat)
    requires w > 0 && W == 2 * w && x < y + W && y < x + W
    ensures (CircularLess(W, Wrap(W, x), Wrap(W, y)) <==> x < y) <==> x - y <= w && y - x < w
  {
    WrapAdd(W, x, -(Wrap(W, y) as int));
    assert Wrap(W, x - Wrap(W, y)) == Wrap(W, x - y) by {
      var q := y / W;
      assert y == q * W + Wrap(W, y);
      var r := Wrap(W, x - y);
      var p := (x - y) / W;
      assert x - y == p * W + r;
      assert x - Wrap(W, y) == (p + q) * W + r;
      WrapIs(W, x - Wrap(W, y), p + q, r);
    }
    WrapLess(W, x - y);
  }

  function Signed(W: nat, a: nat): int {
    if 2 * a < W then a else a - W
  }

  /** The division of signed words: toward zero. */
  function TruncatedDiv(a: int, b: nat): int
    requires b > 0
  {
    if a >= 0 then a / b else -((-a) / b)
  }

  /** The offset of a block base from another as the code computes it, and the slot it leads to. */
  function WordLookup(W: nat, B: nat, cap: nat, tail: nat, tailBase: nat, index: nat): nat
    requires W > 0 && B > 0 && cap > 0
  {
    var base := index - Wrap(B, index);
    var offset := Wrap(W, TruncatedDiv(Signed(W, Wrap(W, base - tailBase)), B));
    Wrap(cap, Wrap(W, tail + offset))
  }

  /** The remainder by a divisor of the word range survives the wrap. */
  lemma WrapWithin(W: nat, B: nat, x: int)
    requires W > 0 && B > 0 && W % B == 0
    ensures Wrap(B, Wrap(W, x)) == Wrap(B, x)
  {
    var m := W / B;
    assert W == B * m;
    WrapAdd(W, x, 0);
    WrapCoarser(B, m, Wrap(W, x), x);
  }

  lemma SignedIs(W: nat, d: int)
    requires W > 0 && 2 * d < W && 2 * d + W >= 0
    ensures Signed(W, Wrap(W, d)) == d
  {
    WrapLess(W, d);
  }

  lemma TruncatedIs(B: nat, q: int)
    requires B > 0
    ensures TruncatedDiv(q * B, B) == q
  {
    if q >= 0 {
      MulStep(q, B);
      QuotientIs(B, q * B, q, 0);
    } else {
      MulStep(-q, B);
      assert -(q * B) == (-q) * B;
      QuotientIs(B, -(q * B), -q, 0);
    }
  }

  /** The base of a block, subtracted from another as words. */
  lemma BaseDifference(W: nat, B: nat, x: nat, m: nat)
    requires W > 0 && B > 0 && W % B == 0
    ensures Wrap(W, Wrap(W, x) - Wrap(B, Wrap(W, x)) - Wrap(W, Base(B, m))) == Wrap(W, (BlockNo(B, x) - m) * B)
  {
    hide Wrap, Base, BlockNo;
    WrapWithin(W, B, x);
    var k, o := BlockNo(B, x), Slot(B, x);
    Join(B, x);
    SlotIsWrap(B, x);
    var u := Wrap(W, Base(B, m));
    WrapAdd(W, x, -((o + u) as int));
    SubtractWrapped(W, x - o, Base(B, m));
    BaseDiff(B, k, m);
  }

  lemma BaseDiff(B: nat, k: nat, m: nat)
    ensures Base(B, k) - Base(B, m) == (k - m) * B
  {
    MulDiff(B, m, k);
  }

  lemma SlotIsWrap(B: nat, x: nat)
    requires B > 0
    ensures Slot(B, x) == Wrap(B, x)
  {
  }

  lemma SubtractWrapped(W: nat, a: int, b: int)
    requires W > 0
    ensures Wrap(W, a - Wrap(W, b)) == Wrap(W, a - b)
  {
    var q, p := b / W, (a - b) / W;
    var r := Wrap(W, a - b);
    assert b == q * W + Wrap(W, b) && a - b == p * W + r;
    assert a - Wrap(W, b) == (p + q) * W + r;
    WrapIs(W, a - Wrap(W, b), p + q, r);
  }

  /**
   * For power-of-two block and index sizes, the slot computed from wrapped words is the one computed from unbounded
   * indices, as long as the two block bases are less than half a word range apart: across the wrap-around, and for
   * blocks behind the tail too.
   */
  lemma WordLookupIsLookup(W: nat, B: nat, cap: nat, tail: nat, x: nat, m: nat)
    requires PowerOfTwo(W) && PowerOfTwo(B) && PowerOfTwo(cap) && 0 < B <= W && 0 < cap <= W
    requires var d := (BlockNo(B, x) - m) * B; 2 * d < W && 2 * d + W >= 0
    ensures WordLookup(W, B, cap, tail, Wrap(W, Base(B, m)), Wrap(W, x))
      == ImplicitQueue.Lookup(B, cap, tail, Base(B, m), x)
  {
    hide Wrap, Base, BlockNo, PowerOfTwo, Signed, TruncatedDiv;
    PowersDivide(B, W);
    PowersDivide(cap, W);
    var k := BlockNo(B, x);
    BaseDifference(W, B, x, m);
    SignedIs(W, (k - m) * B);
    TruncatedIs(B, k - m);
    BaseDiff(B, k, m);
    QuotientIs(B, (k - m) * B, k - m, 0);
    WrapWithin(W, cap, tail + Wrap(W, k - m));
    WrapAdd(W, k - m, tail);
    WrapWithin(W, cap, Wrap(W, k - m) + tail);
    WrapWithin(W, cap, k - m + tail);
  }
}
