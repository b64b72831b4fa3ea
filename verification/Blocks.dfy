/** Arithmetic of indices laid out in blocks of `B` elements, and of circular positions. */
module Blocks {

  function BlockNo(B: nat, x: nat): nat
    requires B > 0
  {
    x / B
  }

  function Slot(B: nat, x: nat): (o: nat)
    requires B > 0
    ensures o < B
  {
    x % B
  }

  function Base(B: nat, k: nat): nat {
    k * B
  }

  /** The number of blocks that indices below `x` reach into. */
  function Ceil(B: nat, x: nat): nat
    requires B > 0
  {
    (x + B - 1) / B
  }

  lemma MulStep(k: int, B: nat)
    ensures k > 0 ==> k * B >= B
    ensures k >= 0 ==> k * B >= 0
  {
    if k > 0 {
      assert (k - 1) * B >= 0;
    }
  }

  lemma MulDiff(B: nat, a: int, b: int)
    ensures b * B - a * B == (b - a) * B
    ensures a < b ==> a * B + B <= b * B
    ensures a <= b ==> a * B <= b * B
  {
    MulStep(b - a, B);
  }

  lemma Join(B: nat, x: nat)
    requires B > 0
    ensures x == Base(B, BlockNo(B, x)) + Slot(B, x)
  {
  }

  lemma QuotientIs(B: nat, x: int, q: int, r: int)
    requires B > 0 && 0 <= r < B && x == q * B + r
    ensures x / B == q && x % B == r
  {
    var q' := x / B;
    assert x == q' * B + x % B;
    MulDiff(B, q, q');
    MulDiff(B, q', q);
  }

  lemma Parts(B: nat, k: nat, o: nat)
    requires o < B
    ensures BlockNo(B, Base(B, k) + o) == k && Slot(B, Base(B, k) + o) == o
  {
    QuotientIs(B, k * B + o, k, o);
  }

  lemma BlockOf(B: nat, k: nat, x: nat)
    requires B > 0
    ensures BlockNo(B, x) == k <==> Base(B, k) <= x < Base(B, k) + B
    ensures Base(B, k + 1) == Base(B, k) + B
  {
    if Base(B, k) <= x < Base(B, k) + B {
      Parts(B, k, x - Base(B, k));
    }
    MulDiff(B, k, k + 1);
    assert (k + 1) * B == k * B + B;
  }

  lemma SameBlock(B: nat, x: nat, y: nat)
    requires B > 0 && x <= y && y < Base(B, BlockNo(B, x) + 1)
    ensures BlockNo(B, y) == BlockNo(B, x) && Slot(B, y) == Slot(B, x) + (y - x)
  {
    var k := BlockNo(B, x);
    BlockOf(B, k, x);
    BlockOf(B, k, y);
    Join(B, x);
    Join(B, y);
  }

  lemma Monotone(B: nat, x: nat, y: nat)
    requires B > 0 && x <= y
    ensures BlockNo(B, x) <= BlockNo(B, y)
  {
    Join(B, x);
    Join(B, y);
    MulDiff(B, BlockNo(B, y), BlockNo(B, x));
  }

  lemma CeilBounds(B: nat, x: nat)
    requires B > 0
    ensures Base(B, Ceil(B, x)) < x + B && x <= Base(B, Ceil(B, x))
  {
    BlockOf(B, Ceil(B, x), x + B - 1);
  }

  lemma CeilSplits(B: nat, x: nat, y: nat)
    requires B > 0
    ensures y < x ==> BlockNo(B, y) < Ceil(B, x)
    ensures y >= x ==> BlockNo(B, y) + 1 >= Ceil(B, x)
    ensures Ceil(B, x) <= BlockNo(B, y) ==> x <= y
  {
    hide Ceil, BlockNo, Base;
    CeilBounds(B, x);
    BaseOrder(B, x, y);
  }

  lemma BaseOrder(B: nat, x: nat, y: nat)
    requires B > 0 && Base(B, Ceil(B, x)) < x + B && x <= Base(B, Ceil(B, x))
    ensures y < x ==> BlockNo(B, y) < Ceil(B, x)
    ensures y >= x ==> BlockNo(B, y) + 1 >= Ceil(B, x)
    ensures Ceil(B, x) <= BlockNo(B, y) ==> x <= y
  {
    hide Ceil;
    var c, k := Ceil(B, x), BlockNo(B, y);
    BlockOf(B, k, y);
    MulDiff(B, c, k);
    MulDiff(B, k + 2, c);
  }

  lemma CeilMonotone(B: nat, x: nat, y: nat)
    requires B > 0 && x <= y
    ensures Ceil(B, x) <= Ceil(B, y)
  {
    Monotone(B, x + B - 1, y + B - 1);
  }

  lemma PartBlock(B: nat, x: nat)
    requires B > 0
    ensures Slot(B, x) != 0 ==> Ceil(B, x) == BlockNo(B, x) + 1
    ensures Slot(B, x) == 0 ==> Ceil(B, x) == BlockNo(B, x) && x == Base(B, BlockNo(B, x))
  {
    Join(B, x);
    if Slot(B, x) != 0 {
      QuotientIs(B, x + B - 1, BlockNo(B, x) + 1, Slot(B, x) - 1);
    } else {
      QuotientIs(B, x + B - 1, BlockNo(B, x), B - 1);
    }
  }

  // ---------------------------------------------------------------- circular positions

  function Wrap(cap: nat, p: int): (r: nat)
    requires cap > 0
    ensures r < cap
  {
    p % cap
  }

  lemma WrapIs(cap: nat, p: int, q: int, r: nat)
    requires cap > 0 && r < cap && p == q * cap + r
    ensures Wrap(cap, p) == r
  {
    var q' := p / cap;
    assert p == q' * cap + p % cap;
    MulDiff(cap, q, q');
    MulDiff(cap, q', q);
  }

  lemma WrapSmall(cap: nat, p: nat)
    requires p < cap
    ensures Wrap(cap, p) == p
  {
  }

  lemma WrapAdd(cap: nat, a: int, d: int)
    requires cap > 0
    ensures Wrap(cap, Wrap(cap, a) + d) == Wrap(cap, a + d)
  {
    var w := Wrap(cap, a);
    var q := a / cap;
    var q' := (w + d) / cap;
    assert w + d == q' * cap + Wrap(cap, w + d);
    assert a + d == (q + q') * cap + Wrap(cap, w + d);
    WrapIs(cap, a + d, q + q', Wrap(cap, w + d));
  }

  lemma WrapShift(cap: nat, a: int, b: int, d: int)
    requires cap > 0 && Wrap(cap, a) == Wrap(cap, b)
    ensures Wrap(cap, a + d) == Wrap(cap, b + d)
  {
    WrapAdd(cap, a, d);
    WrapAdd(cap, b, d);
  }

  /** Positions within one lap of each other are different slots. */
  lemma WrapApart(cap: nat, a: int, b: int)
    requires cap > 0
    ensures a <= b < a + cap && Wrap(cap, a) == Wrap(cap, b) ==> a == b
  {
    if a <= b < a + cap && Wrap(cap, a) == Wrap(cap, b) {
      var q, q' := a / cap, b / cap;
      assert b - a == (q' - q) * cap;
      MulDiff(cap, q', q);
      MulDiff(cap, q, q');
    }
  }

  lemma WrapLap(cap: nat, a: int)
    requires cap > 0
    ensures Wrap(cap, a + cap) == Wrap(cap, a)
  {
    var q := a / cap;
    assert a + cap == (q + 1) * cap + Wrap(cap, a);
    WrapIs(cap, a + cap, q + 1, Wrap(cap, a));
  }

  /** Congruence modulo a multiple is congruence. */
  lemma WrapCoarser(cap: nat, m: nat, a: int, b: int)
    requires cap > 0 && m > 0 && cap * m > 0 && Wrap(cap * m, a) == Wrap(cap * m, b)
    ensures Wrap(cap, a) == Wrap(cap, b)
  {
    var c := cap * m;
    var q, q' := a / c, b / c;
    var d := m * (q - q');
    assert a - b == (q - q') * c;
    assert (q - q') * c == (q - q') * (m * cap);
    assert (q - q') * (m * cap) == d * cap;
    assert a == (b / cap + d) * cap + Wrap(cap, b);
    WrapIs(cap, a, b / cap + d, Wrap(cap, b));
  }
}
