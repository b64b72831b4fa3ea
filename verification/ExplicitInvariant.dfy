/** What holds of an explicit producer at every step, and when a step leaves what a consumer relies on alone. */
module ExplicitInvariant {
  import opened Common
  import opened Blocks
  import C = DequeueCounters
  import opened Claims
  import opened ExplicitQueue

  // ---------------------------------------------------------------- block indices

  /** The slot of block number `k` in index `g`. */
  function Pos(g: Index, k: int): (p: nat)
    requires g.size > 0
    ensures p < g.size
  {
    Wrap(g.size, k + g.off)
  }

  ghost predicate Entered(B: nat, g: Index, blockOf: seq<nat>, k: nat) {
    && g.size > 0 && |g.entries| == g.size && k < |blockOf|
    && g.entries[Pos(g, k)] == Entry(Base(B, k), Some(blockOf[k]))
  }

  /** Slot `f` has the base of a block number that belongs there: reading it as the front is safe. */
  ghost predicate Vis(B: nat, g: Index, f: int) {
    && B > 0 && g.size > 0 && |g.entries| == g.size && 0 <= f < g.size
    && Slot(B, g.entries[f].base) == 0 && Pos(g, BlockNo(B, g.entries[f].base)) == f
  }

  /** How many block numbers have their entry in the published index. */
  function Written<V>(p: Prod<V>, nb: nat): nat {
    if (p.EReset? || p.EWrite?) && nb > 0 then nb - 1 else nb
  }

  /** How many of those the front covers. */
  function Fronted<V>(p: Prod<V>, nb: nat): nat {
    if (p.EReset? || p.EWrite? || p.EFront?) && nb > 0 then nb - 1 else nb
  }

  /** The published index lists the ring, oldest to newest, in its last `used` slots, with consecutive bases. */
  ghost predicate Lists(B: nat, g: Index, prFront: nat, used: nat, blockOf: seq<nat>, written: nat, fronted: nat) {
    && g.size > 0 && |g.entries| == g.size && used <= |blockOf| && used <= g.size
    && prFront == Pos(g, fronted) && fronted <= written <= |blockOf|
    && (fronted > 0 ==> g.front == Pos(g, fronted - 1))
    && forall k :: |blockOf| - used <= k < written ==> Entered(B, g, blockOf, k)
  }

  // ---------------------------------------------------------------- the ring

  function After(n: nat, i: nat): nat {
    if i + 1 < n then i + 1 else 0
  }

  /** The ring is the last blocks started, oldest first, each once. */
  ghost predicate Order(ring: seq<nat>, blockOf: seq<nat>) {
    && |ring| <= |blockOf|
    && (forall i :: 0 <= i < |ring| ==> ring[i] == blockOf[|blockOf| - |ring| + i])
    && forall i, j :: 0 <= i < j < |ring| ==> ring[i] != ring[j]
  }

  ghost predicate Links<V>(blocks: seq<Block<V>>, ring: seq<nat>) {
    forall i :: 0 <= i < |ring| ==> ring[i] < |blocks| && blocks[ring[i]].next == ring[After(|ring|, i)]
  }

  ghost predicate RingOk<V>(blocks: seq<Block<V>>, ring: seq<nat>, tailBlock: Option<nat>, used: nat,
      blockOf: seq<nat>) {
    && |ring| == used && Order(ring, blockOf) && Links(blocks, ring)
    && tailBlock == if used == 0 then None else Some(ring[used - 1])
  }

  /** Every block is in the pool or in the ring. */
  ghost predicate Owns(n: nat, free: set<nat>, ring: seq<nat>) {
    && (forall id :: id in free ==> id < n)
    && (forall id :: id in ring ==> id < n && id !in free)
    && forall id :: 0 <= id < n ==> id in free || id in ring
  }

  /**
   * What the slot of index `x` holds: a published value until it is delivered, the one being enqueued beyond the tail.
   */
  function Content<V>(tail: nat, enq: seq<V>, out: map<nat, V>, p: Prod<V>, x: nat): Option<V>
    requires |enq| == tail
  {
    if x < tail then (if x in out then None else Some(enq[x]))
    else if x == tail && p.EPublish? then Some(p.v)
    else None
  }

  ghost predicate Filled<V>(B: nat, blocks: seq<Block<V>>, used: nat, blockOf: seq<nat>, doneIn: seq<set<nat>>,
      tail: nat, enq: seq<V>, out: map<nat, V>, p: Prod<V>) {
    && |blockOf| == |doneIn| && |enq| == tail && used <= |blockOf|
    && forall k :: |blockOf| - used <= k < |blockOf| ==>
         && blockOf[k] < |blocks| && |blocks[blockOf[k]].cells| == B
         && ((p.EReset? && k == |blockOf| - 1) || blocks[blockOf[k]].emptied == doneIn[k])
         && forall o :: 0 <= o < B ==> blocks[blockOf[k]].cells[o] == Content(tail, enq, out, p, Base(B, k) + o)
  }

  /**
   * Completely dequeued slots were delivered; delivered values are the ones enqueued; blocks out of the ring are done.
   */
  ghost predicate Marks<V>(B: nat, used: nat, doneIn: seq<set<nat>>, out: map<nat, V>, enq: seq<V>, head: nat) {
    && (forall x :: x in out ==> x < head && x < |enq| && out[x] == enq[x])
    && (forall k, o :: 0 <= k < |doneIn| && o in doneIn[k] ==> o < B && Base(B, k) + o in out)
    && forall k :: 0 <= k < |doneIn| - used ==> doneIn[k] == Range(0, B)
  }

  // ---------------------------------------------------------------- consumers

  /**
   * Consumer `t` has claimed up to `e`, is done below `i`, with nothing from `i` on, and has taken nothing from `u` on.
   */
  ghost predicate Claim<V>(s: State<V>, t: nat, i: nat, u: nat, e: nat)
    requires s.B > 0
  {
    && t < |s.c.threads| && s.c.threads[t].Claimed?
    && e == s.c.threads[t].first + s.c.threads[t].a && s.c.threads[t].first <= i <= u <= e
    && (forall x :: s.c.threads[t].first <= x < i ==> Fin(s.B, s.doneIn, x))
    && (forall x :: i <= x < e ==> !Fin(s.B, s.doneIn, x))
    && (forall x :: i <= x < u ==> x in s.out)
    && (forall x :: u <= x < e ==> x !in s.out)
  }

  /** Index `hd` has the entries of all of `[i, e)`. */
  ghost predicate Reaches<V>(s: State<V>, hd: nat, i: nat, e: nat)
    requires s.B > 0
  {
    && hd < |s.indices| && s.indices[hd].size > 0 && |s.indices[hd].entries| == s.indices[hd].size
    && forall x :: i <= x < e ==> Entered(s.B, s.indices[hd], s.blockOf, BlockNo(s.B, x))
  }

  /** The consumer claimed nothing, and goes through the block loop once all the same. */
  predicate EmptyHanded(r: Reader) {
    match r
    case NotReading => false
    case LoadIndex(i, e) => i == e
    case LoadFront(i, e, _) => i == e
    case LoadBase(i, e, _, _) => i == e
    case LoadBlock(i, e, _, _) => i == e
    case Take(i0, i, e, _, _, _) => i0 == i == e
  }

  /** The claim of no indices that consumer `t` holds. */
  ghost predicate Nothing<V>(s: State<V>, t: nat, r: Reader)
    requires t < |s.c.threads|
  {
    EmptyHanded(r) && s.c.threads[t].Claimed? && s.c.threads[t].a == 0 && r.e == s.c.threads[t].first
  }

  ghost predicate ReaderOk<V>(s: State<V>, t: nat, r: Reader)
    requires s.B > 0 && t < |s.c.threads|
  {
    if EmptyHanded(r) then Nothing(s, t, r) else Working(s, t, r)
  }

  ghost predicate Working<V>(s: State<V>, t: nat, r: Reader)
    requires s.B > 0 && t < |s.c.threads|
  {
    match r
    case NotReading => !s.c.threads[t].Claimed?
    case LoadIndex(i, e) => i < e && Claim(s, t, i, i, e)
    case LoadFront(i, e, hd) =>
      i < e && Claim(s, t, i, i, e) && Reaches(s, hd, i, e) && Vis(s.B, s.indices[hd], s.indices[hd].front)
    case LoadBase(i, e, hd, f) => i < e && Claim(s, t, i, i, e) && Reaches(s, hd, i, e) && Vis(s.B, s.indices[hd], f)
    case LoadBlock(i, e, hd, idx) =>
      i < e && Claim(s, t, i, i, e) && Reaches(s, hd, i, e) && idx == Pos(s.indices[hd], BlockNo(s.B, i))
    case Take(i0, i, e, hd, idx, b) =>
      && i0 < e && i <= Base(s.B, BlockNo(s.B, i0) + 1)
      && Claim(s, t, i0, i, e) && Reaches(s, hd, i0, e)
      && idx == Pos(s.indices[hd], BlockNo(s.B, i0))
      && BlockNo(s.B, i0) < |s.blockOf| && b == s.blockOf[BlockNo(s.B, i0)]
  }

  ghost predicate Readers<V>(s: State<V>)
    requires s.B > 0
  {
    |s.readers| == |s.c.threads| && forall t :: 0 <= t < |s.readers| ==> ReaderOk(s, t, s.readers[t])
  }

  // ---------------------------------------------------------------- the producer

  /** How many block numbers have been started, by the producer's place. */
  ghost predicate ProdOk<V>(s: State<V>)
    requires s.Wf()
  {
    var nb, b := |s.blockOf|, Slot(s.B, s.c.tail) == 0;
    match s.prod
    case EIdle => nb == s.K0()
    case ENext(_) => b && nb == s.K0()
    case EHead(_) => b && nb == s.K0()
    case EGrow(_) => b && nb == s.K0() && s.used == s.indices[s.Cur()].size
    case ETake(_) => b && nb == s.K0() && s.used < s.indices[s.Cur()].size
    case EReset(_) => b && nb == s.K0() + 1
    case EWrite(_) => b && nb == s.K0() + 1
    case EFront(_) => b && nb == s.K0() + 1
    case EBuild(_) => nb == BlockNo(s.B, s.c.tail) + 1
    case EPublish(_) => nb == BlockNo(s.B, s.c.tail) + 1
  }

  ghost predicate Sized(gs: seq<Index>) {
    |gs| > 0 && forall g :: 0 <= g < |gs| ==> gs[g].size > 0 && |gs[g].entries| == gs[g].size
  }

  ghost predicate Inv<V>(s: State<V>) {
    && s.Wf() && C.Inv(s.c) && |s.enq| == s.c.tail
    && Lists(s.B, s.indices[s.Cur()], s.prFront, s.used, s.blockOf, Written(s.prod, |s.blockOf|),
         Fronted(s.prod, |s.blockOf|))
    && RingOk(s.blocks, s.ring, s.tailBlock, s.used, s.blockOf)
    && (s.blockOf != [] ==> s.used > 0)
    && Owns(|s.blocks|, s.free, s.ring)
    && Filled(s.B, s.blocks, s.used, s.blockOf, s.doneIn, s.c.tail, s.enq, s.out, s.prod)
    && Marks(s.B, s.used, s.doneIn, s.out, s.enq, s.c.head)
    && Taken(s.B, s.c, s.doneIn)
    && Readers(s)
    && ProdOk(s)
  }

  lemma Pieces<V>(s: State<V>)
    requires Inv(s)
    ensures s.Wf() && C.Inv(s.c) && |s.enq| == s.c.tail && |s.c.owner| == s.c.head
    ensures Lists(s.B, s.indices[s.Cur()], s.prFront, s.used, s.blockOf, Written(s.prod, |s.blockOf|),
      Fronted(s.prod, |s.blockOf|))
    ensures RingOk(s.blocks, s.ring, s.tailBlock, s.used, s.blockOf) && (s.blockOf != [] ==> s.used > 0)
    ensures Owns(|s.blocks|, s.free, s.ring)
    ensures Filled(s.B, s.blocks, s.used, s.blockOf, s.doneIn, s.c.tail, s.enq, s.out, s.prod)
    ensures Marks(s.B, s.used, s.doneIn, s.out, s.enq, s.c.head)
    ensures Taken(s.B, s.c, s.doneIn) && Readers(s) && ProdOk(s)
  {
    hide C.Inv, Lists, RingOk, Owns, Filled, Marks, Readers, ProdOk, Fin, Written, Fronted;
  }

  // ---------------------------------------------------------------- positions

  lemma LookupIsPos(B: nat, g: Index, f: nat, i: nat)
    requires Vis(B, g, f)
    ensures Lookup(B, g.size, f, g.entries[f].base, i) == Pos(g, BlockNo(B, i))
  {
    var x := g.entries[f].base;
    var m, k := BlockNo(B, x), BlockNo(B, i);
    Join(B, x);
    MulDiff(B, m, k);
    QuotientIs(B, Base(B, k) - x, k - m, 0);
    WrapAdd(g.size, m + g.off, k - m);
  }

  lemma EnteredIsVis(B: nat, g: Index, blockOf: seq<nat>, k: nat)
    requires B > 0 && Entered(B, g, blockOf, k)
    ensures Vis(B, g, Pos(g, k))
  {
    Parts(B, k, 0);
    assert Base(B, k) + 0 == Base(B, k);
    hide Wrap, Base;
  }

  lemma PosNext(g: Index, k: int)
    requires g.size > 0
    ensures Wrap(g.size, Pos(g, k) + 1) == Pos(g, k + 1)
  {
    WrapAdd(g.size, k + g.off, 1);
  }

  lemma PosApart(g: Index, a: int, b: int)
    requires g.size > 0 && a < b < a + g.size
    ensures Pos(g, a) != Pos(g, b)
  {
    WrapApart(g.size, a + g.off, b + g.off);
  }

  // ---------------------------------------------------------------- frames

  ghost predicate SameClaim<V>(s: State<V>, z: State<V>, t: nat)
    requires s.B > 0 && z.B == s.B
  {
    forall x :: 0 <= x < |s.c.owner| && s.c.owner[x] == t ==>
      (Fin(s.B, s.doneIn, x) <==> Fin(s.B, z.doneIn, x)) && (x in s.out <==> x in z.out)
  }

  /** Entries a consumer may still need, and slots fit to be read as a front, stay so in every index. */
  ghost predicate IndicesKept(B: nat, low: int, k0: nat, gs: seq<Index>, blockOf: seq<nat>, zs: seq<Index>,
      zblockOf: seq<nat>) {
    && |gs| <= |zs| && blockOf <= zblockOf
    && (forall g :: 0 <= g < |gs| ==>
          zs[g].size == gs[g].size && zs[g].off == gs[g].off && |zs[g].entries| == |gs[g].entries|)
    && (forall g, k: nat :: 0 <= g < |gs| && low <= k < k0 && Entered(B, gs[g], blockOf, k) ==>
         Entered(B, zs[g], zblockOf, k))
    && (forall g, f :: 0 <= g < |gs| && Vis(B, gs[g], f) ==> Vis(B, zs[g], f))
  }

  lemma ClaimFrame<V>(s: State<V>, z: State<V>, t: nat, i: nat, u: nat, e: nat)
    requires s.B > 0 && z.B == s.B && C.Inv(s.c) && Claim(s, t, i, u, e) && SameClaim(s, z, t)
    requires t < |z.c.threads| && z.c.threads[t] == s.c.threads[t]
    ensures Claim(z, t, i, u, e)
  {
    forall x
      ensures s.c.threads[t].first <= x < e ==> x < s.c.head && s.c.owner[x] == t
    {
      C.ClaimOwner(s.c, t, if x >= 0 then x else 0);
    }
    hide C.Inv, Fin;
  }

  /** A claimed index not completely dequeued is of a block number in the ring, below the tail. */
  lemma ClaimInRing<V>(s: State<V>, t: nat, i: nat, u: nat, e: nat, x: nat)
    requires s.B > 0 && C.Inv(s.c) && Claim(s, t, i, u, e) && i <= x < e
    requires Marks(s.B, s.used, s.doneIn, s.out, s.enq, s.c.head)
    ensures x < s.c.head <= s.c.tail && x < |s.c.owner| && s.c.owner[x] == t
    ensures BlockNo(s.B, x) < s.K0() && |s.doneIn| - s.used <= BlockNo(s.B, x)
  {
    C.ClaimOwner(s.c, t, x);
    C.NeverOverClaims(s.c);
    CeilSplits(s.B, s.c.tail, x);
    assert Slot(s.B, x) in Range(0, s.B);
    assert !Fin(s.B, s.doneIn, x);
    hide C.Inv, Ceil, Base;
  }

  lemma ReachesFrame<V>(s: State<V>, z: State<V>, t: nat, hd: nat, i: nat, u: nat, e: nat)
    requires s.B > 0 && z.B == s.B && C.Inv(s.c) && Claim(s, t, i, u, e) && Reaches(s, hd, i, e)
    requires Marks(s.B, s.used, s.doneIn, s.out, s.enq, s.c.head)
    requires IndicesKept(s.B, |s.doneIn| - s.used, s.K0(), s.indices, s.blockOf, z.indices, z.blockOf)
    ensures Reaches(z, hd, i, e)
  {
    forall x: nat | i <= x < e
      ensures Entered(z.B, z.indices[hd], z.blockOf, BlockNo(s.B, x))
    {
      ClaimInRing(s, t, i, u, e, x);
      assert Entered(s.B, s.indices[hd], s.blockOf, BlockNo(s.B, x));
      hide Entered, Claim, C.Inv, Marks, Vis, Ceil, BlockNo;
    }
    hide Claim, C.Inv, Marks, Vis;
  }

  lemma ReaderFrame<V>(s: State<V>, z: State<V>, t: nat, r: Reader)
    requires s.B > 0 && z.B == s.B && C.Inv(s.c) && t < |s.c.threads| && ReaderOk(s, t, r)
    requires Marks(s.B, s.used, s.doneIn, s.out, s.enq, s.c.head)
    requires IndicesKept(s.B, |s.doneIn| - s.used, s.K0(), s.indices, s.blockOf, z.indices, z.blockOf)
    requires t < |z.c.threads| && z.c.threads[t] == s.c.threads[t] && SameClaim(s, z, t)
    requires r.LoadFront? && r.i < r.e && r.hd < |z.indices| ==> Vis(z.B, z.indices[r.hd], z.indices[r.hd].front)
    ensures ReaderOk(z, t, r)
  {
    hide C.Inv, Claim, Entered, Vis, BlockNo, Ceil, Base, Marks, SameClaim, Wrap;
    if EmptyHanded(r) { return; }
    match r
    case NotReading =>
    case LoadIndex(i, e) => ClaimFrame(s, z, t, i, i, e);
    case LoadFront(i, e, hd) => ClaimFrame(s, z, t, i, i, e); ReachesFrame(s, z, t, hd, i, i, e);
    case LoadBase(i, e, hd, f) => ClaimFrame(s, z, t, i, i, e); ReachesFrame(s, z, t, hd, i, i, e);
    case LoadBlock(i, e, hd, idx) => ClaimFrame(s, z, t, i, i, e); ReachesFrame(s, z, t, hd, i, i, e);
    case Take(i0, i, e, hd, idx, b) => ClaimFrame(s, z, t, i0, i, e); ReachesFrame(s, z, t, hd, i0, i, e);
  }

  /** The front of every index a consumer is about to read it from is fit to be read. */
  ghost predicate FrontsFit<V>(z: State<V>, readers: seq<Reader>) {
    forall t :: 0 <= t < |readers| && readers[t].LoadFront? && readers[t].i < readers[t].e
                && readers[t].hd < |z.indices| ==>
      Vis(z.B, z.indices[readers[t].hd], z.indices[readers[t].hd].front)
  }
}
