/** Every step of an explicit producer and of its consumers keeps the invariant. */
module ExplicitSteps {
  import opened Common
  import opened Blocks
  import C = DequeueCounters
  import opened Claims
  import opened ExplicitQueue
  import opened ExplicitInvariant

  // ---------------------------------------------------------------- putting the pieces together

  /** After a step of the producer. */
  lemma ProdAssemble<V>(s: State<V>, z: State<V>)
    requires Inv(s) && z.Wf() && ProdOk(z) && z.B == s.B && z.c == s.c && z.readers == s.readers && z.enq == s.enq
      && z.out == s.out
    requires Lists(z.B, z.indices[z.Cur()], z.prFront, z.used, z.blockOf, Written(z.prod, |z.blockOf|),
      Fronted(z.prod, |z.blockOf|))
    requires RingOk(z.blocks, z.ring, z.tailBlock, z.used, z.blockOf) && (z.blockOf != [] ==> z.used > 0)
    requires Owns(|z.blocks|, z.free, z.ring)
    requires Filled(z.B, z.blocks, z.used, z.blockOf, z.doneIn, z.c.tail, z.enq, z.out, z.prod)
    requires Marks(z.B, z.used, z.doneIn, z.out, z.enq, z.c.head)
    requires SameFin(s.B, s.doneIn, z.doneIn)
    requires IndicesKept(s.B, |s.doneIn| - s.used, s.K0(), s.indices, s.blockOf, z.indices, z.blockOf)
      && FrontsFit(z, s.readers)
    ensures Inv(z)
  {
    hide Inv, C.Inv, Lists, RingOk, Owns, Filled, Marks, ProdOk, IndicesKept, FrontsFit, Fin, Written, Fronted, Ceil,
         ReaderOk;
    Pieces(s);
    forall t | 0 <= t < |s.readers|
      ensures ReaderOk(z, t, z.readers[t])
    {
      FrontAt(z, s.readers, t);
      ReaderFrame(s, z, t, s.readers[t]);
    }
    ProdInv(s, z);
  }

  lemma FrontAt<V>(z: State<V>, readers: seq<Reader>, t: nat)
    requires FrontsFit(z, readers) && t < |readers|
    ensures readers[t].LoadFront? && readers[t].i < readers[t].e && readers[t].hd < |z.indices| ==>
      Vis(z.B, z.indices[readers[t].hd], z.indices[readers[t].hd].front)
  {
  }

  lemma ProdInv<V>(s: State<V>, z: State<V>)
    requires s.Wf() && C.Inv(s.c) && |s.enq| == s.c.tail && Taken(s.B, s.c, s.doneIn)
    requires z.Wf() && Readers(z) && ProdOk(z) && z.B == s.B && z.c == s.c && z.enq == s.enq
    requires Lists(z.B, z.indices[z.Cur()], z.prFront, z.used, z.blockOf, Written(z.prod, |z.blockOf|),
      Fronted(z.prod, |z.blockOf|))
    requires RingOk(z.blocks, z.ring, z.tailBlock, z.used, z.blockOf) && (z.blockOf != [] ==> z.used > 0)
    requires Owns(|z.blocks|, z.free, z.ring)
    requires Filled(z.B, z.blocks, z.used, z.blockOf, z.doneIn, z.c.tail, z.enq, z.out, z.prod)
    requires Marks(z.B, z.used, z.doneIn, z.out, z.enq, z.c.head)
    requires SameFin(s.B, s.doneIn, z.doneIn)
    ensures Inv(z)
  {
    hide C.Inv, Lists, RingOk, Owns, Filled, Marks, ProdOk, Fin, Written, Fronted, Readers;
  }

  lemma IndicesStay(B: nat, low: int, k0: nat, gs: seq<Index>, blockOf: seq<nat>, zblockOf: seq<nat>)
    requires blockOf <= zblockOf
    ensures IndicesKept(B, low, k0, gs, blockOf, gs, zblockOf)
  {
    hide Pos, Base, Vis;
  }

  lemma FrontsStay<V>(s: State<V>, z: State<V>)
    requires s.B > 0 && Readers(s) && z.B == s.B && |s.indices| <= |z.indices|
    requires forall g :: 0 <= g < |s.indices| ==> z.indices[g].front == s.indices[g].front
    requires forall g, f :: 0 <= g < |s.indices| && Vis(s.B, s.indices[g], f) ==> Vis(s.B, z.indices[g], f)
    ensures FrontsFit(z, s.readers)
  {
    hide Claim, Vis, Entered;
    forall t | 0 <= t < |s.readers| && s.readers[t].LoadFront? && s.readers[t].i < s.readers[t].e
               && s.readers[t].hd < |z.indices|
      ensures Vis(z.B, z.indices[s.readers[t].hd], z.indices[s.readers[t].hd].front)
    {
      assert ReaderOk(s, t, s.readers[t]);
    }
  }

  /** When the indices do not change at all. */
  lemma SameIndices<V>(s: State<V>, z: State<V>)
    requires Inv(s) && z.B == s.B && z.indices == s.indices && s.blockOf <= z.blockOf
    ensures IndicesKept(s.B, |s.doneIn| - s.used, s.K0(), s.indices, s.blockOf, z.indices, z.blockOf)
      && FrontsFit(z, s.readers)
  {
    hide Inv, Readers;
    Pieces(s);
    IndicesStay(s.B, |s.doneIn| - s.used, s.K0(), s.indices, s.blockOf, z.blockOf);
    FrontsStay(s, z);
  }

  lemma SelfFin(B: nat, doneIn: seq<set<nat>>)
    requires B > 0
    ensures SameFin(B, doneIn, doneIn) && SameFin(B, doneIn, doneIn + [{}])
  {
    hide BlockNo, Slot;
  }

  // ---------------------------------------------------------------- the producer's place only

  predicate Settled<V>(p: Prod<V>) {
    p.EIdle? || p.ENext? || p.EHead? || p.EGrow? || p.ETake? || p.EBuild?
  }

  lemma TurnStep<V>(s: State<V>, z: State<V>)
    requires Inv(s) && z == s.(prod := z.prod) && Settled(s.prod) && Settled(z.prod) && ProdOk(z)
    ensures Inv(z)
  {
    hide Inv, C.Inv, Lists, RingOk, Owns, Marks, ProdOk, IndicesKept, FrontsFit, SameFin, Readers;
    Pieces(s);
    SameIndices(s, z);
    SelfFin(s.B, s.doneIn);
    FilledTurn(s.B, s.blocks, s.used, s.blockOf, s.doneIn, s.c.tail, s.enq, s.out, s.prod, z.prod);
    hide Filled;
    ProdAssemble(s, z);
  }

  lemma FilledTurn<V>(B: nat, blocks: seq<Block<V>>, used: nat, blockOf: seq<nat>, doneIn: seq<set<nat>>, tail: nat,
      enq: seq<V>, out: map<nat, V>, p: Prod<V>, q: Prod<V>)
    requires Filled(B, blocks, used, blockOf, doneIn, tail, enq, out, p)
    requires !p.EReset? && !p.EPublish? && !q.EPublish?
    ensures Filled(B, blocks, used, blockOf, doneIn, tail, enq, out, q)
  {
    hide Base;
  }

  // ---------------------------------------------------------------- reusing the oldest block

  /** At a block boundary. */
  lemma Boundary(B: nat, tail: nat)
    requires B > 0 && Slot(B, tail) == 0
    ensures tail == Base(B, Ceil(B, tail)) && Ceil(B, tail) == BlockNo(B, tail)
  {
    PartBlock(B, tail);
  }

  lemma OrderRotates(ring: seq<nat>, blockOf: seq<nat>)
    requires Order(ring, blockOf) && ring != []
    ensures Order(ring[1..] + [ring[0]], blockOf + [ring[0]]) && ring[0] == blockOf[|blockOf| - |ring|]
  {
  }

  lemma LinksRotate<V>(blocks: seq<Block<V>>, ring: seq<nat>)
    requires Links(blocks, ring) && ring != []
    ensures Links(blocks, ring[1..] + [ring[0]]) && blocks[ring[|ring| - 1]].next == ring[0]
  {
    var n, zs := |ring|, ring[1..] + [ring[0]];
    forall i | 0 <= i < n
      ensures zs[i] == ring[After(n, i)]
    {
    }
    forall i | 0 <= i < n
      ensures zs[i] < |blocks| && blocks[zs[i]].next == zs[After(n, i)]
    {
      var j := After(n, i);
      assert blocks[ring[j]].next == ring[After(n, j)];
    }
  }

  lemma RingRotates<V>(blocks: seq<Block<V>>, ring: seq<nat>, tailBlock: Option<nat>, used: nat, blockOf: seq<nat>)
    requires RingOk(blocks, ring, tailBlock, used, blockOf) && used > 0
    ensures used <= |blockOf| && ring[used - 1] < |blocks|
    ensures blocks[ring[used - 1]].next == ring[0] == blockOf[|blockOf| - used] < |blocks|
    ensures RingOk(blocks, ring[1..] + [ring[0]], Some(ring[0]), used, blockOf + [ring[0]])
  {
    OrderRotates(ring, blockOf);
    LinksRotate(blocks, ring);
    LinksIn(blocks, ring);
    OrderIn(ring, blockOf);
    hide Order, Links;
  }

  lemma LinksIn<V>(blocks: seq<Block<V>>, ring: seq<nat>)
    requires Links(blocks, ring)
    ensures forall i :: 0 <= i < |ring| ==> ring[i] < |blocks|
  {
  }

  lemma OrderIn(ring: seq<nat>, blockOf: seq<nat>)
    requires Order(ring, blockOf)
    ensures |ring| <= |blockOf|
    ensures forall i, j :: 0 <= i < j < |ring| ==> ring[i] != ring[j]
    ensures forall j, k :: |blockOf| - |ring| <= j < k < |blockOf| ==> blockOf[j] != blockOf[k]
    ensures forall k :: |blockOf| - |ring| <= k < |blockOf| ==> blockOf[k] in ring
  {
    var low := |blockOf| - |ring|;
    forall k | low <= k < |blockOf|
      ensures blockOf[k] == ring[k - low]
    {
    }
    forall j, k | low <= j < k < |blockOf|
      ensures blockOf[j] != blockOf[k]
    {
      assert ring[j - low] != ring[k - low];
    }
  }

  lemma OwnsRotates(n: nat, free: set<nat>, ring: seq<nat>)
    requires Owns(n, free, ring) && ring != []
    ensures Owns(n, free, ring[1..] + [ring[0]])
  {
    var zs := ring[1..] + [ring[0]];
    forall x
      ensures x in zs <==> x in ring
    {
      if x in ring {
        var i :| 0 <= i < |ring| && ring[i] == x;
        assert i > 0 ==> zs[i - 1] == x;
      }
    }
  }

  /** Every slot of an emptied block number was delivered, so its cells are clear. */
  lemma FilledRotates<V>(B: nat, blocks: seq<Block<V>>, used: nat, blockOf: seq<nat>, doneIn: seq<set<nat>>, tail: nat,
      enq: seq<V>, out: map<nat, V>, head: nat, v: V)
    requires B > 0 && 0 < used <= |blockOf| && Slot(B, tail) == 0 && Ceil(B, tail) == |blockOf|
    requires Filled(B, blocks, used, blockOf, doneIn, tail, enq, out, ENext(v))
      && Marks(B, used, doneIn, out, enq, head)
    requires |blocks[blockOf[|blockOf| - used]].emptied| == B
    ensures var b := blockOf[|blockOf| - used];
      && Filled(B, blocks, used, blockOf + [b], doneIn + [{}], tail, enq, out, EReset(v))
      && Marks(B, used, doneIn + [{}], out, enq, head)
  {
    var low, nb := |blockOf| - used, |blockOf|;
    var b := blockOf[low];
    OldestDone(B, blocks, used, blockOf, doneIn, tail, enq, out, head, v);
    hide Marks;
    Boundary(B, tail);
    forall o | 0 <= o < B
      ensures blocks[b].cells[o] == Content(tail, enq, out, EReset(v), Base(B, nb) + o)
    {
      assert blocks[b].cells[o] == Content(tail, enq, out, ENext(v), Base(B, low) + o);
    }
    hide Base, Ceil, Slot;
  }

  lemma OldestDone<V>(B: nat, blocks: seq<Block<V>>, used: nat, blockOf: seq<nat>, doneIn: seq<set<nat>>, tail: nat,
      enq: seq<V>, out: map<nat, V>, head: nat, v: V)
    requires B > 0 && 0 < used <= |blockOf|
    requires Filled(B, blocks, used, blockOf, doneIn, tail, enq, out, ENext(v))
      && Marks(B, used, doneIn, out, enq, head)
    requires |blocks[blockOf[|blockOf| - used]].emptied| == B
    ensures Marks(B, used, doneIn + [{}], out, enq, head)
    ensures forall x :: Base(B, |blockOf| - used) <= x < Base(B, |blockOf| - used) + B ==> x in out
  {
    var low := |blockOf| - used;
    var all: set<nat> := Range(0, B);
    assert doneIn[low] <= all;
    SubsetSize(doneIn[low], all);
    forall x: nat | Base(B, low) <= x < Base(B, low) + B
      ensures x in out
    {
      assert x - Base(B, low) in doneIn[low];
    }
    hide Base;
  }

  lemma ReuseReady<V>(s: State<V>, ok: bool, id: nat)
    requires Inv(s) && s.prod.ENext? && BlockStep(s, ok, id).prod.EReset?
    ensures Slot(s.B, s.c.tail) == 0 && Ceil(s.B, s.c.tail) == |s.blockOf| && 0 < s.used <= |s.blockOf|
      && |s.ring| == s.used
    ensures var b := s.blockOf[|s.blockOf| - s.used];
      b < |s.blocks| && |s.blocks[b].emptied| == s.B && s.ring[0] == b
      && BlockStep(s, ok, id) == Started(s, b, s.ring[1..] + [s.ring[0]]).(prod := EReset(s.prod.v))
  {
    hide Inv, C.Inv, Lists, Owns, Filled, Marks, Readers, Ceil, Slot, Order, Links;
    Pieces(s);
    if s.used > 0 {
      RingRotates(s.blocks, s.ring, s.tailBlock, s.used, s.blockOf);
    }
  }

  lemma ReuseStep<V>(s: State<V>, ok: bool, id: nat)
    requires Inv(s) && s.prod.ENext? && BlockStep(s, ok, id).prod.EReset?
    ensures Inv(BlockStep(s, ok, id))
  {
    hide Inv, C.Inv, Lists, RingOk, Owns, Filled, Marks, Readers, IndicesKept, FrontsFit, SameFin, Ceil, Slot;
    Pieces(s);
    ReuseReady(s, ok, id);
    var z := BlockStep(s, ok, id);
    var b := s.ring[0];
    RingRotates(s.blocks, s.ring, s.tailBlock, s.used, s.blockOf);
    OwnsRotates(|s.blocks|, s.free, s.ring);
    FilledRotates(s.B, s.blocks, s.used, s.blockOf, s.doneIn, s.c.tail, s.enq, s.out, s.c.head, s.prod.v);
    ListsStarted(s.B, s.indices[s.Cur()], s.prFront, s.used, s.blockOf, b, s.used);
    SameIndices(s, z);
    SelfFin(s.B, s.doneIn);
    ProdAssemble(s, z);
  }

  /** A block number started, in a reused block or in one more. */
  lemma ListsStarted(B: nat, g: Index, prFront: nat, used: nat, blockOf: seq<nat>, b: nat, zused: nat)
    requires Lists(B, g, prFront, used, blockOf, |blockOf|, |blockOf|)
    requires zused > 0 && (zused == used || (zused == used + 1 && used < g.size))
    ensures Lists(B, g, prFront, zused, blockOf + [b], |blockOf|, |blockOf|)
  {
    hide Wrap, Base;
    forall k: nat | |blockOf| + 1 - zused <= k < |blockOf|
      ensures Entered(B, g, blockOf + [b], k)
    {
      assert Entered(B, g, blockOf, k);
    }
  }

  lemma ResetStep<V>(s: State<V>, ok: bool, id: nat)
    requires Inv(s) && s.prod.EReset?
    ensures Inv(BlockStep(s, ok, id))
  {
    hide Inv, C.Inv, Lists, RingOk, Owns, Filled, Marks, Readers, IndicesKept, FrontsFit, SameFin, Ceil, Slot;
    Pieces(s);
    TailIs(s);
    var b := s.tailBlock.value;
    var z := BlockStep(s, ok, id);
    RingKeeps(s.blocks, z.blocks, s.ring, s.tailBlock, s.used, s.blockOf);
    NewIsEmpty(s);
    RingApart(s);
    FilledReset(s.B, s.blocks, s.used, s.blockOf, s.doneIn, s.c.tail, s.enq, s.out, s.prod.v);
    SameIndices(s, z);
    SelfFin(s.B, s.doneIn);
    ProdAssemble(s, z);
  }

  lemma TailIs<V>(s: State<V>)
    requires Inv(s) && s.used > 0
    ensures |s.ring| == s.used <= |s.blockOf| && s.tailBlock == Some(s.blockOf[|s.blockOf| - 1])
      && s.ring[s.used - 1] == s.tailBlock.value
    ensures s.tailBlock.value < |s.blocks|
  {
    hide Inv, C.Inv, Lists, Owns, Filled, Marks, Readers, ProdOk, Links;
    Pieces(s);
    LinksIn(s.blocks, s.ring);
  }

  lemma RingApart<V>(s: State<V>)
    requires Inv(s)
    ensures s.used <= |s.blockOf|
    ensures forall j, k :: |s.blockOf| - s.used <= j < k < |s.blockOf| ==> s.blockOf[j] != s.blockOf[k]
  {
    hide Inv, C.Inv, Lists, Owns, Filled, Marks, Readers, ProdOk, Links, Order;
    Pieces(s);
    OrderIn(s.ring, s.blockOf);
  }

  lemma RingKeeps<V>(blocks: seq<Block<V>>, zblocks: seq<Block<V>>, ring: seq<nat>, tailBlock: Option<nat>, used: nat,
      blockOf: seq<nat>)
    requires RingOk(blocks, ring, tailBlock, used, blockOf) && |zblocks| == |blocks|
    requires forall b :: 0 <= b < |blocks| ==> zblocks[b].next == blocks[b].next
    ensures RingOk(zblocks, ring, tailBlock, used, blockOf)
  {
  }

  /** Nothing of the block number being started has been dequeued. */
  lemma NewIsEmpty<V>(s: State<V>)
    requires Inv(s) && |s.blockOf| == s.K0() + 1
    ensures s.doneIn[s.K0()] == {}
  {
    hide Inv, C.Inv, Lists, Owns, Filled, RingOk, Readers, ProdOk, Ceil;
    Pieces(s);
    C.NeverOverClaims(s.c);
    CeilBounds(s.B, s.c.tail);
    NoneMarked(s.B, s.used, s.doneIn, s.out, s.enq, s.c.head, s.K0());
  }

  lemma NoneMarked<V>(B: nat, used: nat, doneIn: seq<set<nat>>, out: map<nat, V>, enq: seq<V>, head: nat, k: nat)
    requires Marks(B, used, doneIn, out, enq, head) && k < |doneIn| && head <= Base(B, k)
    ensures doneIn[k] == {}
  {
    hide Base;
    forall o
      ensures o !in doneIn[k]
    {
    }
  }

  lemma FilledReset<V>(B: nat, blocks: seq<Block<V>>, used: nat, blockOf: seq<nat>, doneIn: seq<set<nat>>, tail: nat,
      enq: seq<V>, out: map<nat, V>, v: V)
    requires Filled(B, blocks, used, blockOf, doneIn, tail, enq, out, EReset(v)) && used > 0
      && doneIn[|blockOf| - 1] == {}
    requires forall k :: |blockOf| - used <= k < |blockOf| - 1 ==> blockOf[k] != blockOf[|blockOf| - 1]
    ensures var b := blockOf[|blockOf| - 1];
      b < |blocks| && Filled(B, blocks[b := blocks[b].(emptied := {})], used, blockOf, doneIn, tail, enq, out,
        EWrite(v))
  {
    forall x: nat
      ensures Content(tail, enq, out, EReset(v), x) == Content(tail, enq, out, EWrite(v), x)
    {
    }
    hide Base, Content;
  }

  // ---------------------------------------------------------------- growth

  lemma GrowStep<V>(s: State<V>)
    requires Inv(s) && s.prod.EGrow?
    ensures Inv(BlockStep(s, true, 0))
  {
    hide Inv, C.Inv, RingOk, Owns, Filled, Marks, Readers, IndicesKept, FrontsFit, SameFin, Ceil, Slot, Lists, Doubled;
    Pieces(s);
    var g := s.indices[s.Cur()];
    GrownLists(s.B, g, s.prFront, s.used, s.blockOf);
    var z := BlockStep(s, true, 0);
    assert z.indices[z.Cur()] == Doubled(g, s.prFront, s.used, |s.blockOf| - s.used);
    GrownIndices(s, z);
    SelfFin(s.B, s.doneIn);
    FilledTurn(s.B, s.blocks, s.used, s.blockOf, s.doneIn, s.c.tail, s.enq, s.out, s.prod, z.prod);
    ProdAssemble(s, z);
  }

  lemma GrownIndices<V>(s: State<V>, z: State<V>)
    requires Inv(s) && z.B == s.B && |z.indices| == |s.indices| + 1 && z.indices[..|s.indices|] == s.indices
      && z.blockOf == s.blockOf
    ensures IndicesKept(s.B, |s.doneIn| - s.used, s.K0(), s.indices, s.blockOf, z.indices, z.blockOf)
      && FrontsFit(z, s.readers)
  {
    hide Inv, Readers, Entered, Vis;
    Pieces(s);
    assert forall g :: 0 <= g < |s.indices| ==> z.indices[g] == s.indices[g];
    FrontsStay(s, z);
  }

  lemma GrownEntry(g: Index, prFront: nat, used: nat, nb: nat, k: nat)
    requires g.size > 0 && |g.entries| == g.size && 0 < used <= g.size && used <= nb && prFront == Pos(g, nb)
      && nb - used <= k < nb
    ensures var d := Doubled(g, prFront, used, nb - used);
      && d.size == 2 * g.size && |d.entries| == d.size && Pos(d, k) == k - (nb - used)
           && d.entries[Pos(d, k)] == g.entries[Pos(g, k)]
  {
    var j := k - (nb - used);
    WrapSmall(2 * g.size, j);
    WrapAdd(g.size, nb + g.off, j - used);
    hide Wrap;
  }

  /** The doubled index lists the same ring, its last slots exposed. */
  lemma GrownLists(B: nat, g: Index, prFront: nat, used: nat, blockOf: seq<nat>)
    requires Lists(B, g, prFront, used, blockOf, |blockOf|, |blockOf|) && used == g.size
    ensures used <= |blockOf|
    ensures var d := Doubled(g, prFront, used, |blockOf| - used);
      Lists(B, d, used, used, blockOf, |blockOf|, |blockOf|) && d.size == 2 * g.size && |d.entries| == d.size
  {
    hide Wrap, Base;
    var nb := |blockOf|;
    var d := Doubled(g, prFront, used, nb - used);
    WrapSmall(2 * g.size, used);
    GrownEntry(g, prFront, used, nb, nb - 1);
    forall k: nat | nb - used <= k < nb
      ensures Entered(B, d, blockOf, k)
    {
      GrownEntry(g, prFront, used, nb, k);
      assert Entered(B, g, blockOf, k);
      hide Doubled, Pos;
    }
  }

  // ---------------------------------------------------------------- a block from the pool

  lemma OrderGrows(ring: seq<nat>, blockOf: seq<nat>, b: nat)
    requires Order(ring, blockOf) && b !in ring
    ensures Order(ring + [b], blockOf + [b])
  {
  }

  /** Linking a block in behind the tail block puts it at the end of the ring. */
  lemma LinksGrow<V>(blocks: seq<Block<V>>, ring: seq<nat>, b: nat)
    requires Links(blocks, ring) && b < |blocks| && b !in ring
    requires forall i, j :: 0 <= i < j < |ring| ==> ring[i] != ring[j]
    ensures Links(Linked(blocks, if ring == [] then None else Some(ring[|ring| - 1]), b), ring + [b])
  {
    var n, zs := |ring|, ring + [b];
    if n > 0 {
      var t := ring[n - 1];
      assert blocks[t].next == ring[After(n, n - 1)];
      var bs := Linked(blocks, Some(t), b);
      forall i | 0 <= i < n + 1
        ensures zs[i] < |bs| && bs[zs[i]].next == zs[After(n + 1, i)]
      {
        assert i < n ==> blocks[ring[i]].next == ring[After(n, i)];
        assert i < n - 1 ==> ring[i] != ring[n - 1];
      }
    }
  }

  lemma OwnsGrows(n: nat, free: set<nat>, ring: seq<nat>, b: nat)
    requires Owns(n, free, ring) && (b in free || b == n)
    ensures b !in ring && Owns(if b < n then n else n + 1, free - {b}, ring + [b])
  {
    forall x
      ensures x in ring + [b] <==> x in ring || x == b
    {
      assert (ring + [b])[|ring|] == b;
    }
  }

  lemma FilledGrows<V>(B: nat, blocks: seq<Block<V>>, zblocks: seq<Block<V>>, used: nat, blockOf: seq<nat>,
      doneIn: seq<set<nat>>, tail: nat, enq: seq<V>, out: map<nat, V>, v: V, b: nat)
    requires B > 0 && Filled(B, blocks, used, blockOf, doneIn, tail, enq, out, ETake(v)) && Ceil(B, tail) == |blockOf|
    requires |blocks| <= |zblocks| && b < |zblocks| && zblocks[b].cells == Cells<V>(B) && zblocks[b].emptied == {}
    requires forall k :: |blockOf| - used <= k < |blockOf| ==> blockOf[k] != b
    requires forall x :: 0 <= x < |blocks| && x != b ==>
      zblocks[x].cells == blocks[x].cells && zblocks[x].emptied == blocks[x].emptied
    ensures Filled(B, zblocks, used + 1, blockOf + [b], doneIn + [{}], tail, enq, out, EWrite(v))
  {
    var nb := |blockOf|;
    CeilBounds(B, tail);
    forall x: nat
      ensures Content(tail, enq, out, ETake(v), x) == Content(tail, enq, out, EWrite(v), x)
      ensures x >= tail ==> Content(tail, enq, out, EWrite(v), x) == None
    {
    }
    hide Base, Content, Ceil;
  }

  lemma MarksGrow<V>(B: nat, used: nat, doneIn: seq<set<nat>>, out: map<nat, V>, enq: seq<V>, head: nat)
    requires Marks(B, used, doneIn, out, enq, head)
    ensures Marks(B, used + 1, doneIn + [{}], out, enq, head)
  {
    hide Base;
  }

  lemma PoolReady<V>(s: State<V>, id: nat)
    requires Inv(s) && s.prod.ETake?
    ensures s.used < s.indices[s.Cur()].size && |s.blockOf| == s.K0() && |s.ring| == s.used <= |s.blockOf|
    ensures s.tailBlock == if s.ring == [] then None else Some(s.ring[|s.ring| - 1])
    ensures forall k :: |s.blockOf| - s.used <= k < |s.blockOf| ==> s.blockOf[k] in s.ring
    ensures Links(s.blocks, s.ring) && Order(s.ring, s.blockOf)
  {
    hide Inv, C.Inv, Lists, Owns, Filled, Marks, Readers, Order, Links;
    Pieces(s);
    OrderIn(s.ring, s.blockOf);
  }

  /** The blocks as `ETake` leaves them before linking. */
  function WithFresh<V>(s: State<V>, b: nat): seq<Block<V>>
    requires b <= |s.blocks|
  {
    if b < |s.blocks| then s.blocks[b := Block(Cells<V>(s.B), {}, b)] else s.blocks + [Block(Cells<V>(s.B), {}, b)]
  }

  lemma LinkedKeeps<V>(blocks: seq<Block<V>>, tail: Option<nat>, b: nat)
    requires b < |blocks|
    ensures var bs := Linked(blocks, tail, b);
      |bs| == |blocks| && forall x :: 0 <= x < |bs| ==>
        bs[x].cells == blocks[x].cells && bs[x].emptied == blocks[x].emptied
  {
  }

  lemma PoolStepIs<V>(s: State<V>, id: nat, b: nat)
    requires s.Wf() && s.prod.ETake? && b == (if id in s.free && id < |s.blocks| then id else |s.blocks|)
    ensures BlockStep(s, true, id) ==
      Started(s.(blocks := Linked(WithFresh(s, b), s.tailBlock, b), free := s.free - {b}, used := s.used + 1), b,
        s.ring + [b])
        .(prod := EWrite(s.prod.v))
  {
    hide Linked;
  }

  lemma PoolStep<V>(s: State<V>, id: nat)
    requires Inv(s) && s.prod.ETake?
    ensures Inv(BlockStep(s, true, id))
  {
    hide Inv, C.Inv, Lists, Owns, Filled, Marks, Readers, IndicesKept, FrontsFit, SameFin, Ceil, Slot, Order, Links,
         Linked;
    Pieces(s);
    PoolReady(s, id);
    var b := if id in s.free && id < |s.blocks| then id else |s.blocks|;
    PoolStepIs(s, id, b);
    hide BlockStep;
    var z := BlockStep(s, true, id);
    OwnsGrows(|s.blocks|, s.free, s.ring, b);
    FreshLinks(s, b);
    OrderIn(s.ring, s.blockOf);
    LinksGrow(WithFresh(s, b), s.ring, b);
    OrderGrows(s.ring, s.blockOf, b);
    LinkedKeeps(WithFresh(s, b), s.tailBlock, b);
    FilledGrows(s.B, s.blocks, z.blocks, s.used, s.blockOf, s.doneIn, s.c.tail, s.enq, s.out, s.prod.v, b);
    MarksGrow(s.B, s.used, s.doneIn, s.out, s.enq, s.c.head);
    ListsStarted(s.B, s.indices[s.Cur()], s.prFront, s.used, s.blockOf, b, s.used + 1);
    SameIndices(s, z);
    SelfFin(s.B, s.doneIn);
    ProdAssemble(s, z);
  }

  lemma FreshLinks<V>(s: State<V>, b: nat)
    requires Links(s.blocks, s.ring) && b <= |s.blocks| && b !in s.ring
    ensures Links(WithFresh(s, b), s.ring)
  {
  }

  // ---------------------------------------------------------------- listing the block

  /** Writing the entry of the newest block number leaves every entry a consumer may still need, in every index. */
  lemma WriteKeeps(B: nat, gs: seq<Index>, prFront: nat, used: nat, blockOf: seq<nat>, base: nat)
    requires B > 0 && Sized(gs) && blockOf != [] && used > 0
    requires Lists(B, gs[|gs| - 1], prFront, used, blockOf, |blockOf| - 1, |blockOf| - 1)
      && base == Base(B, |blockOf| - 1)
    ensures prFront < gs[|gs| - 1].size
    ensures var g := gs[|gs| - 1];
      var z := g.(entries := g.entries[prFront := Entry(base, Some(blockOf[|blockOf| - 1]))]);
      && IndicesKept(B, |blockOf| - used, |blockOf| - 1, gs, blockOf, gs[|gs| - 1 := z], blockOf)
      && Lists(B, z, prFront, used, blockOf, |blockOf|, |blockOf| - 1)
  {
    hide Wrap;
    var w, g := |blockOf| - 1, gs[|gs| - 1];
    var z := g.(entries := g.entries[prFront := Entry(base, Some(blockOf[w]))]);
    forall k: nat | |blockOf| - used <= k < w
      ensures Pos(g, k) != prFront && Pos(z, k) == Pos(g, k)
      ensures Entered(B, g, blockOf, k) ==> Entered(B, z, blockOf, k)
    {
      PosApart(g, k, w);
    }
    forall f | Vis(B, g, f)
      ensures Vis(B, z, f)
    {
      Parts(B, w, 0);
      assert Base(B, w) + 0 == Base(B, w);
      hide Base;
    }
    assert Entered(B, z, blockOf, w);
    hide Pos, Base, Vis, Entered;
  }

  lemma WriteReady<V>(s: State<V>)
    requires Inv(s) && s.prod.EWrite?
    ensures |s.blockOf| == s.K0() + 1 && s.used > 0 && s.c.tail == Base(s.B, |s.blockOf| - 1)
    ensures s.tailBlock == Some(s.blockOf[|s.blockOf| - 1]) && Sized(s.indices)
  {
    hide Inv, C.Inv, Lists, Owns, Filled, Marks, Readers, Links, Ceil, Slot, RingOk;
    Pieces(s);
    TailIs(s);
    Boundary(s.B, s.c.tail);
  }

  lemma WriteStep<V>(s: State<V>)
    requires Inv(s) && s.prod.EWrite?
    ensures Inv(ListStep(s))
  {
    hide Inv, C.Inv, Lists, Owns, Filled, Marks, Readers, IndicesKept, FrontsFit, SameFin, Ceil, Slot, RingOk;
    Pieces(s);
    WriteReady(s);
    WriteKeeps(s.B, s.indices, s.prFront, s.used, s.blockOf, s.c.tail);
    var z := ListStep(s);
    WriteFronts(s, z);
    SelfFin(s.B, s.doneIn);
    FilledTurn(s.B, s.blocks, s.used, s.blockOf, s.doneIn, s.c.tail, s.enq, s.out, s.prod, z.prod);
    ProdAssemble(s, z);
  }

  lemma WriteFronts<V>(s: State<V>, z: State<V>)
    requires Inv(s) && z.B == s.B && |z.indices| == |s.indices|
    requires forall g :: 0 <= g < |s.indices| ==> z.indices[g].front == s.indices[g].front
    requires IndicesKept(s.B, |s.doneIn| - s.used, s.K0(), s.indices, s.blockOf, z.indices, z.blockOf)
    ensures FrontsFit(z, s.readers)
  {
    hide Inv, Readers, Vis, Entered;
    Pieces(s);
    FrontsStay(s, z);
  }

  lemma FrontKeeps(B: nat, gs: seq<Index>, prFront: nat, used: nat, blockOf: seq<nat>)
    requires B > 0 && Sized(gs) && blockOf != [] && used > 0
    requires Lists(B, gs[|gs| - 1], prFront, used, blockOf, |blockOf|, |blockOf| - 1)
    ensures var g := gs[|gs| - 1];
      var z := g.(front := prFront);
      && IndicesKept(B, |blockOf| - used, |blockOf| - 1, gs, blockOf, gs[|gs| - 1 := z], blockOf)
      && Lists(B, z, Wrap(g.size, prFront + 1), used, blockOf, |blockOf|, |blockOf|) && Vis(B, z, prFront)
  {
    hide Wrap, Base;
    var w, g := |blockOf| - 1, gs[|gs| - 1];
    var z := g.(front := prFront);
    PosNext(g, w);
    EnteredIsVis(B, g, blockOf, w);
    assert forall k :: Pos(z, k) == Pos(g, k);
    assert forall k :: Entered(B, z, blockOf, k) <==> Entered(B, g, blockOf, k);
    assert forall f :: Vis(B, z, f) <==> Vis(B, g, f);
    hide Pos, Vis, Entered;
  }

  lemma FrontReady<V>(s: State<V>)
    requires Inv(s) && s.prod.EFront?
    ensures |s.blockOf| == s.K0() + 1 && s.used > 0 && Sized(s.indices)
  {
    hide Inv, C.Inv, Lists, Owns, Filled, Marks, Readers, Links, Ceil, Slot, RingOk;
    Pieces(s);
  }

  lemma FrontStep<V>(s: State<V>)
    requires Inv(s) && s.prod.EFront?
    ensures Inv(ListStep(s))
  {
    hide Inv, C.Inv, Lists, Owns, Filled, Marks, Readers, IndicesKept, FrontsFit, SameFin, RingOk, Ceil, Slot;
    Pieces(s);
    FrontReady(s);
    FrontKeeps(s.B, s.indices, s.prFront, s.used, s.blockOf);
    var z := ListStep(s);
    FrontFits(s, z);
    SelfFin(s.B, s.doneIn);
    FilledTurn(s.B, s.blocks, s.used, s.blockOf, s.doneIn, s.c.tail, s.enq, s.out, s.prod, z.prod);
    Boundary(s.B, s.c.tail);
    ProdAssemble(s, z);
  }

  lemma FrontFits<V>(s: State<V>, z: State<V>)
    requires Inv(s) && z.B == s.B && |z.indices| == |s.indices|
    requires forall g :: 0 <= g < |s.indices| - 1 ==> z.indices[g].front == s.indices[g].front
    requires IndicesKept(s.B, |s.doneIn| - s.used, s.K0(), s.indices, s.blockOf, z.indices, z.blockOf)
    requires Vis(z.B, z.indices[s.Cur()], z.indices[s.Cur()].front)
    ensures FrontsFit(z, s.readers)
  {
    hide Inv, Vis, Entered, Claim;
    Pieces(s);
    forall t | 0 <= t < |s.readers| && s.readers[t].LoadFront? && s.readers[t].i < s.readers[t].e
               && s.readers[t].hd < |z.indices|
      ensures Vis(z.B, z.indices[s.readers[t].hd], z.indices[s.readers[t].hd].front)
    {
      assert ReaderOk(s, t, s.readers[t]);
    }
  }

  // ---------------------------------------------------------------- the element

  lemma BuildReady<V>(s: State<V>)
    requires Inv(s) && s.prod.EBuild?
    ensures |s.blockOf| == BlockNo(s.B, s.c.tail) + 1 && s.used > 0
    ensures s.tailBlock == Some(s.blockOf[|s.blockOf| - 1]) && s.tailBlock.value < |s.blocks|
  {
    hide Inv, C.Inv, Lists, Owns, Filled, Marks, Readers, Links, Ceil, Slot, RingOk, BlockNo;
    Pieces(s);
    TailIs(s);
  }

  lemma FilledBuild<V>(B: nat, blocks: seq<Block<V>>, used: nat, blockOf: seq<nat>, doneIn: seq<set<nat>>, tail: nat,
      enq: seq<V>, out: map<nat, V>, v: V)
    requires B > 0 && Filled(B, blocks, used, blockOf, doneIn, tail, enq, out, EBuild(v)) && used > 0
    requires |blockOf| == BlockNo(B, tail) + 1
    requires forall k :: |blockOf| - used <= k < |blockOf| - 1 ==> blockOf[k] != blockOf[|blockOf| - 1]
    ensures var b, o := blockOf[|blockOf| - 1], Slot(B, tail);
      && b < |blocks| && o < |blocks[b].cells|
      && Filled(B, blocks[b := blocks[b].(cells := blocks[b].cells[o := Some(v)])], used, blockOf, doneIn, tail, enq,
           out, EPublish(v))
  {
    var k, o := BlockNo(B, tail), Slot(B, tail);
    var b := blockOf[k];
    Join(B, tail);
    var zs := blocks[b := blocks[b].(cells := blocks[b].cells[o := Some(v)])];
    forall j, p | |blockOf| - used <= j < |blockOf| && 0 <= p < B
      ensures zs[blockOf[j]].cells[p] == Content(tail, enq, out, EPublish(v), Base(B, j) + p)
    {
      Parts(B, j, p);
      assert blocks[blockOf[j]].cells[p] == Content(tail, enq, out, EBuild(v), Base(B, j) + p);
      hide Base, BlockNo, Slot;
    }
    hide Base, Content;
  }

  lemma BuildStep<V>(s: State<V>, v: V, ok: bool, id: nat)
    requires Inv(s) && s.prod.EBuild?
    ensures Inv(ProdStep(s, v, ok, id))
  {
    hide Inv, C.Inv, Lists, Owns, Filled, Marks, Readers, IndicesKept, FrontsFit, SameFin, Ceil, Slot, RingOk, BlockNo;
    Pieces(s);
    BuildReady(s);
    RingApart(s);
    FilledBuild(s.B, s.blocks, s.used, s.blockOf, s.doneIn, s.c.tail, s.enq, s.out, s.prod.v);
    var z := ProdStep(s, v, ok, id);
    RingKeeps(s.blocks, z.blocks, s.ring, s.tailBlock, s.used, s.blockOf);
    SameIndices(s, z);
    SelfFin(s.B, s.doneIn);
    ProdAssemble(s, z);
  }

  lemma FilledPublish<V>(B: nat, blocks: seq<Block<V>>, used: nat, blockOf: seq<nat>, doneIn: seq<set<nat>>, tail: nat,
      enq: seq<V>, out: map<nat, V>, v: V, head: nat)
    requires Filled(B, blocks, used, blockOf, doneIn, tail, enq, out, EPublish(v))
      && Marks(B, used, doneIn, out, enq, head)
    ensures Filled(B, blocks, used, blockOf, doneIn, tail + 1, enq + [v], out, EIdle)
      && Marks(B, used, doneIn, out, enq + [v], head)
  {
    forall x: nat
      ensures Content(tail, enq, out, EPublish(v), x) == Content(tail + 1, enq + [v], out, EIdle, x)
    {
    }
    hide Base, Content;
  }

  lemma PublishStep<V>(s: State<V>, v: V, ok: bool, id: nat)
    requires Inv(s) && s.prod.EPublish?
    ensures Inv(ProdStep(s, v, ok, id))
  {
    hide C.Inv, Lists, Owns, Filled, Marks, IndicesKept, FrontsFit, SameFin, Ceil, Slot, RingOk, BlockNo, ReaderOk, Fin;
    var z := ProdStep(s, v, ok, id);
    C.PublishKeepsInv(s.c, 1);
    SameIndices(s, z);
    SelfFin(s.B, s.doneIn);
    FilledPublish(s.B, s.blocks, s.used, s.blockOf, s.doneIn, s.c.tail, s.enq, s.out, s.prod.v, s.c.head);
    PartBlock(s.B, s.c.tail + 1);
    NextCeil(s.B, s.c.tail);
    forall t | 0 <= t < |s.readers|
      ensures ReaderOk(z, t, z.readers[t])
    {
      FrontAt(z, s.readers, t);
      ReaderFrame(s, z, t, s.readers[t]);
    }
  }

  lemma NextCeil(B: nat, x: nat)
    requires B > 0
    ensures Ceil(B, x + 1) == BlockNo(B, x) + 1
  {
    Join(B, x);
    QuotientIs(B, x + 1 + B - 1, BlockNo(B, x) + 1, Slot(B, x));
  }

  // ---------------------------------------------------------------- every step of the producer

  lemma Turned<V>(s: State<V>, v: V, ok: bool, id: nat)
    requires Inv(s) && ProdStep(s, v, ok, id) == s.(prod := ProdStep(s, v, ok, id).prod)
    requires Settled(s.prod) && Settled(ProdStep(s, v, ok, id).prod)
    ensures Inv(ProdStep(s, v, ok, id))
  {
    TurnedOk(s, v, ok, id);
    TurnStep(s, ProdStep(s, v, ok, id));
  }

  lemma TurnedOk<V>(s: State<V>, v: V, ok: bool, id: nat)
    requires Inv(s) && ProdStep(s, v, ok, id) == s.(prod := ProdStep(s, v, ok, id).prod)
    requires Settled(s.prod) && Settled(ProdStep(s, v, ok, id).prod)
    ensures ProdOk(ProdStep(s, v, ok, id))
  {
    hide Inv, C.Inv, Owns, Filled, Marks, Readers, Ceil, Slot, RingOk, BlockNo, Full, Pos, Entered;
    Pieces(s);
    PartBlock(s.B, s.c.tail);
  }

  lemma ProdStepKeepsInv<V>(s: State<V>, v: V, ok: bool, id: nat)
    requires Inv(s)
    ensures Inv(ProdStep(s, v, ok, id))
  {
    hide Inv, Full, Doubled, Linked, Ceil, Started;
    Pieces(s);
    hide C.Inv, Lists, Owns, Filled, Marks, Readers, RingOk, ProdOk, Taken;
    match s.prod
    case EIdle => Turned(s, v, ok, id);
    case ENext(_) => if BlockStep(s, ok, id).prod.EReset? { ReuseStep(s, ok, id); } else { Turned(s, v, ok, id); }
    case EReset(_) => ResetStep(s, ok, id);
    case EHead(_) => Turned(s, v, ok, id);
    case EGrow(_) => if ok { GrowAny(s, ok, id); } else { Turned(s, v, ok, id); }
    case ETake(_) => if ok { PoolStep(s, id); } else { Turned(s, v, ok, id); }
    case EWrite(_) => WriteStep(s);
    case EFront(_) => FrontStep(s);
    case EBuild(_) => BuildStep(s, v, ok, id);
    case EPublish(_) => PublishStep(s, v, ok, id);
  }

  lemma GrowAny<V>(s: State<V>, ok: bool, id: nat)
    requires Inv(s) && s.prod.EGrow? && ok
    ensures Inv(BlockStep(s, ok, id))
  {
    GrowStep(s);
    hide Inv;
  }
}
