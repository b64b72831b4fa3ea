/** Every step of the producer keeps the invariant: index entries and blocks first, then growth, undoing and filling. */
module ImplicitProducerSteps {
  import opened Common
  import opened Blocks
  import C = DequeueCounters
  import opened Claims
  import opened ImplicitQueue
  import opened ImplicitInvariant
  import opened ImplicitFrames

  // ---------------------------------------------------------------- what every producer step leaves alone

  ghost predicate SamePhases(k0: nat, phase: seq<Phase>, zphase: seq<Phase>) {
    k0 <= |phase| && k0 <= |zphase| && forall k :: 0 <= k < k0 ==> zphase[k] == phase[k]
  }

  lemma ProdReaders<V>(s: State<V>, z: State<V>)
    requires Inv(s) && z.B == s.B && z.c.threads == s.c.threads && z.readers == s.readers && z.out == s.out
    requires SameFin(s.B, s.finIn, z.finIn) && SameIndices(s.headers, z.headers)
    requires SameBelow(s.K0(), s.entryOf, z.entryOf) && SameBelow(s.K0(), s.blockOf, z.blockOf)
    requires SamePhases(s.K0(), s.phase, z.phase)
    requires VisKept(s.B, s.headers, s.entries, z.headers, z.entries) && TailsFit(z, s.readers)
    ensures Readers(z)
  {
    hide C.Inv, SameBelow, SameIndices, VisKept, TailsFit, Heads, Window, Live, Owns, Cells, Marks, Taken, ProdOk,
         Filling, ReaderOk, Fin, Ceil;
    forall t | 0 <= t < |s.readers|
      ensures Kept(s, z, t)
    {
    }
    ReadersFrame(s, z);
  }

  lemma BelowItself<V>(s: State<V>)
    requires Inv(s)
    ensures SameBelow(s.K0(), s.entryOf, s.entryOf) && SameBelow(s.K0(), s.blockOf, s.blockOf)
    ensures SamePhases(s.K0(), s.phase, s.phase)
  {
  }

  /**
   * The pieces of the invariant, put together after a step that leaves the counters, the readers and the values alone.
   */
  lemma Assemble<V>(s: State<V>, z: State<V>)
    requires Inv(s) && z.Wf() && ProdOk(z)
    requires z.B == s.B && z.c == s.c && z.readers == s.readers && z.enq == s.enq && z.out == s.out
    requires Heads(z.headers, |z.entries|)
    requires Window(z.B, z.headers[z.Cur()], z.entries, z.entryOf, z.low, z.ins, z.K0())
    requires Live(z.entries, z.entryOf, z.low, z.blockOf, z.phase)
    requires Owns(|z.blocks|, z.free, Spare(z.prod), z.blockOf, z.phase)
    requires Cells(z.B, z.blocks, z.blockOf, z.phase, z.finIn, z.c.tail, z.enq, z.out, Extra(z.prod))
    requires Marks(z.B, z.finIn, z.out, z.enq, z.c.head)
    requires Phases(z.B, z.K0(), z.phase, z.finIn, z.readers)
    requires Filling(z.B, z.c.tail, z.tailBlock, z.blockOf)
    requires SameFin(s.B, s.finIn, z.finIn) && SameIndices(s.headers, z.headers)
    requires SameBelow(s.K0(), s.entryOf, z.entryOf) && SameBelow(s.K0(), s.blockOf, z.blockOf)
    requires SamePhases(s.K0(), s.phase, z.phase)
    requires VisKept(s.B, s.headers, s.entries, z.headers, z.entries) && TailsFit(z, s.readers)
    ensures Inv(z)
  {
    hide Ceil, Fin, C.Inv, Heads, Window, Live, Owns, Cells, Marks, Phases, ProdOk, Filling, VisKept, TailsFit,
         SameBelow, SamePhases, SameIndices, SameFin, Readers, Taken, Extra, Spare;
    ProdReaders(s, z);
    TakenFrame(s.B, s.c, s.finIn, z.finIn);
  }

  /** Nothing shared changes. */
  lemma ProdOnly<V>(s: State<V>, z: State<V>)
    requires Inv(s) && z == s.(prod := z.prod) && ProdOk(z)
    requires Extra(z.prod) == Extra(s.prod) && Spare(z.prod) == Spare(s.prod)
    ensures Inv(z)
  {
    hide Ceil, Fin, C.Inv, Heads, Window, Live, Owns, Cells, Marks, Phases, Taken, ProdOk, Filling, VisKept, TailsFit,
         SameBelow, SamePhases, Readers, Extra, Spare, Inv;
    Pieces(s);
    BelowItself(s);
    SameKeys(s.B, s.headers, s.entries, z.headers, z.entries);
    SameTails(s, z);
    Assemble(s, z);
  }

  lemma Pieces<V>(s: State<V>)
    requires Inv(s)
    ensures s.Wf() && Heads(s.headers, |s.entries|)
    ensures Window(s.B, s.headers[s.Cur()], s.entries, s.entryOf, s.low, s.ins, s.K0())
    ensures Live(s.entries, s.entryOf, s.low, s.blockOf, s.phase)
    ensures Owns(|s.blocks|, s.free, Spare(s.prod), s.blockOf, s.phase)
    ensures |s.enq| == s.c.tail
    ensures Cells(s.B, s.blocks, s.blockOf, s.phase, s.finIn, s.c.tail, s.enq, s.out, Extra(s.prod))
    ensures Marks(s.B, s.finIn, s.out, s.enq, s.c.head)
    ensures Phases(s.B, s.K0(), s.phase, s.finIn, s.readers)
    ensures Readers(s) && ProdOk(s) && Filling(s.B, s.c.tail, s.tailBlock, s.blockOf)
  {
    hide Ceil, Fin, C.Inv, Heads, Window, Live, Owns, Cells, Marks, Phases, Taken, ProdOk, Filling, Readers, Extra,
         Spare;
  }

  // ---------------------------------------------------------------- index entries

  /** Two block numbers in the window have different entries. */
  lemma EntriesApart(B: nat, h: Header, n: nat, entries: seq<Entry>, entryOf: seq<nat>, low: nat, ins: nat, k0: nat,
      a: nat, b: nat)
    requires HeaderOk(h, n) && Window(B, h, entries, entryOf, low, ins, k0)
    requires low <= a < |entryOf| && low <= b < |entryOf| && a != b
    ensures entryOf[a] != entryOf[b]
  {
    var x, y := if a < b then a else b, if a < b then b else a;
    if Pos(h, x) == Pos(h, y) {
      PosApart(h, x, y);
    }
    hide Wrap, Base;
  }

  /** Rewriting the value of one block number's entry leaves the entries of the others. */
  lemma LiveFrame(B: nat, h: Header, n: nat, entries: seq<Entry>, entryOf: seq<nat>, low: nat, ins: nat, k0: nat,
      blockOf: seq<nat>, phase: seq<Phase>, k: nat, v: Option<nat>, zphase: seq<Phase>)
    requires HeaderOk(h, n) && Window(B, h, entries, entryOf, low, ins, k0)
      && Live(entries, entryOf, low, blockOf, phase)
    requires low <= k < |entryOf| && entryOf[k] < |entries|
    requires |zphase| == |phase| && forall j :: 0 <= j < |phase| && j != k ==> zphase[j] == phase[j]
    requires k < |phase| ==> !Alive(zphase[k])
    ensures Live(entries[entryOf[k] := entries[entryOf[k]].(value := v)], entryOf, low, blockOf, zphase)
  {
    forall j | 0 <= j < |phase| && Alive(zphase[j])
      ensures low <= j < |entryOf| && entryOf[j] < |entries| && entryOf[j] != entryOf[k]
      ensures entries[entryOf[j]].value == Some(blockOf[j])
    {
      EntriesApart(B, h, n, entries, entryOf, low, ins, k0, j, k);
    }
  }

  lemma WindowValues(B: nat, h: Header, entries: seq<Entry>, entryOf: seq<nat>, low: nat, ins: nat, k0: nat, e: nat,
      v: Option<nat>)
    requires Window(B, h, entries, entryOf, low, ins, k0) && e < |entries|
    ensures Window(B, h, entries[e := entries[e].(value := v)], entryOf, low, ins, k0)
  {
    hide Wrap, Base;
  }

  /** The slot after the index tail belongs to no block that is still alive, so its entry can be re-keyed. */
  lemma SlotIsFree(B: nat, h: Header, entries: seq<Entry>, entryOf: seq<nat>, low: nat, ins: nat, k0: nat,
      blockOf: seq<nat>, phase: seq<Phase>, e: nat, slot: nat)
    requires Window(B, h, entries, entryOf, low, ins, k0) && Live(entries, entryOf, low, blockOf, phase)
    requires AllOpen(phase, k0) && |phase| == |entryOf| && NextSlot(h, entries, |entryOf|, e, slot)
    requires entries[e].key.None? || entries[e].value.None?
    ensures |entryOf| == low + h.cap ==> low < k0 && !Alive(phase[low])
  {
    if |entryOf| == low + h.cap {
      WrapLap(h.cap, low + h.off);
      assert Pos(h, low) == Pos(h, |entryOf|);
    }
    hide Base, Wrap;
  }

  lemma KeyWindow(B: nat, h: Header, n: nat, entries: seq<Entry>, entryOf: seq<nat>, low: nat, ins: nat, k0: nat,
      e: nat, slot: nat, key: nat, zlow: nat)
    requires HeaderOk(h, n) && Window(B, h, entries, entryOf, low, ins, k0)
    requires NextSlot(h, entries, |entryOf|, e, slot)
    requires zlow == if |entryOf| < low + h.cap then low else |entryOf| + 1 - h.cap
    requires |entryOf| == low + h.cap ==> low < k0
    ensures Window(B, h, entries[e := entries[e].(key := Some(key))], entryOf, zlow, ins, k0)
  {
    forall j | zlow <= j < |entryOf|
      ensures low <= j && entryOf[j] != e
    {
      if Pos(h, j) == Pos(h, |entryOf|) {
        PosApart(h, j, |entryOf|);
      }
    }
    hide Wrap, Base;
  }

  /** Re-keying a slot of the newest index leaves every slot of every index fit to be read as a tail. */
  lemma KeyVisible(B: nat, hs: seq<Header>, n: nat, entries: seq<Entry>, e: nat, slot: nat, k: nat)
    requires B > 0 && Heads(hs, n) && n == |entries| && NextSlot(hs[|hs| - 1], entries, k, e, slot)
    ensures VisKept(B, hs, entries, hs, entries[e := entries[e].(key := Some(Base(B, k)))])
    ensures Vis(B, hs[|hs| - 1], entries[e := entries[e].(key := Some(Base(B, k)))], slot)
  {
    var zentries := entries[e := entries[e].(key := Some(Base(B, k)))];
    Parts(B, k, 0);
    assert Base(B, k) + 0 == Base(B, k);
    forall g: nat, p: nat | 0 <= g < |hs| && Vis(B, hs[g], entries, p)
      ensures Vis(B, hs[g], zentries, p)
    {
      if hs[g].index[p] == e {
        CarryOver(hs[g], hs[|hs| - 1], p, slot, k);
      }
      hide Base, BlockNo, Slot, Wrap, Related;
    }
  }

  lemma KeyReady<V>(s: State<V>)
    requires Inv(s) && s.prod.PKey?
    ensures |s.entryOf| == |s.phase| == s.ins == s.K0() + |s.prod.got| && AllOpen(s.phase, s.K0())
    ensures s.prod.e < |s.entries| && NextSlot(s.headers[s.Cur()], s.entries, |s.entryOf|, s.prod.e, s.prod.slot)
    ensures s.entries[s.prod.e].key.None? || s.entries[s.prod.e].value.None?
    ensures HeaderOk(s.headers[s.Cur()], |s.entries|)
    ensures |s.entryOf| <= s.low + s.headers[s.Cur()].cap && s.low <= s.K0() <= |s.phase|
  {
  }

  lemma KeyedOk<V>(s: State<V>, ok: bool)
    requires Inv(s) && s.prod.PKey?
    ensures ProdOk(InsertStep(s, ok))
  {
    hide C.Inv, Heads, Live, Owns, Cells, Marks, Phases, Taken, Filling, Readers, Wrap, Chain, AllOpen, Ceil;
    KeyReady(s);
  }

  lemma KeyStep<V>(s: State<V>, ok: bool)
    requires Inv(s) && s.prod.PKey?
    ensures Inv(InsertStep(s, ok))
  {
    hide ProdOk, HeaderOk, C.Inv, Heads, Owns, Cells, Marks, Phases, Taken, Filling, Readers, Wrap, AllOpen, Ceil, Base,
         Window, Live, NextSlot, VisKept, TailsFit, SameBelow, SamePhases, Vis, Fin, Related;
    var z := InsertStep(s, ok);
    var h, e, slot, k := s.headers[s.Cur()], s.prod.e, s.prod.slot, |s.entryOf|;
    KeyedOk(s, ok);
    KeyReady(s);
    BelowItself(s);
    SlotIsFree(s.B, h, s.entries, s.entryOf, s.low, s.ins, s.K0(), s.blockOf, s.phase, e, slot);
    KeyWindow(s.B, h, |s.entries|, s.entries, s.entryOf, s.low, s.ins, s.K0(), e, slot, Base(s.B, k), z.low);
    KeyLive(s.entries, s.entryOf, s.low, s.blockOf, s.phase, e, Some(Base(s.B, k)), z.low, h.cap);
    KeyVisible(s.B, s.headers, |s.entries|, s.entries, e, slot, k);
    SameTails(s, z);
    Assemble(s, z);
  }

  lemma KeyLive(entries: seq<Entry>, entryOf: seq<nat>, low: nat, blockOf: seq<nat>, phase: seq<Phase>, e: nat,
      key: Option<nat>, zlow: nat, cap: nat)
    requires Live(entries, entryOf, low, blockOf, phase) && e < |entries|
    requires zlow == if |entryOf| < low + cap then low else |entryOf| + 1 - cap
    requires |entryOf| <= low + cap && |phase| <= |entryOf|
    requires |entryOf| == low + cap ==> low < |phase| && !Alive(phase[low])
    ensures Live(entries[e := entries[e].(key := key)], entryOf, zlow, blockOf, phase)
  {
  }

  /** The index tail moves to the slot of block number `ins'` - 1, whose key is valid. */
  lemma TailMoves<V>(s: State<V>, z: State<V>, p: nat)
    requires Inv(s) && z.B == s.B && z.headers == s.headers[s.Cur() := s.headers[s.Cur()].(tail := p)]
    requires p < s.headers[s.Cur()].cap
    requires |z.entries| == |s.entries| && forall e :: 0 <= e < |s.entries| ==> z.entries[e].key == s.entries[e].key
    requires forall t :: 0 <= t < |s.readers| && s.readers[t].LoadIndexTail? && s.readers[t].hd == s.Cur() ==>
               Vis(s.B, s.headers[s.Cur()], s.entries, p)
    ensures Heads(z.headers, |s.entries|) && SameIndices(s.headers, z.headers)
    ensures VisKept(s.B, s.headers, s.entries, z.headers, z.entries) && TailsFit(z, s.readers)
  {
    SameKeys(s.B, s.headers, s.entries, z.headers, z.entries);
    MovedHeads(s.headers, z.headers, |s.entries|, p);
    hide C.Inv, Heads, Window, Live, Owns, Cells, Marks, Phases, Taken, Filling, Claim, Vis, Ceil, Fin, BlockNo, ProdOk;
    forall t | 0 <= t < |s.readers| && s.readers[t].LoadIndexTail? && s.readers[t].hd < |z.headers|
      ensures Vis(z.B, z.headers[s.readers[t].hd], z.entries, z.headers[s.readers[t].hd].tail)
    {
      assert ReaderOk(s, t, s.readers[t]);
      hide Reaches;
    }
  }

  lemma MovedHeads(hs: seq<Header>, zs: seq<Header>, n: nat, p: nat)
    requires Heads(hs, n) && p < hs[|hs| - 1].cap && zs == hs[|hs| - 1 := hs[|hs| - 1].(tail := p)]
    ensures Heads(zs, n)
  {
    hide Wrap;
    forall g | 0 <= g < |zs|
      ensures HeaderOk(zs[g], n) && Related(zs[g], zs[|zs| - 1])
    {
      assert HeaderOk(hs[g], n) && Related(hs[g], hs[|hs| - 1]);
    }
  }

  lemma TailReady<V>(s: State<V>)
    requires Inv(s) && s.prod.PTail?
    ensures |s.entryOf| == |s.phase| == s.ins < s.low + s.headers[s.Cur()].cap && s.prod.e < |s.entries|
    ensures NextSlot(s.headers[s.Cur()], s.entries, |s.entryOf|, s.prod.e, s.prod.slot)
    ensures Vis(s.B, s.headers[s.Cur()], s.entries, s.prod.slot) && s.prod.slot < s.headers[s.Cur()].cap
    ensures s.entries[s.prod.e].key == Some(Base(s.B, |s.entryOf|))
    ensures s.low <= s.K0() <= |s.entryOf|
    ensures SameBelow(s.K0(), s.entryOf, s.entryOf + [s.prod.e])
  {
    var k := |s.entryOf|;
    Parts(s.B, k, 0);
    assert Base(s.B, k) + 0 == Base(s.B, k);
  }

  lemma TailedOk<V>(s: State<V>, ok: bool)
    requires Inv(s) && s.prod.PTail?
    ensures ProdOk(InsertStep(s, ok))
  {
    hide C.Inv, Heads, Live, Owns, Cells, Marks, Phases, Taken, Filling, Readers, Wrap, Chain, AllOpen, Ceil;
  }

  lemma LiveGrows(entries: seq<Entry>, entryOf: seq<nat>, low: nat, blockOf: seq<nat>, phase: seq<Phase>, e: nat)
    requires Live(entries, entryOf, low, blockOf, phase)
    ensures Live(entries, entryOf + [e], low, blockOf, phase)
  {
  }

  lemma TailWindow(B: nat, h: Header, entries: seq<Entry>, entryOf: seq<nat>, low: nat, k0: nat, e: nat, slot: nat)
    requires Window(B, h, entries, entryOf, low, |entryOf|, k0) && NextSlot(h, entries, |entryOf|, e, slot)
    requires entries[e].key == Some(Base(B, |entryOf|)) && |entryOf| < low + h.cap
    ensures Window(B, h.(tail := slot), entries, entryOf + [e], low, |entryOf| + 1, k0)
  {
    var g, zs := h.(tail := slot), entryOf + [e];
    forall j | low <= j < |zs|
      ensures g.index[Pos(g, j)] == zs[j] && zs[j] < |entries| && entries[zs[j]].key == Some(Base(B, j))
    {
      assert Pos(g, j) == Pos(h, j);
    }
    hide Wrap, Base;
  }

  lemma TailStep<V>(s: State<V>, ok: bool)
    requires Inv(s) && s.prod.PTail?
    ensures Inv(InsertStep(s, ok))
  {
    hide ProdOk, HeaderOk, C.Inv, Heads, Owns, Cells, Marks, Phases, Taken, Filling, Readers, Wrap, AllOpen, Ceil, Base,
         Window, Live, NextSlot, VisKept, TailsFit, SameBelow, SamePhases, SameIndices, Vis, Fin;
    var z := InsertStep(s, ok);
    var h, e, slot := s.headers[s.Cur()], s.prod.e, s.prod.slot;
    TailReady(s);
    TailedOk(s, ok);
    BelowItself(s);
    TailMoves(s, z, slot);
    TailWindow(s.B, h, s.entries, s.entryOf, s.low, s.K0(), e, slot);
    LiveGrows(s.entries, s.entryOf, s.low, s.blockOf, s.phase, e);
    Assemble(s, z);
  }

  // ---------------------------------------------------------------- blocks for the entries

  lemma OwnsTake(n: nat, free: set<nat>, id: nat, blockOf: seq<nat>, phase: seq<Phase>)
    requires Owns(n, free, {}, blockOf, phase)
    ensures id in free ==> Owns(n, free - {id}, {id}, blockOf, phase)
    ensures Owns(n + 1, free, {n}, blockOf, phase)
  {
  }

  lemma OwnsEnter(n: nat, free: set<nat>, id: nat, blockOf: seq<nat>, phase: seq<Phase>)
    requires Owns(n, free, {id}, blockOf, phase)
    ensures Owns(n, free, {}, blockOf + [id], phase + [Open])
  {
    var b, p := blockOf + [id], phase + [Open];
    forall x | 0 <= x < n
      ensures x in free || exists k :: 0 <= k < |p| && p[k] != Gone && b[k] == x
    {
      if x == id {
        assert p[|phase|] == Open && b[|phase|] == x;
      } else if x !in free {
        var k :| 0 <= k < |phase| && phase[k] != Gone && blockOf[k] == x;
        assert p[k] == phase[k] && b[k] == x;
      }
    }
  }

  lemma CellsFresh<V>(B: nat, blocks: seq<Block<V>>, blockOf: seq<nat>, phase: seq<Phase>, finIn: seq<set<nat>>,
      tail: nat, enq: seq<V>, out: map<nat, V>, extra: seq<V>, zblocks: seq<Block<V>>, id: nat)
    requires Cells(B, blocks, blockOf, phase, finIn, tail, enq, out, extra)
    requires |blocks| <= |zblocks| && forall b :: 0 <= b < |blocks| && b != id ==> zblocks[b] == blocks[b]
    requires forall k :: 0 <= k < |phase| && phase[k] != Gone ==> blockOf[k] != id
    ensures Cells(B, zblocks, blockOf, phase, finIn, tail, enq, out, extra)
  {
    hide Content;
  }

  lemma BlockTaken<V>(s: State<V>, ok: bool, id: nat)
    requires Inv(s) && s.prod.PBlock? && ok
    ensures Inv(BlockStep(s, ok, id))
  {
    hide ProdOk, HeaderOk, C.Inv, Heads, Owns, Cells, Marks, Phases, Taken, Filling, Readers, AllOpen, Ceil, Base,
         Window, Live, VisKept, TailsFit, SameBelow, SamePhases, SameIndices, Vis, Fin, Inv;
    Pieces(s);
    Same(s);
    var z := BlockStep(s, ok, id);
    BlockTakenOk(s, ok, id);
    BelowItself(s);
    SameKeys(s.B, s.headers, s.entries, z.headers, z.entries);
    SameTails(s, z);
    OwnsTake(|s.blocks|, s.free, id, s.blockOf, s.phase);
    var b := z.prod.id;
    assert forall k :: 0 <= k < |s.phase| && s.phase[k] != Gone ==> s.blockOf[k] != b by {
      OwnsApart(|z.blocks|, z.free, b, s.blockOf, s.phase);
    }
    CellsFresh(s.B, s.blocks, s.blockOf, s.phase, s.finIn, s.c.tail, s.enq, s.out, [], z.blocks, b);
    Assemble(s, z);
  }

  lemma Same<V>(s: State<V>)
    requires s.B > 0
    ensures SameFin(s.B, s.finIn, s.finIn) && SameIndices(s.headers, s.headers)
  {
  }

  lemma OwnsApart(n: nat, free: set<nat>, id: nat, blockOf: seq<nat>, phase: seq<Phase>)
    requires Owns(n, free, {id}, blockOf, phase)
    ensures forall k :: 0 <= k < |phase| && phase[k] != Gone ==> blockOf[k] != id
  {
  }

  lemma BlockTakenOk<V>(s: State<V>, ok: bool, id: nat)
    requires Inv(s) && s.prod.PBlock? && ok
    ensures ProdOk(BlockStep(s, ok, id))
  {
    hide C.Inv, Heads, Live, Owns, Cells, Marks, Phases, Taken, Filling, Readers, Wrap, Chain, AllOpen, Ceil;
  }

  lemma ValueReady<V>(s: State<V>)
    requires Inv(s) && s.prod.PValue?
    ensures |s.phase| + 1 == |s.entryOf| && s.low <= |s.phase| && s.entryOf[|s.phase|] == s.prod.e < |s.entries|
    ensures HeaderOk(s.headers[s.Cur()], |s.entries|) && s.K0() <= |s.phase|
    ensures s.prod.id < |s.blocks| && s.blocks[s.prod.id] == Block(Empty(s.B), 0)
    ensures SameBelow(s.K0(), s.blockOf, s.blockOf + [s.prod.id]) && SamePhases(s.K0(), s.phase, s.phase + [Open])
    ensures |s.enq| == s.c.tail && C.Inv(s.c) && Slot(s.B, s.c.tail) == Slot(s.B, s.c.tail)
  {
    hide Live, Owns, Cells, Marks, Taken, Filling, Readers;
  }

  lemma ValuedOk<V>(s: State<V>, ok: bool, id: nat)
    requires Inv(s) && s.prod.PValue?
    ensures ProdOk(BlockStep(s, ok, id))
  {
    hide C.Inv, Heads, Live, Owns, Cells, Marks, Phases, Taken, Filling, Readers, Wrap, Ceil;
  }

  lemma LiveEnter(entries: seq<Entry>, entryOf: seq<nat>, low: nat, blockOf: seq<nat>, phase: seq<Phase>, b: nat)
    requires Live(entries, entryOf, low, blockOf, phase) && low <= |phase| < |entryOf|
    requires entryOf[|phase|] < |entries| && entries[entryOf[|phase|]].value == Some(b)
    ensures Live(entries, entryOf, low, blockOf + [b], phase + [Open])
  {
  }

  /** A block number past the tail starts with an empty block. */
  lemma CellsEnter<V>(B: nat, blocks: seq<Block<V>>, blockOf: seq<nat>, phase: seq<Phase>, finIn: seq<set<nat>>,
      tail: nat, enq: seq<V>, out: map<nat, V>, b: nat)
    requires B > 0 && Cells(B, blocks, blockOf, phase, finIn, tail, enq, out, [])
    requires b < |blocks| && blocks[b] == Block(Empty(B), 0) && Ceil(B, tail) <= |phase|
    ensures Cells(B, blocks, blockOf + [b], phase + [Open], finIn + [{}], tail, enq, out, [])
  {
    var k := |phase|;
    forall o | 0 <= o < B
      ensures Empty<V>(B)[o] == Content(tail, enq, out, [], Base(B, k) + o)
    {
      CeilBounds(B, tail);
      MulDiff(B, Ceil(B, tail), k);
    }
    hide Base, Content, Ceil;
  }

  lemma FinEnter(B: nat, finIn: seq<set<nat>>)
    requires B > 0
    ensures SameFin(B, finIn, finIn + [{}])
  {
    hide BlockNo, Slot;
  }

  lemma FillingPrefix(B: nat, tail: nat, tailBlock: Option<nat>, blockOf: seq<nat>, zblockOf: seq<nat>)
    requires B > 0 && Filling(B, tail, tailBlock, blockOf) && SameBelow(Ceil(B, tail), blockOf, zblockOf)
    ensures Filling(B, tail, tailBlock, zblockOf)
  {
    hide Ceil, Slot;
  }

  lemma PhasesEnter(B: nat, k0: nat, phase: seq<Phase>, finIn: seq<set<nat>>, readers: seq<Reader>)
    requires B > 0 && Phases(B, k0, phase, finIn, readers)
    ensures Phases(B, k0, phase + [Open], finIn + [{}], readers)
  {
  }

  lemma ValueStep<V>(s: State<V>, ok: bool, id: nat)
    requires Inv(s) && s.prod.PValue?
    ensures Inv(BlockStep(s, ok, id))
  {
    hide ProdOk, HeaderOk, C.Inv, Heads, Owns, Cells, Marks, Phases, Taken, Filling, Readers, AllOpen, Ceil, Base,
         Window, Live, VisKept, TailsFit, SameBelow, SamePhases, SameIndices, SameFin, Vis, Fin, Inv;
    Pieces(s);
    Same(s);
    var z := BlockStep(s, ok, id);
    var h, e, b, k := s.headers[s.Cur()], s.prod.e, s.prod.id, |s.phase|;
    ValueReady(s);
    ValuedOk(s, ok, id);
    BelowItself(s);
    SameKeys(s.B, s.headers, s.entries, z.headers, z.entries);
    SameTails(s, z);
    WindowValues(s.B, h, s.entries, s.entryOf, s.low, s.ins, s.K0(), e, Some(b));
    LiveFrame(s.B, h, |s.entries|, s.entries, s.entryOf, s.low, s.ins, s.K0(), s.blockOf, s.phase, k, Some(b), s.phase);
    LiveEnter(z.entries, s.entryOf, s.low, s.blockOf, s.phase, b);
    OwnsEnter(|s.blocks|, s.free, b, s.blockOf, s.phase);
    CellsEnter(s.B, s.blocks, s.blockOf, s.phase, s.finIn, s.c.tail, s.enq, s.out, b);
    FinEnter(s.B, s.finIn);
    PhasesEnter(s.B, s.K0(), s.phase, s.finIn, s.readers);
    FillingPrefix(s.B, s.c.tail, s.tailBlock, s.blockOf, z.blockOf);
    MarksEnter(s.B, s.finIn, s.out, s.enq, s.c.head);
    Assemble(s, z);
  }

  lemma MarksEnter<V>(B: nat, finIn: seq<set<nat>>, out: map<nat, V>, enq: seq<V>, head: nat)
    requires Marks(B, finIn, out, enq, head)
    ensures Marks(B, finIn + [{}], out, enq, head)
  {
    hide Base;
  }

  // ---------------------------------------------------------------- giving entries and blocks up

  lemma InvCounters<V>(s: State<V>)
    requires Inv(s)
    ensures C.Inv(s.c) && C.AllAsk(s.c) && Taken(s.B, s.c, s.finIn) && |s.c.owner| == s.c.head
  {
    hide C.Inv, Owns, Cells, Filling, Readers, Window, Live, Heads, ProdOk, Fin, Marks, Phases;
  }

  /** A claimed index not yet taken belongs to a block number that is still alive and still in the published index. */
  lemma ClaimedIsOpen<V>(s: State<V>, t: nat, i: nat, u: nat, e: nat, x: nat)
    requires Inv(s) && t < |s.c.threads| && Claim(s, t, i, u, e) && u <= x < e
    ensures x < s.c.head <= s.c.tail && s.c.owner[x] == t && x !in s.out
    ensures BlockNo(s.B, x) < s.K0() && s.phase[BlockNo(s.B, x)] == Open && s.low <= BlockNo(s.B, x)
    ensures BlockNo(s.B, x) < |s.entryOf| && s.entryOf[BlockNo(s.B, x)] < |s.entries|
    ensures BlockNo(s.B, x) < |s.blockOf|
    ensures s.entries[s.entryOf[BlockNo(s.B, x)]].value == Some(s.blockOf[BlockNo(s.B, x)])
  {
    hide Inv, C.Inv, Owns, Cells, Marks, ProdOk, Filling, Taken, Ceil, Fin, Phases, Readers, Base, BlockNo, Window,
         Slot;
    Pieces(s);
    BelowItself(s);
    InvCounters(s);
    ClaimBelow(s, t, i, u, e, x);
    C.ClaimOwner(s.c, t, x);
    UntakenIsOpen(s.B, s.K0(), s.phase, s.finIn, s.readers, s.out, s.enq, s.c.head, x);
  }

  lemma UntakenIsOpen<V>(B: nat, k0: nat, phase: seq<Phase>, finIn: seq<set<nat>>, readers: seq<Reader>,
      out: map<nat, V>, enq: seq<V>, head: nat, x: nat)
    requires B > 0 && Phases(B, k0, phase, finIn, readers) && Marks(B, finIn, out, enq, head)
    requires BlockNo(B, x) < k0 && x !in out
    ensures phase[BlockNo(B, x)] == Open && Slot(B, x) !in finIn[BlockNo(B, x)]
  {
    Join(B, x);
    var k, o := BlockNo(B, x), Slot(B, x);
    assert o in Range(0, B);
    assert o in finIn[k] ==> Base(B, k) + o in out;
    hide Base, BlockNo, Slot;
  }

  /** Stepping the index tail back onto block number `n` leaves it fit to be read. */
  lemma TailBack<V>(s: State<V>, n: nat)
    requires Inv(s) && s.K0() <= n + 1 <= s.ins
    ensures forall t :: 0 <= t < |s.readers| && s.readers[t].LoadIndexTail? && s.readers[t].hd == s.Cur() ==>
              Vis(s.B, s.headers[s.Cur()], s.entries, Pos(s.headers[s.Cur()], n))
  {
    forall t | 0 <= t < |s.readers| && s.readers[t].LoadIndexTail? && s.readers[t].hd == s.Cur()
      ensures Vis(s.B, s.headers[s.Cur()], s.entries, Pos(s.headers[s.Cur()], n))
    {
      ReaderClaims(s, t);
      ClaimedIsOpen(s, t, s.readers[t].i, s.readers[t].i, s.readers[t].e, s.readers[t].i);
      KeyFits(s.B, s.headers[s.Cur()], |s.entries|, s.entries, s.entryOf, s.low, s.ins, s.K0(), n);
    }
  }

  lemma ReaderClaims<V>(s: State<V>, t: nat)
    requires s.B > 0 && Readers(s) && t < |s.readers| && s.readers[t].LoadIndexTail?
    ensures t < |s.c.threads| && s.readers[t].i < s.readers[t].e
    ensures Claim(s, t, s.readers[t].i, s.readers[t].i, s.readers[t].e)
  {
    hide Claim, Reaches, Vis;
    assert ReaderOk(s, t, s.readers[t]);
  }

  lemma KeyFits(B: nat, h: Header, m: nat, entries: seq<Entry>, entryOf: seq<nat>, low: nat, ins: nat, k0: nat, n: nat)
    requires B > 0 && HeaderOk(h, m) && Window(B, h, entries, entryOf, low, ins, k0) && low <= n < |entryOf|
    ensures Vis(B, h, entries, Pos(h, n))
  {
    Parts(B, n, 0);
    assert Base(B, n) + 0 == Base(B, n);
    hide Base, BlockNo, Slot, Wrap;
  }

  lemma WindowBack(B: nat, h: Header, entries: seq<Entry>, entryOf: seq<nat>, low: nat, ins: nat, k0: nat)
    requires Window(B, h, entries, entryOf, low, ins, k0) && k0 < ins
    ensures Window(B, h.(tail := Pos(h, ins - 2)), entries, entryOf, low, ins - 1, k0)
    ensures Wrap(h.cap, h.tail - 1) == Pos(h, ins - 2)
  {
    PosNext(h, ins - 1);
    var g := h.(tail := Pos(h, ins - 2));
    forall j | low <= j < |entryOf|
      ensures g.index[Pos(g, j)] == entryOf[j] && entryOf[j] < |entries| && entries[entryOf[j]].key == Some(Base(B, j))
    {
      assert Pos(g, j) == Pos(h, j);
    }
    hide Wrap, Base;
  }

  /** Rewinding the index tail by one entry. */
  lemma RewindStep<V>(s: State<V>, z: State<V>)
    requires Inv(s) && s.K0() < s.ins && s.headers[s.Cur()].cap > 0
    requires z == s.SetIndexTail(Wrap(s.headers[s.Cur()].cap, s.headers[s.Cur()].tail - 1)).(ins := s.ins - 1,
      prod := z.prod)
    requires ProdOk(z) && Extra(z.prod) == Extra(s.prod) && Spare(z.prod) == Spare(s.prod)
    ensures Inv(z)
  {
    hide ProdOk, HeaderOk, C.Inv, Heads, Owns, Cells, Marks, Phases, Taken, Filling, Readers, AllOpen, Ceil, Base,
         Window, Live, VisKept, TailsFit, SameBelow, SamePhases, SameIndices, SameFin, Vis, Fin, Inv, Wrap, Extra,
         Spare;
    Pieces(s);
    Same(s);
    BelowItself(s);
    var h := s.headers[s.Cur()];
    WindowBack(s.B, h, s.entries, s.entryOf, s.low, s.ins, s.K0());
    if s.ins >= 2 {
      TailBack(s, s.ins - 2);
    } else {
      NoClaims(s);
    }
    TailMoves(s, z, Pos(h, s.ins - 2));
    Assemble(s, z);
  }

  /** With nothing published there is nothing to look up. */
  lemma NoClaims<V>(s: State<V>)
    requires Inv(s) && s.K0() == 0
    ensures forall t :: 0 <= t < |s.readers| ==> !s.readers[t].LoadIndexTail?
  {
    forall t | 0 <= t < |s.readers|
      ensures !s.readers[t].LoadIndexTail?
    {
      if s.readers[t].LoadIndexTail? {
        ReaderClaims(s, t);
        ClaimedIsOpen(s, t, s.readers[t].i, s.readers[t].i, s.readers[t].e, s.readers[t].i);
      }
    }
  }

  lemma RewoundOk<V>(s: State<V>, ok: bool, id: nat)
    requires Inv(s) && s.prod.PRewind?
    ensures s.K0() < s.ins && ProdOk(BlockStep(s, ok, id))
  {
    hide C.Inv, Heads, Live, Owns, Cells, Marks, Phases, Taken, Filling, Readers, Wrap, AllOpen, Ceil, Base;
  }

  lemma ClearReady<V>(s: State<V>)
    requires Inv(s) && s.prod.PClear?
    ensures |s.phase| + 1 == |s.entryOf| && s.low <= |s.phase| && s.entryOf[|s.phase|] == s.prod.e < |s.entries|
    ensures HeaderOk(s.headers[s.Cur()], |s.entries|)
  {
    hide Live, Owns, Cells, Marks, Taken, Filling, Readers;
  }

  lemma ClearedOk<V>(s: State<V>, ok: bool, id: nat)
    requires Inv(s) && s.prod.PClear?
    ensures ProdOk(BlockStep(s, ok, id))
  {
    hide C.Inv, Heads, Live, Owns, Cells, Marks, Phases, Taken, Filling, Readers, Wrap, Ceil;
  }

  lemma ClearStep<V>(s: State<V>, ok: bool, id: nat)
    requires Inv(s) && s.prod.PClear?
    ensures Inv(BlockStep(s, ok, id))
  {
    hide ProdOk, HeaderOk, C.Inv, Heads, Owns, Cells, Marks, Phases, Taken, Filling, Readers, AllOpen, Ceil, Base,
         Window, Live, VisKept, TailsFit, SameBelow, SamePhases, SameIndices, SameFin, Vis, Fin, Inv;
    Pieces(s);
    Same(s);
    BelowItself(s);
    ClearReady(s);
    ClearedOk(s, ok, id);
    var z := BlockStep(s, ok, id);
    var h, e, k := s.headers[s.Cur()], s.prod.e, |s.phase|;
    SameKeys(s.B, s.headers, s.entries, z.headers, z.entries);
    SameTails(s, z);
    WindowValues(s.B, h, s.entries, s.entryOf, s.low, s.ins, s.K0(), e, None);
    LiveFrame(s.B, h, |s.entries|, s.entries, s.entryOf, s.low, s.ins, s.K0(), s.blockOf, s.phase, k, None, s.phase);
    Assemble(s, z);
  }

  /** The producer's own lookup finds the entry it inserted. */
  lemma OwnLookup(B: nat, h: Header, m: nat, entries: seq<Entry>, entryOf: seq<nat>, low: nat, ins: nat, k0: nat,
      k: nat)
    requires B > 0 && HeaderOk(h, m) && Window(B, h, entries, entryOf, low, ins, k0)
    requires low < ins && low <= k < |entryOf|
    ensures h.tail < h.cap && h.index[h.tail] < |entries| && entries[h.index[h.tail]].key.Some?
      && entryOf[k] < |entries|
    ensures h.index[Lookup(B, h.cap, h.tail, entries[h.index[h.tail]].key.value, Base(B, k))] == entryOf[k]
  {
    KeyFits(B, h, m, entries, entryOf, low, ins, k0, ins - 1);
    LookupIsPos(B, h, entries, h.tail, Base(B, k));
    Parts(B, k, 0);
    assert Base(B, k) + 0 == Base(B, k);
    hide Base, BlockNo, Slot, Wrap, Lookup;
  }

  lemma UndoReady<V>(s: State<V>)
    requires Inv(s) && s.prod.PUndo? && s.prod.j < |s.prod.got|
    ensures var k := s.K0() + s.prod.j;
      s.low <= k < |s.phase| && k < |s.entryOf| && s.phase[k] == Open
    ensures HeaderOk(s.headers[s.Cur()], |s.entries|) && s.K0() < s.ins
  {
    hide C.Inv, Live, Owns, Cells, Marks, Phases, Taken, Filling, Readers, Wrap, Ceil, Base;
  }

  lemma UndoFinds<V>(s: State<V>)
    requires Inv(s) && s.prod.PUndo? && s.prod.j < |s.prod.got|
    ensures var k := s.K0() + s.prod.j;
      k < |s.entryOf| && s.entryOf[k] < |s.entries| && OwnEntry(s, k) == Some(s.entryOf[k])
  {
    hide Inv, C.Inv, Live, Owns, Cells, Marks, Phases, Taken, Filling, Readers, Wrap, Ceil, Base, Lookup, ProdOk;
    Pieces(s);
    UndoReady(s);
    OwnLookup(s.B, s.headers[s.Cur()], |s.entries|, s.entries, s.entryOf, s.low, s.ins, s.K0(), s.K0() + s.prod.j);
  }

  lemma UndoneOk<V>(s: State<V>)
    requires Inv(s) && s.prod.PUndo? && s.prod.j < |s.prod.got|
    ensures ProdOk(UndoStep(s))
  {
    hide Inv, C.Inv, Heads, Live, Owns, Cells, Marks, Phases, Taken, Filling, Readers, Wrap, Ceil, OwnEntry, Window,
         HeaderOk, Base, Slot, BlockNo;
    Pieces(s);
    UndoReady(s);
    UndoFinds(s);
  }

  lemma OwnsPhase(n: nat, free: set<nat>, spare: set<nat>, blockOf: seq<nat>, phase: seq<Phase>, k: nat, p: Phase)
    requires Owns(n, free, spare, blockOf, phase) && k < |phase| && phase[k] != Gone && p != Gone
    ensures Owns(n, free, spare, blockOf, phase[k := p])
  {
    var ps := phase[k := p];
    forall x | 0 <= x < n
      ensures x in free || x in spare || exists j :: 0 <= j < |ps| && ps[j] != Gone && blockOf[j] == x
    {
      if x !in free && x !in spare {
        var j :| 0 <= j < |phase| && phase[j] != Gone && blockOf[j] == x;
        assert ps[j] != Gone;
      }
    }
  }

  lemma CellsPhase<V>(B: nat, blocks: seq<Block<V>>, blockOf: seq<nat>, phase: seq<Phase>, finIn: seq<set<nat>>,
      tail: nat, enq: seq<V>, out: map<nat, V>, extra: seq<V>, k: nat, p: Phase)
    requires Cells(B, blocks, blockOf, phase, finIn, tail, enq, out, extra) && k < |phase|
    requires p == Gone || phase[k] != Gone
    ensures Cells(B, blocks, blockOf, phase[k := p], finIn, tail, enq, out, extra)
  {
    hide Content, Base;
  }

  lemma UndoEntry<V>(s: State<V>)
    requires Inv(s) && s.prod.PUndo? && s.prod.j < |s.prod.got|
    ensures Inv(UndoStep(s))
  {
    hide ProdOk, HeaderOk, C.Inv, Heads, Owns, Cells, Marks, Phases, Taken, Filling, Readers, AllOpen, Ceil, Base,
         Window, Live, VisKept, TailsFit, SameBelow, SamePhases, SameIndices, SameFin, Vis, Fin, Inv, OwnEntry;
    Pieces(s);
    Same(s);
    BelowItself(s);
    UndoReady(s);
    UndoFinds(s);
    UndoneOk(s);
    var z := UndoStep(s);
    var h, k := s.headers[s.Cur()], s.K0() + s.prod.j;
    SameKeys(s.B, s.headers, s.entries, z.headers, z.entries);
    SameTails(s, z);
    WindowValues(s.B, h, s.entries, s.entryOf, s.low, s.ins, s.K0(), s.entryOf[k], None);
    LiveFrame(s.B, h, |s.entries|, s.entries, s.entryOf, s.low, s.ins, s.K0(), s.blockOf, s.phase, k, None, z.phase);
    OwnsPhase(|s.blocks|, s.free, {}, s.blockOf, s.phase, k, Void);
    CellsPhase(s.B, s.blocks, s.blockOf, s.phase, s.finIn, s.c.tail, s.enq, s.out, [], k, Void);
    PhasesPast(s.B, s.K0(), s.phase, s.finIn, s.readers, k, Void);
    Assemble(s, z);
  }

  lemma PhasesPast(B: nat, k0: nat, phase: seq<Phase>, finIn: seq<set<nat>>, readers: seq<Reader>, k: nat, p: Phase)
    requires Phases(B, k0, phase, finIn, readers) && k0 <= k < |phase| && (p == Void || p == Gone)
    ensures Phases(B, k0, phase[k := p], finIn, readers) && SamePhases(k0, phase, phase[k := p])
  {
  }

  lemma UntailedOk<V>(s: State<V>)
    requires Inv(s) && s.prod.PUndoTail?
    ensures s.K0() < s.ins && ProdOk(UndoStep(s))
  {
    hide C.Inv, Heads, Live, Owns, Cells, Marks, Phases, Taken, Filling, Readers, Wrap, Ceil, Base;
  }

  lemma GiveReady<V>(s: State<V>)
    requires Inv(s) && s.prod.PGive? && s.prod.j < |s.prod.got|
    ensures var k := s.K0() + s.prod.j; k < |s.phase| && s.phase[k] == Void && s.blockOf[k] == s.prod.got[s.prod.j]
    ensures ProdOk(UndoStep(s))
  {
    hide C.Inv, Heads, Live, Owns, Cells, Marks, Phases, Taken, Filling, Readers, Wrap, Ceil, Window;
  }

  lemma OwnsGive(n: nat, free: set<nat>, spare: set<nat>, blockOf: seq<nat>, phase: seq<Phase>, k: nat)
    requires Owns(n, free, spare, blockOf, phase) && k < |phase| && phase[k] != Gone
    ensures Owns(n, free + {blockOf[k]}, spare, blockOf, phase[k := Gone]) && blockOf[k] !in free
  {
    var p := phase[k := Gone];
    forall x | 0 <= x < n
      ensures x in free || x in spare || x == blockOf[k] || exists j :: 0 <= j < |p| && p[j] != Gone && blockOf[j] == x
    {
      if x !in free && x !in spare && x != blockOf[k] {
        var j :| 0 <= j < |phase| && phase[j] != Gone && blockOf[j] == x;
        assert p[j] != Gone;
      }
    }
  }

  lemma LiveGone(entries: seq<Entry>, entryOf: seq<nat>, low: nat, blockOf: seq<nat>, phase: seq<Phase>, k: nat,
      p: Phase)
    requires Live(entries, entryOf, low, blockOf, phase) && k < |phase| && !Alive(p)
    ensures Live(entries, entryOf, low, blockOf, phase[k := p])
  {
  }

  lemma GiveStep<V>(s: State<V>)
    requires Inv(s) && s.prod.PGive? && s.prod.j < |s.prod.got|
    ensures Inv(UndoStep(s))
  {
    hide ProdOk, HeaderOk, C.Inv, Heads, Owns, Cells, Marks, Phases, Taken, Filling, Readers, AllOpen, Ceil, Base,
         Window, Live, VisKept, TailsFit, SameBelow, SamePhases, SameIndices, SameFin, Vis, Fin, Inv;
    Pieces(s);
    Same(s);
    BelowItself(s);
    GiveReady(s);
    var z := UndoStep(s);
    var k := s.K0() + s.prod.j;
    SameKeys(s.B, s.headers, s.entries, z.headers, z.entries);
    SameTails(s, z);
    LiveGone(s.entries, s.entryOf, s.low, s.blockOf, s.phase, k, Gone);
    OwnsGive(|s.blocks|, s.free, {}, s.blockOf, s.phase, k);
    CellsPhase(s.B, s.blocks, s.blockOf, s.phase, s.finIn, s.c.tail, s.enq, s.out, [], k, Gone);
    PhasesPast(s.B, s.K0(), s.phase, s.finIn, s.readers, k, Gone);
    Assemble(s, z);
  }

  lemma LastReady<V>(s: State<V>)
    requires Inv(s) && s.prod.PGive? && s.prod.j >= |s.prod.got|
    ensures AllAre(s.phase, s.K0(), |s.phase|, Gone) && s.K0() <= |s.phase| && s.K0() <= |s.entryOf| && s.ins == s.K0()
    ensures ProdOk(UndoStep(s))
    ensures forall k :: s.K0() <= k < |s.finIn| ==> s.finIn[k] == {}
    ensures SameBelow(s.K0(), s.entryOf, s.entryOf[..s.K0()]) && SameBelow(s.K0(), s.blockOf, s.blockOf[..s.K0()])
    ensures SamePhases(s.K0(), s.phase, s.phase[..s.K0()])
  {
    hide Inv, C.Inv, Heads, Live, Owns, Cells, Marks, Taken, Filling, Readers, Wrap, Ceil, Phases, HeaderOk;
    Pieces(s);
    NothingPast(s);
  }

  lemma MarksEmpty<V>(B: nat, finIn: seq<set<nat>>, out: map<nat, V>, enq: seq<V>, head: nat, k: nat)
    requires Marks(B, finIn, out, enq, head) && k < |finIn| && head <= Base(B, k)
    ensures finIn[k] == {}
  {
    hide Base;
    forall o
      ensures o !in finIn[k]
    {
    }
  }

  lemma NothingPast<V>(s: State<V>)
    requires Inv(s)
    ensures forall k :: s.K0() <= k < |s.finIn| ==> s.finIn[k] == {}
  {
    forall k | s.K0() <= k < |s.finIn|
      ensures s.finIn[k] == {}
    {
      C.NeverOverClaims(s.c);
      CeilBounds(s.B, s.c.tail);
      MulDiff(s.B, s.K0(), k);
      MarksEmpty(s.B, s.finIn, s.out, s.enq, s.c.head, k);
    }
  }

  lemma TruncatedOwns(n: nat, free: set<nat>, blockOf: seq<nat>, phase: seq<Phase>, k0: nat)
    requires Owns(n, free, {}, blockOf, phase) && k0 <= |phase| && AllAre(phase, k0, |phase|, Gone)
    ensures Owns(n, free, {}, blockOf[..k0], phase[..k0])
  {
    var b, p := blockOf[..k0], phase[..k0];
    forall x | 0 <= x < n
      ensures x in free || exists j :: 0 <= j < |p| && p[j] != Gone && b[j] == x
    {
      if x !in free {
        var j :| 0 <= j < |phase| && phase[j] != Gone && blockOf[j] == x;
        assert j < k0 && p[j] == phase[j];
      }
    }
  }

  lemma TruncatedWindow(B: nat, h: Header, entries: seq<Entry>, entryOf: seq<nat>, low: nat, k0: nat)
    requires Window(B, h, entries, entryOf, low, k0, k0)
    ensures Window(B, h, entries, entryOf[..k0], low, k0, k0)
  {
    hide Wrap, Base;
  }

  lemma TruncatedLive(entries: seq<Entry>, entryOf: seq<nat>, low: nat, blockOf: seq<nat>, phase: seq<Phase>, k0: nat)
    requires Live(entries, entryOf, low, blockOf, phase) && k0 <= |phase| && k0 <= |entryOf|
    ensures Live(entries, entryOf[..k0], low, blockOf[..k0], phase[..k0])
  {
  }

  lemma TruncatedCells<V>(B: nat, blocks: seq<Block<V>>, blockOf: seq<nat>, phase: seq<Phase>, finIn: seq<set<nat>>,
      tail: nat, enq: seq<V>, out: map<nat, V>, extra: seq<V>, k0: nat)
    requires Cells(B, blocks, blockOf, phase, finIn, tail, enq, out, extra) && k0 <= |phase|
    ensures Cells(B, blocks, blockOf[..k0], phase[..k0], finIn[..k0], tail, enq, out, extra)
  {
    hide Content, Base;
  }

  lemma TruncatedFin(B: nat, k0: nat, phase: seq<Phase>, finIn: seq<set<nat>>, readers: seq<Reader>)
    requires B > 0 && Phases(B, k0, phase, finIn, readers)
    requires forall k :: k0 <= k < |finIn| ==> finIn[k] == {}
    ensures Phases(B, k0, phase[..k0], finIn[..k0], readers) && SameFin(B, finIn, finIn[..k0])
  {
    hide BlockNo, Slot;
  }

  lemma TruncatedMarks<V>(B: nat, finIn: seq<set<nat>>, out: map<nat, V>, enq: seq<V>, head: nat, k0: nat)
    requires Marks(B, finIn, out, enq, head) && k0 <= |finIn|
    ensures Marks(B, finIn[..k0], out, enq, head)
  {
    hide Base;
  }

  lemma LastGive<V>(s: State<V>)
    requires Inv(s) && s.prod.PGive? && s.prod.j >= |s.prod.got|
    ensures Inv(UndoStep(s))
  {
    hide ProdOk, HeaderOk, C.Inv, Heads, Owns, Cells, Marks, Phases, Taken, Filling, Readers, AllAre, Ceil, Base,
         Window, Live, VisKept, TailsFit, SameBelow, SamePhases, SameIndices, SameFin, Vis, Fin, Inv;
    Pieces(s);
    Same(s);
    LastReady(s);
    var z := UndoStep(s);
    var k0 := s.K0();
    SameKeys(s.B, s.headers, s.entries, z.headers, z.entries);
    SameTails(s, z);
    TruncatedOwns(|s.blocks|, s.free, s.blockOf, s.phase, k0);
    TruncatedWindow(s.B, s.headers[s.Cur()], s.entries, s.entryOf, s.low, k0);
    TruncatedLive(s.entries, s.entryOf, s.low, s.blockOf, s.phase, k0);
    TruncatedCells(s.B, s.blocks, s.blockOf, s.phase, s.finIn, s.c.tail, s.enq, s.out, [], k0);
    TruncatedFin(s.B, k0, s.phase, s.finIn, s.readers);
    TruncatedMarks(s.B, s.finIn, s.out, s.enq, s.c.head, k0);
    FillingPrefix(s.B, s.c.tail, s.tailBlock, s.blockOf, z.blockOf);
    Assemble(s, z);
  }
}
