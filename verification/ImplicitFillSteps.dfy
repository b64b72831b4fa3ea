/**
 * Growing the block index, constructing the elements and publishing them; and with that, every step of the producer.
 */
module ImplicitFillSteps {
  import opened Common
  import opened Blocks
  import C = DequeueCounters
  import opened Claims
  import opened ImplicitQueue
  import opened ImplicitInvariant
  import opened ImplicitFrames
  import opened ImplicitProducerSteps

  // ---------------------------------------------------------------- growth

  lemma DoubledSlots(h: Header, n: nat, ins: nat)
    requires HeaderOk(h, n)
    ensures |Doubled(h, ins, n).index| == 2 * h.cap
    ensures forall p :: 0 <= p < h.cap ==> Doubled(h, ins, n).index[p] == h.index[Wrap(h.cap, h.tail + 1 + p)] < n
    ensures forall p :: h.cap <= p < 2 * h.cap ==> Doubled(h, ins, n).index[p] == n + (p - h.cap)
  {
    hide Wrap;
    forall p: nat | p < h.cap
      ensures Doubled(h, ins, n).index[p] == h.index[Wrap(h.cap, h.tail + 1 + p)] < n
    {
      var r := Wrap(h.cap, h.tail + 1 + p);
      assert h.index[r] < n;
    }
  }

  lemma DoubledOk(h: Header, n: nat, ins: nat)
    requires HeaderOk(h, n)
    ensures HeaderOk(Doubled(h, ins, n), n + h.cap)
  {
    var d := Doubled(h, ins, n);
    DoubledSlots(h, n, ins);
    forall p, q | 0 <= p < q < d.cap
      ensures d.index[p] != d.index[q]
    {
      WrapApart(h.cap, h.tail + 1 + p, h.tail + 1 + q);
      var a, b := Wrap(h.cap, h.tail + 1 + p), Wrap(h.cap, h.tail + 1 + q);
      assert q < h.cap ==> a != b;
      assert a < b ==> h.index[a] != h.index[b];
      assert b < a ==> h.index[b] != h.index[a];
      hide Doubled, Wrap;
    }
    hide Doubled, Wrap;
  }

  /** Where an old slot goes stands for the same block number, up to laps of the old index. */
  lemma DoubledPos(h: Header, ins: nat, q: int)
    requires h.cap > 0 && h.tail == Pos(h, ins - 1)
    ensures Wrap(h.cap, Wrap(h.cap, h.tail + 1 + q) - h.off) == Wrap(h.cap, q - (h.cap - ins))
  {
    hide Wrap;
    WrapAdd(h.cap, h.tail + 1 + q, -h.off);
    WrapAdd(h.cap, ins - 1 + h.off, 1 + q - h.off);
    WrapLap(h.cap, ins + q - h.cap);
  }

  lemma DoubledRelated(g: Header, h: Header, n: nat, ins: nat)
    requires HeaderOk(g, n) && HeaderOk(h, n) && Related(g, h) && h.tail == Pos(h, ins - 1)
    ensures |Doubled(h, ins, n).index| == Doubled(h, ins, n).cap && Related(g, Doubled(h, ins, n))
  {
    var d := Doubled(h, ins, n);
    DoubledSlots(h, n, ins);
    var m := h.cap / g.cap;
    assert h.cap == g.cap * m;
    assert d.cap == (2 * m) * g.cap + 0;
    QuotientIs(g.cap, d.cap, 2 * m, 0);
    forall p, q | 0 <= p < g.cap && 0 <= q < d.cap && g.index[p] == d.index[q]
      ensures Wrap(g.cap, p - g.off) == Wrap(g.cap, q - d.off)
    {
      var r := Wrap(h.cap, h.tail + 1 + q);
      assert h.index[r] == g.index[p];
      DoubledPos(h, ins, q);
      WrapCoarser(g.cap, m, r - h.off, q - d.off);
      hide Wrap;
    }
    hide Wrap;
  }

  lemma DoubledHeads(hs: seq<Header>, n: nat, ins: nat)
    requires Heads(hs, n) && hs[|hs| - 1].tail == Pos(hs[|hs| - 1], ins - 1)
    ensures var h := hs[|hs| - 1]; Heads(hs + [Doubled(h, ins, n)], n + h.cap)
  {
    hide Doubled, Wrap;
    var h := hs[|hs| - 1];
    var d := Doubled(h, ins, n);
    var zs := hs + [d];
    DoubledOk(h, n, ins);
    assert zs[|zs| - 1] == d;
    forall g | 0 <= g < |zs|
      ensures HeaderOk(zs[g], n + h.cap) && Related(zs[g], d)
    {
      if g < |hs| {
        DoubledRelated(hs[g], h, n, ins);
      } else {
        SelfRelated(d, n + h.cap);
      }
    }
  }

  lemma SelfRelated(d: Header, n: nat)
    requires HeaderOk(d, n)
    ensures Related(d, d)
  {
    QuotientIs(d.cap, d.cap, 1, 0);
    hide Wrap;
  }

  lemma DoubledPosOf(h: Header, n: nat, ins: nat, j: nat)
    requires HeaderOk(h, n) && h.tail == Pos(h, ins - 1) && j < ins <= j + h.cap
    ensures var d := Doubled(h, ins, n);
      d.cap == 2 * h.cap && |d.index| == d.cap && d.index[Pos(d, j)] == h.index[Pos(h, j)] < n
  {
    hide Wrap;
    var q := j + h.cap - ins;
    DoubledSlots(h, n, ins);
    WrapSmall(2 * h.cap, q);
    WrapAdd(h.cap, ins - 1 + h.off, 1 + q);
    WrapLap(h.cap, j + h.off);
  }

  lemma DoubledWindow(B: nat, h: Header, n: nat, entries: seq<Entry>, entryOf: seq<nat>, low: nat, ins: nat, k0: nat)
    requires HeaderOk(h, n) && |entries| == n && ins == |entryOf|
    requires Window(B, h, entries, entryOf, low, ins, k0)
    ensures Window(B, Doubled(h, ins, n), entries + seq(h.cap, _ => Entry(None, None)), entryOf, low, ins, k0)
  {
    hide Wrap, Base;
    var d, zs := Doubled(h, ins, n), entries + seq(h.cap, _ => Entry(None, None));
    DoubledSlots(h, n, ins);
    WrapSmall(d.cap, h.cap - 1);
    hide Doubled;
    forall j: nat | low <= j < |entryOf|
      ensures d.index[Pos(d, j)] == entryOf[j] && entryOf[j] < |zs| && zs[entryOf[j]].key == Some(Base(B, j))
    {
      DoubledPosOf(h, n, ins, j);
      hide Pos;
    }
  }

  lemma LiveMore(entries: seq<Entry>, more: seq<Entry>, entryOf: seq<nat>, low: nat, blockOf: seq<nat>,
      phase: seq<Phase>)
    requires Live(entries, entryOf, low, blockOf, phase)
    ensures Live(entries + more, entryOf, low, blockOf, phase)
  {
  }

  lemma GrownOk<V>(s: State<V>, ok: bool)
    requires Inv(s) && s.prod.PGrow? && ok
    ensures ProdOk(InsertStep(s, ok)) && s.ins == |s.entryOf|
  {
    hide Inv, C.Inv, Heads, Live, Owns, Cells, Marks, Phases, Taken, Filling, Readers, Wrap, Ceil, Window, Chain,
         AllOpen;
    Pieces(s);
  }

  lemma WindowTail(B: nat, h: Header, entries: seq<Entry>, entryOf: seq<nat>, low: nat, ins: nat, k0: nat)
    requires Window(B, h, entries, entryOf, low, ins, k0)
    ensures h.tail == Pos(h, ins - 1)
  {
  }

  lemma GrowStep<V>(s: State<V>, ok: bool)
    requires Inv(s) && s.prod.PGrow? && ok
    ensures Inv(InsertStep(s, ok))
  {
    hide Inv, ProdOk, HeaderOk, C.Inv, Owns, Cells, Marks, Phases, Filling, Readers, AllOpen, Ceil, Base, Taken, Window,
         Live, VisKept, TailsFit, SameBelow, SamePhases, SameFin, Vis, Fin, Doubled, Wrap, Related;
    Pieces(s);
    Same(s);
    BelowItself(s);
    GrownOk(s, ok);
    var z := InsertStep(s, ok);
    var h, n := s.headers[s.Cur()], |s.entries|;
    assert HeaderOk(h, n);
    WindowTail(s.B, h, s.entries, s.entryOf, s.low, s.ins, s.K0());
    DoubledHeads(s.headers, n, s.ins);
    DoubledWindow(s.B, h, n, s.entries, s.entryOf, s.low, s.ins, s.K0());
    LiveMore(s.entries, seq(h.cap, _ => Entry(None, None)), s.entryOf, s.low, s.blockOf, s.phase);
    DoubledOk(h, n, s.ins);
    DoubledSlots(h, n, s.ins);
    assert z.headers[z.Cur()] == Doubled(h, s.ins, n);
    HeadsWf(z);
    SameKeys(s.B, s.headers, s.entries, z.headers, z.entries);
    SameTails(s, z);
    Assemble(s, z);
  }

  lemma HeadsWf<V>(z: State<V>)
    requires Heads(z.headers, |z.entries|)
    ensures forall g :: 0 <= g < |z.headers| ==> z.headers[g].cap > 0 && |z.headers[g].index| == z.headers[g].cap
  {
    hide Related;
  }

  // ---------------------------------------------------------------- construction

  /** Inside a block, the tail's own block is still alive: the next free slot has not been dequeued. */
  lemma TailBlockIsOpen<V>(s: State<V>)
    requires Inv(s) && Slot(s.B, s.c.tail) != 0
    ensures 0 < s.K0() && BlockNo(s.B, s.c.tail) == s.K0() - 1 && s.phase[s.K0() - 1] == Open
  {
    hide Inv, C.Inv, Owns, Cells, Filling, Readers, Window, Live, Heads, ProdOk, Taken, Marks, Phases;
    Pieces(s);
    InvCounters(s);
    C.NeverOverClaims(s.c);
    PartBlock(s.B, s.c.tail);
    MarksBelow(s.B, s.finIn, s.out, s.enq, s.c.head, s.c.tail);
    UntakenIsOpen(s.B, s.K0(), s.phase, s.finIn, s.readers, s.out, s.enq, s.c.head, s.c.tail);
  }

  lemma MarksBelow<V>(B: nat, finIn: seq<set<nat>>, out: map<nat, V>, enq: seq<V>, head: nat, x: nat)
    requires Marks(B, finIn, out, enq, head) && head <= x
    ensures x !in out
  {
    hide Base;
  }

  lemma BuildReady<V>(s: State<V>)
    requires Inv(s) && s.prod.PBuild? && s.prod.i < |s.prod.vs|
    ensures var k := BlockNo(s.B, s.c.tail + s.prod.i);
      k < |s.phase| && s.phase[k] == Open && Target(s, s.prod.got, s.c.tail + s.prod.i) == Some(s.blockOf[k])
  {
    hide Inv, C.Inv, Owns, Cells, Readers, Window, Live, Heads, Taken, Marks, Phases, Ceil, BlockNo, Slot, Wrap;
    Pieces(s);
    var x, t := s.c.tail + s.prod.i, s.c.tail;
    CeilSplits(s.B, t, x);
    CeilSplits(s.B, t + |s.prod.vs|, x);
    PartBlock(s.B, t);
    Monotone(s.B, t, x);
    if Slot(s.B, t) != 0 {
      TailBlockIsOpen(s);
    }
    BuildTarget(s, BlockNo(s.B, x));
  }

  lemma BuildTarget<V>(s: State<V>, k: nat)
    requires s.Wf() && ProdOk(s) && s.prod.PBuild? && Filling(s.B, s.c.tail, s.tailBlock, s.blockOf)
    requires k == BlockNo(s.B, s.c.tail + s.prod.i) < Ceil(s.B, s.c.tail + |s.prod.vs|)
    requires k < s.K0() ==>
      k == s.K0() - 1 && Slot(s.B, s.c.tail) != 0 && s.K0() - 1 < |s.phase| && s.phase[s.K0() - 1] == Open
    ensures k < |s.phase| && s.phase[k] == Open && Target(s, s.prod.got, s.c.tail + s.prod.i) == Some(s.blockOf[k])
  {
    hide Ceil, BlockNo, Slot;
  }

  lemma CellsBuild<V>(B: nat, n: nat, free: set<nat>, blocks: seq<Block<V>>, blockOf: seq<nat>, phase: seq<Phase>,
      finIn: seq<set<nat>>, tail: nat, enq: seq<V>, out: map<nat, V>, vs: seq<V>, i: nat, k: nat, o: nat)
    requires B > 0 && i < |vs| && Cells(B, blocks, blockOf, phase, finIn, tail, enq, out, vs[..i])
    requires Owns(n, free, {}, blockOf, phase) && k < |phase| && phase[k] != Gone
    requires o < B && Base(B, k) + o == tail + i
    ensures blockOf[k] < |blocks| && |blocks[blockOf[k]].cells| == B
    ensures var b := blockOf[k];
      Cells(B, blocks[b := blocks[b].(cells := blocks[b].cells[o := Some(vs[i])])], blockOf, phase, finIn, tail, enq,
        out, vs[..i + 1])
  {
    var b := blockOf[k];
    var zs := blocks[b := blocks[b].(cells := blocks[b].cells[o := Some(vs[i])])];
    forall j, p | 0 <= j < |phase| && phase[j] != Gone && 0 <= p < B
      ensures zs[blockOf[j]].cells[p] == Content(tail, enq, out, vs[..i + 1], Base(B, j) + p)
    {
      Parts(B, j, p);
      Parts(B, k, o);
      assert j == k || blockOf[j] != b;
      assert blocks[blockOf[j]].cells[p] == Content(tail, enq, out, vs[..i], Base(B, j) + p);
      hide Base, BlockNo, Slot, Owns;
    }
    hide Base, Content;
  }

  lemma BuiltOk<V>(s: State<V>)
    requires Inv(s) && s.prod.PBuild? && s.prod.i < |s.prod.vs|
    requires FillStep(s).prod == PBuild(s.prod.vs, s.prod.got, s.prod.i + 1)
    ensures ProdOk(FillStep(s))
  {
    hide Inv, C.Inv, Heads, Live, Owns, Cells, Marks, Phases, Taken, Filling, Readers, Wrap, Ceil, Window, Chain,
         AllOpen, Slot;
    Pieces(s);
  }

  lemma BuildStep<V>(s: State<V>)
    requires Inv(s) && s.prod.PBuild? && s.prod.i < |s.prod.vs|
    ensures Inv(FillStep(s))
  {
    hide Inv, ProdOk, HeaderOk, C.Inv, Owns, Cells, Marks, Phases, Filling, Readers, AllOpen, Ceil, Base, Taken, Target,
         BlockNo, Slot, Window, Live, VisKept, TailsFit, SameBelow, SamePhases, SameFin, SameIndices, Vis, Fin, Wrap,
         Related, Heads;
    Pieces(s);
    Same(s);
    BelowItself(s);
    BuildReady(s);
    var i, k, o := s.prod.i, BlockNo(s.B, s.c.tail + s.prod.i), Slot(s.B, s.c.tail + s.prod.i);
    Join(s.B, s.c.tail + i);
    CellsBuild(s.B, |s.blocks|, s.free, s.blocks, s.blockOf, s.phase, s.finIn, s.c.tail, s.enq, s.out, s.prod.vs, i, k,
      o);
    var z := FillStep(s);
    BuiltOk(s);
    SameKeys(s.B, s.headers, s.entries, z.headers, z.entries);
    SameTails(s, z);
    Assemble(s, z);
  }

  // ---------------------------------------------------------------- publication

  lemma CellsPublish<V>(B: nat, blocks: seq<Block<V>>, blockOf: seq<nat>, phase: seq<Phase>, finIn: seq<set<nat>>,
      tail: nat, enq: seq<V>, out: map<nat, V>, vs: seq<V>, head: nat)
    requires Cells(B, blocks, blockOf, phase, finIn, tail, enq, out, vs) && Marks(B, finIn, out, enq, head)
    ensures Cells(B, blocks, blockOf, phase, finIn, tail + |vs|, enq + vs, out, [])
    ensures Marks(B, finIn, out, enq + vs, head)
  {
    forall x: nat
      ensures Content(tail, enq, out, vs, x) == Content(tail + |vs|, enq + vs, out, [], x)
    {
    }
    hide Base, Content;
  }

  lemma PhasesPublish(B: nat, k0: nat, phase: seq<Phase>, finIn: seq<set<nat>>, readers: seq<Reader>)
    requires Phases(B, k0, phase, finIn, readers) && AllOpen(phase, k0)
    ensures Phases(B, |phase|, phase, finIn, readers)
  {
  }

  lemma FillingPublish(B: nat, tail: nat, tailBlock: Option<nat>, blockOf: seq<nat>, got: seq<nat>, n: nat)
    requires B > 0 && Filling(B, tail, tailBlock, blockOf)
    requires |blockOf| == Ceil(B, tail) + |got| == Ceil(B, tail + n)
    requires forall j :: 0 <= j < |got| ==> blockOf[Ceil(B, tail) + j] == got[j]
    ensures Filling(B, tail + n, if got == [] then tailBlock else Some(got[|got| - 1]), blockOf)
  {
    PartBlock(B, tail);
    PartBlock(B, tail + n);
    Join(B, tail + n);
    if got == [] {
      CeilSplits(B, tail, tail);
      Monotone(B, tail, tail + n);
    } else {
      assert blockOf[Ceil(B, tail) + (|got| - 1)] == got[|got| - 1];
    }
    hide Ceil, BlockNo, Slot, Base;
  }

  lemma PublishReady<V>(s: State<V>)
    requires Inv(s) && s.prod.PPublish?
    ensures |s.blockOf| == |s.phase| == |s.entryOf| == s.ins == s.K0() + |s.prod.got|
      == Ceil(s.B, s.c.tail + |s.prod.vs|)
    ensures forall j :: 0 <= j < |s.prod.got| ==> s.blockOf[s.K0() + j] == s.prod.got[j]
    ensures AllOpen(s.phase, s.K0())
  {
    hide Inv, C.Inv, Heads, Live, Owns, Cells, Marks, Phases, Taken, Filling, Readers, Wrap, Ceil, Window;
    Pieces(s);
  }

  lemma WindowPublish(B: nat, h: Header, entries: seq<Entry>, entryOf: seq<nat>, low: nat, ins: nat, k0: nat)
    requires Window(B, h, entries, entryOf, low, ins, k0)
    ensures Window(B, h, entries, entryOf, low, ins, ins)
  {
    hide Wrap, Base;
  }

  lemma PublishStep<V>(s: State<V>)
    requires Inv(s) && s.prod.PPublish?
    ensures Inv(FillStep(s))
  {
    hide ProdOk, HeaderOk, C.Inv, Owns, Cells, Marks, Phases, Filling, Readers, AllOpen, Ceil, Base, Slot, BlockNo,
         Window, Live, VisKept, TailsFit, SameBelow, SamePhases, SameFin, SameIndices, Vis, Fin, Wrap, Related, Heads;
    Same(s);
    BelowItself(s);
    PublishReady(s);
    var z := FillStep(s);
    C.PublishKeepsInv(s.c, |s.prod.vs|);
    WindowPublish(s.B, s.headers[s.Cur()], s.entries, s.entryOf, s.low, s.ins, s.K0());
    CellsPublish(s.B, s.blocks, s.blockOf, s.phase, s.finIn, s.c.tail, s.enq, s.out, s.prod.vs, s.c.head);
    PhasesPublish(s.B, s.K0(), s.phase, s.finIn, s.readers);
    FillingPublish(s.B, s.c.tail, s.tailBlock, s.blockOf, s.prod.got, |s.prod.vs|);
    SameKeys(s.B, s.headers, s.entries, z.headers, z.entries);
    SameTails(s, z);
    ProdReaders(s, z);
    PublishedOk(s);
  }

  lemma PublishedOk<V>(s: State<V>)
    requires Inv(s) && s.prod.PPublish?
    ensures ProdOk(FillStep(s))
  {
    hide Inv, C.Inv, Heads, Live, Owns, Cells, Marks, Phases, Taken, Filling, Readers, Wrap, Ceil, Window;
    Pieces(s);
    PublishReady(s);
  }

  // ---------------------------------------------------------------- all of them

  /** Steps of the producer that change nothing but its own place. */
  lemma TurnStep<V>(s: State<V>, vs: seq<V>, ok: bool, id: nat)
    requires Inv(s)
    requires ProdStep(s, vs, ok, id) == s.(prod := ProdStep(s, vs, ok, id).prod)
    requires Extra(ProdStep(s, vs, ok, id).prod) == Extra(s.prod)
      && Spare(ProdStep(s, vs, ok, id).prod) == Spare(s.prod)
    requires ProdOk(ProdStep(s, vs, ok, id))
    ensures Inv(ProdStep(s, vs, ok, id))
  {
    hide Inv, ProdOk, ProdStep, Extra, Spare;
    Pieces(s);
    ProdOnly(s, ProdStep(s, vs, ok, id));
  }

  predicate Turns<V>(p: Prod<V>, ok: bool) {
    || p.PIdle? || p.PNext? || p.PIndex? || (p.PGrow? && !ok) || (p.PBlock? && !ok)
    || (p.PUndo? && p.j >= |p.got|) || (p.PBuild? && p.i >= |p.vs|)
  }

  lemma TurnedOk<V>(s: State<V>, vs: seq<V>, ok: bool, id: nat)
    requires Inv(s) && Turns(s.prod, ok)
    ensures var z := ProdStep(s, vs, ok, id);
      z == s.(prod := z.prod) && Extra(z.prod) == Extra(s.prod) && Spare(z.prod) == Spare(s.prod) && ProdOk(z)
  {
    hide Inv, C.Inv, Heads, Live, Owns, Cells, Marks, Phases, Taken, Filling, Readers, Wrap, Ceil, Full, ProdOk, Window;
    Pieces(s);
    if s.prod.PIndex? {
      ToKey(s, vs, ok, id);
    } else {
      TurnedEasily(s, vs, ok, id);
    }
  }

  lemma TurnedEasily<V>(s: State<V>, vs: seq<V>, ok: bool, id: nat)
    requires s.Wf() && ProdOk(s) && Turns(s.prod, ok) && !s.prod.PIndex?
    ensures ProdOk(ProdStep(s, vs, ok, id)) && Extra(ProdStep(s, vs, ok, id).prod) == Extra(s.prod)
  {
    hide Wrap, Ceil, Full;
    CeilMonotone(s.B, s.c.tail, s.c.tail + |vs|);
    if s.prod.PBuild? {
      assert s.prod.vs[..|s.prod.vs|] == s.prod.vs;
    }
  }

  lemma ToKey<V>(s: State<V>, vs: seq<V>, ok: bool, id: nat)
    requires Inv(s) && s.prod.PIndex?
    ensures ProdOk(ProdStep(s, vs, ok, id))
  {
    hide Inv, C.Inv, Heads, Live, Owns, Cells, Marks, Phases, Taken, Filling, Readers, Wrap, Ceil, Chain, AllOpen;
    Pieces(s);
    PosNext(s.headers[s.Cur()], s.ins - 1);
  }

  /** Whatever the producer does next keeps the invariant. */
  lemma ProdStepKeepsInv<V>(s: State<V>, vs: seq<V>, ok: bool, id: nat)
    requires Inv(s)
    ensures Inv(ProdStep(s, vs, ok, id))
  {
    hide Inv, ProdOk, InsertStep, BlockStep, UndoStep, FillStep, Extra, Spare;
    Pieces(s);
    var p := s.prod;
    if Turns(p, ok) {
      TurnedOk(s, vs, ok, id);
      TurnStep(s, vs, ok, id);
    } else if p.PGrow? {
      GrowStep(s, ok);
    } else if p.PKey? {
      KeyStep(s, ok);
    } else if p.PTail? {
      TailStep(s, ok);
    } else if p.PBlock? {
      BlockTaken(s, ok, id);
    } else if p.PValue? {
      ValueStep(s, ok, id);
    } else if p.PRewind? {
      RewoundOk(s, ok, id);
      RewindBlock(s, ok, id);
    } else if p.PClear? {
      ClearStep(s, ok, id);
    } else if p.PUndo? {
      UndoEntry(s);
    } else if p.PUndoTail? {
      UntailedOk(s);
      RewindUndo(s);
    } else if p.PGive? {
      if p.j < |p.got| { GiveStep(s); } else { LastGive(s); }
    } else if p.PBuild? {
      BuildStep(s);
    } else {
      PublishStep(s);
    }
  }

  lemma RewindBlock<V>(s: State<V>, ok: bool, id: nat)
    requires Inv(s) && s.prod.PRewind? && s.K0() < s.ins && ProdOk(BlockStep(s, ok, id))
    ensures Inv(BlockStep(s, ok, id))
  {
    hide Inv, ProdOk;
    Pieces(s);
    RewindStep(s, BlockStep(s, ok, id));
  }

  lemma RewindUndo<V>(s: State<V>)
    requires Inv(s) && s.prod.PUndoTail? && s.K0() < s.ins && ProdOk(UndoStep(s))
    ensures Inv(UndoStep(s))
  {
    hide Inv, ProdOk;
    Pieces(s);
    RewindStep(s, UndoStep(s));
  }
}
