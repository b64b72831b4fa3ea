/** Every step of a consumer keeps the invariant: claiming, looking its blocks up, taking elements, freeing blocks. */
module ImplicitConsumerSteps {
  import opened Common
  import opened Blocks
  import C = DequeueCounters
  import opened Claims
  import opened ImplicitQueue
  import opened ImplicitInvariant
  import opened ImplicitFrames
  import opened ImplicitProducerSteps
  import opened ImplicitFillSteps

  // ---------------------------------------------------------------- what every consumer step leaves alone

  ghost predicate Others<V>(s: State<V>, z: State<V>, t: nat)
    requires s.B > 0
  {
    && |z.readers| == |s.readers| && |z.c.threads| == |s.c.threads|
    && forall j :: 0 <= j < |s.readers| && j != t ==> z.readers[j] == s.readers[j] && Kept(s, z, j)
  }

  /** Consumers write no key, and no value but null. */
  ghost predicate ValuesCleared(entries: seq<Entry>, zentries: seq<Entry>) {
    && |zentries| == |entries|
    && forall e :: 0 <= e < |entries| ==>
         zentries[e].key == entries[e].key && (zentries[e].value == entries[e].value || zentries[e].value == None)
  }

  ghost predicate SamePast(k0: nat, phase: seq<Phase>, zphase: seq<Phase>) {
    |zphase| == |phase| && forall k :: k0 <= k < |phase| ==> zphase[k] == phase[k]
  }

  ghost predicate SpareKept<V>(spare: set<nat>, blocks: seq<Block<V>>, zblocks: seq<Block<V>>) {
    |zblocks| == |blocks| && forall b :: b in spare && b < |blocks| ==> zblocks[b] == blocks[b]
  }

  /** The fields of the producer, and the records kept by it. */
  ghost predicate SameProducer<V>(s: State<V>, z: State<V>) {
    && z.B == s.B && z.c.tail == s.c.tail && z.headers == s.headers && z.prod == s.prod && z.tailBlock == s.tailBlock
    && z.enq == s.enq && z.ins == s.ins && z.entryOf == s.entryOf && z.low == s.low && z.blockOf == s.blockOf
  }

  lemma ProdFrame<V>(s: State<V>, z: State<V>)
    requires s.Wf() && z.Wf() && ProdOk(s) && SameProducer(s, z)
    requires ValuesCleared(s.entries, z.entries) && SamePast(s.K0(), s.phase, z.phase)
    requires SpareKept(Spare(s.prod), s.blocks, z.blocks)
    ensures ProdOk(z)
  {
    hide Ceil, Wrap, Base;
    assert AllOpen(s.phase, s.K0()) ==> AllOpen(z.phase, s.K0());
    assert forall f, t, p :: s.K0() <= f && AllAre(s.phase, f, t, p) ==> AllAre(z.phase, f, t, p);
    assert forall f :: s.K0() <= f && AllOpen(s.phase, f) ==> AllOpen(z.phase, f);
    hide AllOpen, AllAre;
  }

  lemma WindowCleared(B: nat, h: Header, entries: seq<Entry>, zentries: seq<Entry>, entryOf: seq<nat>, low: nat,
      ins: nat, k0: nat)
    requires Window(B, h, entries, entryOf, low, ins, k0) && ValuesCleared(entries, zentries)
    ensures Window(B, h, zentries, entryOf, low, ins, k0)
  {
    hide Wrap, Base;
  }

  lemma OtherReaders<V>(s: State<V>, z: State<V>, t: nat)
    requires Inv(s) && SameProducer(s, z) && Others(s, z, t) && ValuesCleared(s.entries, z.entries)
    requires t < |z.readers| && t < |z.c.threads| && ReaderOk(z, t, z.readers[t])
    ensures Readers(z)
  {
    hide Inv, C.Inv, ReaderOk, Kept, Heads, Window, Live, Owns, Cells, Marks, ProdOk, Filling, Taken, VisKept, Ceil;
    Pieces(s);
    InvCounters(s);
    Same(s);
    SameKeys(s.B, s.headers, s.entries, z.headers, z.entries);
    SameTails(s, z);
    forall j | 0 <= j < |z.readers|
      ensures ReaderOk(z, j, z.readers[j])
    {
      if j != t {
        ReaderVis(s, z, j, s.readers[j]);
        hide Vis;
        ReaderFrame(s, z, j, s.readers[j]);
      }
    }
  }

  lemma AssembleCons<V>(s: State<V>, z: State<V>, t: nat)
    requires Inv(s) && z.Wf() && SameProducer(s, z) && Others(s, z, t) && ValuesCleared(s.entries, z.entries)
    requires t < |z.readers| && t < |z.c.threads| && ReaderOk(z, t, z.readers[t])
    requires SamePast(s.K0(), s.phase, z.phase) && SpareKept(Spare(s.prod), s.blocks, z.blocks)
    requires C.Inv(z.c) && C.AllAsk(z.c) && Taken(z.B, z.c, z.finIn)
    requires Live(z.entries, z.entryOf, z.low, z.blockOf, z.phase)
    requires Owns(|z.blocks|, z.free, Spare(z.prod), z.blockOf, z.phase)
    requires Cells(z.B, z.blocks, z.blockOf, z.phase, z.finIn, z.c.tail, z.enq, z.out, Extra(z.prod))
    requires Marks(z.B, z.finIn, z.out, z.enq, z.c.head)
    requires Phases(z.B, z.K0(), z.phase, z.finIn, z.readers)
    ensures Inv(z)
  {
    hide C.Inv, ReaderOk, Heads, Window, Live, Owns, Cells, Marks, ProdOk, Filling, Taken, Ceil, Others, Phases,
         SpareKept, Extra, Spare;
    OtherReaders(s, z, t);
    ProdFrame(s, z);
    WindowCleared(s.B, s.headers[s.Cur()], s.entries, z.entries, s.entryOf, s.low, s.ins, s.K0());
  }

  lemma Unchanged<V>(s: State<V>)
    requires Inv(s)
    ensures ValuesCleared(s.entries, s.entries) && SamePast(s.K0(), s.phase, s.phase)
    ensures SpareKept(Spare(s.prod), s.blocks, s.blocks) && SameProducer(s, s)
    ensures C.Inv(s.c) && C.AllAsk(s.c) && Taken(s.B, s.c, s.finIn)
  {
  }

  // ---------------------------------------------------------------- claiming

  lemma MarksClaim<V>(B: nat, finIn: seq<set<nat>>, out: map<nat, V>, enq: seq<V>, head: nat, zhead: nat)
    requires Marks(B, finIn, out, enq, head) && head <= zhead
    ensures Marks(B, finIn, out, enq, zhead)
  {
    hide Base;
  }

  lemma PhasesRead(B: nat, k0: nat, phase: seq<Phase>, finIn: seq<set<nat>>, readers: seq<Reader>, t: nat, r: Reader)
    requires Phases(B, k0, phase, finIn, readers) && t < |readers|
    requires !readers[t].ClearEntry? && !readers[t].GiveBack?
    ensures Phases(B, k0, phase, finIn, readers[t := r])
  {
  }

  lemma OthersStay<V>(s: State<V>, z: State<V>, t: nat)
    requires Inv(s) && z.B == s.B && z.headers == s.headers && z.entryOf == s.entryOf && z.blockOf == s.blockOf
    requires z.finIn == s.finIn && z.out == s.out && z.phase == s.phase
    requires |z.readers| == |s.readers| && |z.c.threads| == |s.c.threads|
    requires forall j :: 0 <= j < |s.readers| && j != t ==>
      z.readers[j] == s.readers[j] && z.c.threads[j] == s.c.threads[j]
    ensures Others(s, z, t)
  {
    hide Inv, Ceil, Fin;
    Pieces(s);
    BelowItself(s);
  }

  lemma IdleReader<V>(s: State<V>, t: nat)
    requires s.B > 0 && Readers(s) && t < |s.readers| && s.readers[t].NotReading?
    ensures t < |s.c.threads| && !s.c.threads[t].Claimed?
  {
    assert ReaderOk(s, t, s.readers[t]);
  }

  lemma ClaimStep<V>(s: State<V>, t: nat, max: nat)
    requires Inv(s) && t < |s.readers| && s.readers[t].NotReading?
    requires t < |s.c.threads| && s.c.threads[t].Idle? ==> max > 0
    ensures Inv(ConsStep(s, t, max))
  {
    hide Inv, C.Inv, ReaderOk, Kept, Heads, Window, Live, Owns, Cells, Marks, ProdOk, Filling, Taken, VisKept, Ceil,
         Fin, Phases, Readers, Others, C.Step, ValuesCleared, SpareKept;
    Pieces(s);
    Unchanged(s);
    IdleReader(s, t);
    CounterFrame(s.c, t, max);
    var z := ConsStep(s, t, max);
    C.StepKeepsInv(s.c, t, max);
    C.StepAsks(s.c, t, max);
    TakenStep(s.B, s.c, s.finIn, t, max);
    MarksClaim(s.B, s.finIn, s.out, s.enq, s.c.head, z.c.head);
    PhasesRead(s.B, s.K0(), s.phase, s.finIn, s.readers, t, z.readers[t]);
    assert z.readers == s.readers[t := z.readers[t]];
    OthersStay(s, z, t);
    ClaimedOk(s, z, t, max);
    AssembleCons(s, z, t);
  }

  lemma ClaimedOk<V>(s: State<V>, z: State<V>, t: nat, max: nat)
    requires Inv(s) && t < |s.readers| && s.readers[t].NotReading? && t < |s.c.threads| && !s.c.threads[t].Claimed?
    requires z == ConsStep(s, t, max) && |s.c.owner| == s.c.head && C.Inv(z.c) && C.AllAsk(z.c) && t < |z.c.threads|
    ensures ReaderOk(z, t, z.readers[t])
  {
    hide Inv, Heads, Window, Live, Owns, Cells, Marks, ProdOk, Filling, Taken, VisKept, Ceil, Fin, Phases, Readers,
         C.Step, C.Inv;
    Pieces(s);
    CounterFrame(s.c, t, max);
    if z.c.threads[t].Claimed? {
      ClaimHasOne(z.c, t);
    }
    forall x
      ensures x >= s.c.head ==> x !in s.out
    {
      if x >= s.c.head {
        MarksBelow(s.B, s.finIn, s.out, s.enq, s.c.head, x);
      }
    }
  }

  // ---------------------------------------------------------------- looking a block up

  /** Only the consumer's own place changes. */
  lemma ReadStep<V>(s: State<V>, t: nat, r: Reader)
    requires Inv(s) && t < |s.readers| && !s.readers[t].ClearEntry? && !s.readers[t].GiveBack?
    requires t < |s.c.threads| && ReaderOk(s, t, r)
    ensures Inv(s.Read(t, r))
  {
    hide Inv, C.Inv, ReaderOk, Heads, Window, Live, Owns, Cells, Marks, ProdOk, Filling, Taken, Ceil, Fin, Phases,
         Readers, Others, ValuesCleared, SpareKept;
    Pieces(s);
    Unchanged(s);
    var z := s.Read(t, r);
    PhasesRead(s.B, s.K0(), s.phase, s.finIn, s.readers, t, r);
    OthersStay(s, z, t);
    ReaderRead(s, t, t, r, r);
    AssembleCons(s, z, t);
  }

  /** What a place means does not depend on the recorded places. */
  lemma ReaderRead<V>(s: State<V>, t: nat, j: nat, r: Reader, q: Reader)
    requires s.B > 0 && t < |s.readers| && j < |s.c.threads| && ReaderOk(s, j, q)
    ensures ReaderOk(s.Read(t, r), j, q)
  {
    hide Fin, BlockNo, Base, Vis;
    var z := s.Read(t, r);
    assert forall i, u, e :: Claim(s, j, i, u, e) ==> Claim(z, j, i, u, e);
    assert forall hd, i, e :: Reaches(s, hd, i, e) ==> Reaches(z, hd, i, e);
    hide Claim, Reaches;
  }

  /** The published index reaches every index a consumer has claimed and not taken, and its tail is fit to be read. */
  lemma FreshIndexReaches<V>(s: State<V>, t: nat, i: nat, e: nat)
    requires Inv(s) && t < |s.c.threads| && i < e && Claim(s, t, i, i, e)
    ensures Reaches(s, s.Cur(), i, e)
    ensures Vis(s.B, s.headers[s.Cur()], s.entries, s.headers[s.Cur()].tail)
  {
    hide Inv, C.Inv, Live, Owns, Cells, Marks, ProdOk, Filling, Taken, Ceil, Fin, Phases, Readers, Base, BlockNo, Claim,
         Wrap;
    Pieces(s);
    InvCounters(s);
    var h := s.headers[s.Cur()];
    forall x: nat | i <= x < e
      ensures BlockNo(s.B, x) < |s.entryOf| && h.index[Pos(h, BlockNo(s.B, x))] == s.entryOf[BlockNo(s.B, x)]
      ensures BlockNo(s.B, x) < s.K0() && s.low <= BlockNo(s.B, x)
    {
      ClaimedIsOpen(s, t, i, i, e, x);
    }
    assert s.low <= BlockNo(s.B, i) < s.K0();
    KeyFits(s.B, h, |s.entries|, s.entries, s.entryOf, s.low, s.ins, s.K0(), s.ins - 1);
  }

  lemma ReaderIs<V>(s: State<V>, t: nat)
    requires Inv(s) && t < |s.readers|
    ensures t < |s.c.threads| && ReaderOk(s, t, s.readers[t])
  {
    hide C.Inv, Owns, Cells, Marks, ProdOk, Filling, Taken, Ceil, Fin, Phases, ReaderOk, Window, Slot, Heads;
  }

  /** The lookup is right, whatever the producer did between its three loads. */
  lemma FoundOk<V>(s: State<V>, t: nat)
    requires Inv(s) && t < |s.readers| && FindStep(s, t) == s.Read(t, FindStep(s, t).readers[t])
    requires t < |FindStep(s, t).readers| && t < |s.c.threads|
    requires s.readers[t].LoadIndex? || s.readers[t].LoadIndexTail? || s.readers[t].LoadKey? || s.readers[t].LoadValue?
    ensures ReaderOk(s, t, FindStep(s, t).readers[t])
  {
    hide Inv, C.Inv, Heads, Window, Live, Owns, Cells, Marks, ProdOk, Filling, Taken, Ceil, Fin, Phases, Readers, Base,
         BlockNo, Claim, Reaches, Vis, Lookup, Pos, Slot, Wrap;
    Pieces(s);
    ReaderIs(s, t);
    match s.readers[t]
    case LoadIndex(i, e) => FreshIndexReaches(s, t, i, e);
    case LoadIndexTail(_, _, _) =>
    case LoadKey(i, e, hd, tp) =>
      ReachesIn(s, hd, i, e);
      LookupIsPos(s.B, s.headers[hd], s.entries, tp, i);
    case LoadValue(i, e, hd, idx) =>
      ReachesAt(s, hd, i, e, i);
      ClaimedIsOpen(s, t, i, i, e, i);
      BlockOf(s.B, BlockNo(s.B, i), i);
  }

  lemma ReachesAt<V>(s: State<V>, hd: nat, i: nat, e: nat, x: nat)
    requires s.B > 0 && Reaches(s, hd, i, e) && i <= x < e
    ensures hd < |s.headers| && s.headers[hd].cap > 0 && |s.headers[hd].index| == s.headers[hd].cap
    ensures BlockNo(s.B, x) < |s.entryOf|
    ensures s.headers[hd].index[Pos(s.headers[hd], BlockNo(s.B, x))] == s.entryOf[BlockNo(s.B, x)]
  {
    hide Wrap, BlockNo;
  }

  lemma FindKeepsInv<V>(s: State<V>, t: nat)
    requires Inv(s) && t < |s.readers|
    requires s.readers[t].LoadIndex? || s.readers[t].LoadIndexTail? || s.readers[t].LoadKey? || s.readers[t].LoadValue?
    ensures Inv(FindStep(s, t))
  {
    hide Inv, ReaderOk, Lookup;
    Pieces(s);
    var z := FindStep(s, t);
    assert z == s.Read(t, z.readers[t]) by {
      assert s.readers[t := s.readers[t]] == s.readers;
    }
    FoundOk(s, t);
    ReadStep(s, t, z.readers[t]);
  }

  // ---------------------------------------------------------------- taking an element

  lemma TakeReady<V>(s: State<V>, t: nat)
    requires Inv(s) && t < |s.readers| && s.readers[t].Take?
    ensures var r := s.readers[t];
      && t < |s.c.threads| && r.i0 < r.e && r.i0 <= r.i <= r.e && Claim(s, t, r.i0, r.i, r.e)
      && r.i <= Base(s.B, BlockNo(s.B, r.i0) + 1) && Reaches(s, r.hd, r.i0, r.e)
      && r.hd < |s.headers| && r.idx == Pos(s.headers[r.hd], BlockNo(s.B, r.i0))
      && BlockNo(s.B, r.i0) < |s.phase| && BlockNo(s.B, r.i0) < s.K0() && BlockNo(s.B, r.i0) < |s.entryOf|
      && r.b == s.blockOf[BlockNo(s.B, r.i0)] && s.phase[BlockNo(s.B, r.i0)] == Open
      && forall x :: r.i0 <= x < r.i ==> x in s.out && !Fin(s.B, s.finIn, x)
  {
    hide Inv, C.Inv, Owns, Cells, Marks, ProdOk, Filling, Taken, Ceil, Fin, Phases, Readers, Base, BlockNo, Window,
         Slot, Pos, Wrap, Live, Heads;
    Pieces(s);
    InvCounters(s);
    BelowItself(s);
    ReaderIs(s, t);
    var r := s.readers[t];
    ReachesIn(s, r.hd, r.i0, r.e);
    ClaimBelow(s, t, r.i0, r.i, r.e, r.i0);
    if r.i0 < r.i {
      NotFinIsOpen(s.B, s.K0(), s.phase, s.finIn, s.readers, r.i0);
    } else {
      ClaimedIsOpen(s, t, r.i0, r.i, r.e, r.i0);
    }
  }

  lemma NotFinIsOpen(B: nat, k0: nat, phase: seq<Phase>, finIn: seq<set<nat>>, readers: seq<Reader>, x: nat)
    requires B > 0 && Phases(B, k0, phase, finIn, readers) && BlockNo(B, x) < k0 && !Fin(B, finIn, x)
    ensures phase[BlockNo(B, x)] == Open
  {
    assert Slot(B, x) in Range(0, B);
    hide BlockNo, Slot;
  }

  lemma CellsTake<V>(B: nat, n: nat, free: set<nat>, spare: set<nat>, blocks: seq<Block<V>>, blockOf: seq<nat>,
      phase: seq<Phase>, finIn: seq<set<nat>>, tail: nat, enq: seq<V>, out: map<nat, V>, extra: seq<V>, i: nat)
    requires B > 0 && Cells(B, blocks, blockOf, phase, finIn, tail, enq, out, extra)
      && Owns(n, free, spare, blockOf, phase)
    requires BlockNo(B, i) < |phase| && phase[BlockNo(B, i)] != Gone && i < tail && i !in out
    ensures var b, o := blockOf[BlockNo(B, i)], Slot(B, i);
      && b < |blocks| && o < |blocks[b].cells| && blocks[b].cells[o] == Some(enq[i])
      && Cells(B, blocks[b := blocks[b].(cells := blocks[b].cells[o := None])], blockOf, phase, finIn,
               tail, enq, out[i := enq[i]], extra)
  {
    var k, o := BlockNo(B, i), Slot(B, i);
    var b := blockOf[k];
    Join(B, i);
    assert blocks[b].cells[o] == Content(tail, enq, out, extra, Base(B, k) + o);
    var zs := blocks[b := blocks[b].(cells := blocks[b].cells[o := None])];
    forall j, p | 0 <= j < |phase| && phase[j] != Gone && 0 <= p < B
      ensures zs[blockOf[j]].cells[p] == Content(tail, enq, out[i := enq[i]], extra, Base(B, j) + p)
    {
      Parts(B, j, p);
      assert j == k || blockOf[j] != b;
      assert blocks[blockOf[j]].cells[p] == Content(tail, enq, out, extra, Base(B, j) + p);
      hide Base, BlockNo, Slot, Owns;
    }
    hide Base, Content;
  }

  lemma SpareApart<V>(n: nat, free: set<nat>, spare: set<nat>, blocks: seq<Block<V>>, zblocks: seq<Block<V>>,
      blockOf: seq<nat>, phase: seq<Phase>, k: nat)
    requires Owns(n, free, spare, blockOf, phase) && k < |phase| && phase[k] != Gone
    requires |zblocks| == |blocks| && forall b :: 0 <= b < |blocks| && b != blockOf[k] ==> zblocks[b] == blocks[b]
    ensures SpareKept(spare, blocks, zblocks)
  {
  }

  lemma MarksTake<V>(B: nat, finIn: seq<set<nat>>, out: map<nat, V>, enq: seq<V>, head: nat, i: nat)
    requires Marks(B, finIn, out, enq, head) && i < head && i < |enq|
    ensures Marks(B, finIn, out[i := enq[i]], enq, head)
  {
    hide Base;
  }

  lemma OthersTake<V>(s: State<V>, z: State<V>, t: nat, i: nat)
    requires Inv(s) && z.B == s.B && z.headers == s.headers && z.entryOf == s.entryOf && z.blockOf == s.blockOf
    requires z.finIn == s.finIn && z.phase == s.phase && z.c == s.c
    requires forall x :: x in z.out <==> x in s.out || x == i
    requires i < |s.c.owner| && s.c.owner[i] == t && |z.readers| == |s.readers|
    requires forall j :: 0 <= j < |s.readers| && j != t ==> z.readers[j] == s.readers[j]
    ensures Others(s, z, t)
  {
    hide Inv, Ceil, Fin;
    Pieces(s);
    BelowItself(s);
  }

  lemma TookOk<V>(s: State<V>, z: State<V>, t: nat, v: V)
    requires Inv(s) && t < |s.readers| && s.readers[t].Take? && s.readers[t].i < s.readers[t].e
    requires var r := s.readers[t]; r.i < Base(s.B, BlockNo(s.B, r.i0) + 1)
    requires var r := s.readers[t];
      z == s.(blocks := z.blocks, out := s.out[r.i := v],
        readers := s.readers[t := Take(r.i0, r.i + 1, r.e, r.hd, r.idx, r.b)])
    ensures t < |z.readers| && t < |z.c.threads| && ReaderOk(z, t, z.readers[t])
  {
    hide Inv, C.Inv, Owns, Cells, Marks, ProdOk, Filling, Taken, Ceil, Phases, Readers, Base, BlockNo, Window, Slot,
         Pos, Wrap, Live, Heads;
    Pieces(s);
    TakeReady(s, t);
    var r := s.readers[t];
    ClaimedIsOpen(s, t, r.i0, r.i, r.e, r.i);
    UntakenIsOpen(s.B, s.K0(), s.phase, s.finIn, s.readers, s.out, s.enq, s.c.head, r.i);
    assert !Fin(s.B, s.finIn, r.i);
    hide Fin;
  }

  /** The element taken for a claimed index is the one enqueued there. */
  lemma TakeOne<V>(s: State<V>, t: nat)
    requires Inv(s) && t < |s.readers| && s.readers[t].Take? && s.readers[t].i < s.readers[t].e
    requires var r := s.readers[t]; r.i < Base(s.B, BlockNo(s.B, r.i0) + 1)
    ensures s.readers[t].i < |s.enq| && TakeStep(s, t).out == s.out[s.readers[t].i := s.enq[s.readers[t].i]]
    ensures Inv(TakeStep(s, t))
  {
    hide Inv, C.Inv, ReaderOk, Heads, Window, Live, Owns, Cells, Marks, ProdOk, Filling, Taken, Ceil, Fin, Reaches, Pos,
         Wrap, Phases, Readers, Others, ValuesCleared, SpareKept, Base, BlockNo, Slot, Claim, Extra, Spare;
    Pieces(s);
    Unchanged(s);
    TakeReady(s, t);
    var r := s.readers[t];
    var i, k := r.i, BlockNo(s.B, r.i);
    ClaimedIsOpen(s, t, r.i0, i, r.e, i);
    SameBlock(s.B, r.i0, i);
    CellsTake(s.B, |s.blocks|, s.free, Spare(s.prod), s.blocks, s.blockOf, s.phase, s.finIn, s.c.tail, s.enq, s.out,
      Extra(s.prod), i);
    var z := TakeStep(s, t);
    MarksTake(s.B, s.finIn, s.out, s.enq, s.c.head, i);
    SpareApart(|s.blocks|, s.free, Spare(s.prod), s.blocks, z.blocks, s.blockOf, s.phase, k);
    PhasesRead(s.B, s.K0(), s.phase, s.finIn, s.readers, t, z.readers[t]);
    OthersTake(s, z, t, i);
    TookOk(s, z, t, s.enq[i]);
    AssembleCons(s, z, t);
  }

  // ---------------------------------------------------------------- completing a part of a block

  lemma CellsCount<V>(B: nat, n: nat, free: set<nat>, spare: set<nat>, blocks: seq<Block<V>>, blockOf: seq<nat>,
      phase: seq<Phase>, finIn: seq<set<nat>>, tail: nat, enq: seq<V>, out: map<nat, V>, extra: seq<V>, k: nat,
      f: set<nat>)
    requires Cells(B, blocks, blockOf, phase, finIn, tail, enq, out, extra) && Owns(n, free, spare, blockOf, phase)
    requires k < |phase| && phase[k] != Gone
    ensures blockOf[k] < |blocks| && blocks[blockOf[k]].done == |finIn[k]|
    ensures Cells(B, blocks[blockOf[k] := blocks[blockOf[k]].(done := |f|)], blockOf, phase, finIn[k := f], tail, enq,
      out, extra)
  {
    forall j | 0 <= j < |phase| && phase[j] != Gone && j != k
      ensures blockOf[j] != blockOf[k]
    {
    }
    hide Content, Base, Owns;
  }

  lemma MarksCount<V>(B: nat, finIn: seq<set<nat>>, out: map<nat, V>, enq: seq<V>, head: nat, i0: nat, i: nat, k: nat,
      o: nat, f: set<nat>)
    requires B > 0 && Marks(B, finIn, out, enq, head) && i0 < i <= Base(B, k + 1) && k == BlockNo(B, i0) < |finIn|
      && o == Slot(B, i0)
    requires f == finIn[k] + Range(o, i - i0) && forall x :: i0 <= x < i ==> x in out
    ensures Marks(B, finIn[k := f], out, enq, head)
  {
    hide BlockNo, Slot, Base;
    var part: set<nat> := Range(o, i - i0);
    SameBlock(B, i0, i - 1);
    Join(B, i0);
    forall p | p in part
      ensures p < B && Base(B, k) + p in out
    {
      assert Base(B, k) + p == i0 + (p - o);
    }
  }

  lemma PhasesCount(B: nat, k0: nat, phase: seq<Phase>, finIn: seq<set<nat>>, readers: seq<Reader>, k: nat, f: set<nat>)
    requires Phases(B, k0, phase, finIn, readers) && k < k0 && phase[k] == Open
    ensures |f| < B ==> Phases(B, k0, phase, finIn[k := f], readers)
  {
  }

  lemma PhasesClose(B: nat, k0: nat, phase: seq<Phase>, finIn: seq<set<nat>>, readers: seq<Reader>, k: nat, t: nat,
      r: Reader)
    requires Phases(B, k0, phase, finIn, readers) && k < k0 && phase[k] == Open
    requires t < |readers| && r.ClearEntry? && r.k == k && !readers[t].ClearEntry? && !readers[t].GiveBack?
    ensures Phases(B, k0, phase[k := Closing(t)], finIn[k := Range(0, B)], readers[t := r])
  {
  }

  ghost predicate OnlyOpen(phase: seq<Phase>, zphase: seq<Phase>) {
    |zphase| == |phase| && forall k :: 0 <= k < |phase| && phase[k] != zphase[k] ==> phase[k] == Open
  }

  lemma OthersCount<V>(s: State<V>, z: State<V>, t: nat, i0: nat, i: nat, e: nat)
    requires Inv(s) && z.B == s.B && z.headers == s.headers && z.entryOf == s.entryOf && z.blockOf == s.blockOf
    requires z.out == s.out && z.c == s.c && t < |s.c.threads| && Claim(s, t, i0, i, e)
    requires FinPlus(s.B, s.finIn, z.finIn, i0, i) && OnlyOpen(s.phase, z.phase)
    requires |z.readers| == |s.readers| && forall j :: 0 <= j < |s.readers| && j != t ==> z.readers[j] == s.readers[j]
    ensures Others(s, z, t)
  {
    hide Inv, Ceil, Fin, C.Inv, Heads, Window, Live, Owns, Cells, Marks, Readers, ProdOk, Filling, Taken;
    Pieces(s);
    InvCounters(s);
    BelowItself(s);
    forall x: nat
      ensures i0 <= x < i ==> x < |s.c.owner| && s.c.owner[x] == t
    {
      C.ClaimOwner(s.c, t, x);
      hide *;
    }
  }

  ghost predicate NotEnding(phase: seq<Phase>, t: nat) {
    forall k :: 0 <= k < |phase| ==> phase[k] != Closing(t) && phase[k] != Closed(t)
  }

  // ---------------------------------------------------------------- leaving a block

  /** Done with block number `k`: the next block of the claim is in the next slot of the same index. */
  lemma NextOk<V>(s: State<V>, t: nat, k: nat, i: nat, e: nat, hd: nat, idx: nat)
    requires s.Wf() && t < |s.c.threads| && i < e && Claim(s, t, i, i, e) && Reaches(s, hd, i, e)
    requires hd < |s.headers| && idx == Pos(s.headers[hd], k) && i == Base(s.B, k + 1)
    ensures ReaderOk(s, t, LoadValue(i, e, hd, Wrap(s.headers[hd].cap, idx + 1)))
  {
    PosNext(s.headers[hd], k);
    Parts(s.B, k + 1, 0);
    assert Base(s.B, k + 1) + 0 == Base(s.B, k + 1);
    hide Claim, Reaches, Base, BlockNo, Wrap;
  }

  lemma TakenRelease<V>(s: State<V>, t: nat, i: nat, e: nat)
    requires s.B > 0 && Taken(s.B, s.c, s.finIn) && Claim(s, t, i, i, e) && i == e
    ensures Taken(s.B, C.Release(s.c, t), s.finIn)
  {
    hide Fin;
  }

  lemma OthersLeave<V>(s: State<V>, z: State<V>, y: State<V>, t: nat)
    requires s.B > 0 && Others(s, z, t)
    requires y == z.(c := y.c, readers := y.readers) && |y.readers| == |z.readers| && |y.c.threads| == |z.c.threads|
    requires forall j :: 0 <= j < |z.readers| && j != t ==>
      y.readers[j] == z.readers[j] && y.c.threads[j] == z.c.threads[j]
    requires |z.readers| == |z.c.threads|
    ensures Others(s, y, t)
  {
    hide SameClaim, Ceil, SameIndices, SameBelow, SameEnding;
    forall j | 0 <= j < |s.readers| && j != t
      ensures y.readers[j] == s.readers[j] && Kept(s, y, j)
    {
      assert Kept(s, z, j);
      assert SameClaim(s, z, j) ==> SameClaim(s, y, j) by { SameClaimLeave(s, z, y, j); }
    }
  }

  lemma SameClaimLeave<V>(s: State<V>, z: State<V>, y: State<V>, j: nat)
    requires s.B > 0 && z.B == s.B && y == z.(c := y.c, readers := y.readers)
    ensures SameClaim(s, z, j) ==> SameClaim(s, y, j)
  {
    hide Fin;
  }

  lemma PhasesLeave(B: nat, k0: nat, phase: seq<Phase>, finIn: seq<set<nat>>, readers: seq<Reader>, t: nat, r: Reader)
    requires Phases(B, k0, phase, finIn, readers) && NotEnding(phase, t) && t < |readers|
    ensures Phases(B, k0, phase, finIn, readers[t := r])
  {
  }

  /** From a state where consumer `t` has finished with a block to the one where it has moved on. */
  lemma LeaveBlock<V>(s: State<V>, z: State<V>, t: nat, k: nat, i: nat, e: nat, hd: nat, idx: nat)
    requires Inv(s) && z.Wf() && SameProducer(s, z) && Others(s, z, t) && ValuesCleared(s.entries, z.entries)
    requires z.c == s.c && t < |z.readers| && t < |z.c.threads| && NotEnding(z.phase, t)
    requires SamePast(s.K0(), s.phase, z.phase) && SpareKept(Spare(s.prod), s.blocks, z.blocks)
    requires Taken(z.B, z.c, z.finIn)
    requires Live(z.entries, z.entryOf, z.low, z.blockOf, z.phase)
    requires Owns(|z.blocks|, z.free, Spare(z.prod), z.blockOf, z.phase)
    requires Cells(z.B, z.blocks, z.blockOf, z.phase, z.finIn, z.c.tail, z.enq, z.out, Extra(z.prod))
    requires Marks(z.B, z.finIn, z.out, z.enq, z.c.head)
    requires Phases(z.B, z.K0(), z.phase, z.finIn, z.readers)
    requires Claim(z, t, i, i, e) && Reaches(z, hd, i, e) && hd < |z.headers| && idx == Pos(z.headers[hd], k)
    requires i < e ==> i == Base(z.B, k + 1)
    ensures Inv(AfterBlock(z, t, i, e, hd, idx))
  {
    hide Inv, C.Inv, ReaderOk, Heads, Window, Live, Owns, Cells, Marks, ProdOk, Filling, Taken, Ceil, Fin, Reaches, Pos,
         Wrap, Phases, Readers, Others, ValuesCleared, SpareKept, Base, BlockNo, Slot, Extra, Spare;
    var y := AfterBlock(z, t, i, e, hd, idx);
    InvCounters(s);
    PhasesLeave(z.B, z.K0(), z.phase, z.finIn, z.readers, t, y.readers[t]);
    assert y.readers == z.readers[t := y.readers[t]];
    OthersLeave(s, z, y, t);
    if i == e {
      C.ReleaseKeepsInv(z.c, t);
      TakenRelease(z, t, i, e);
      ReleasedOk(y, t);
    } else {
      NextOk(z, t, k, i, e, hd, idx);
      ReaderRead(z, t, t, y.readers[t], y.readers[t]);
    }
    hide Claim;
    AssembleCons(s, y, t);
  }

  lemma ReleasedOk<V>(y: State<V>, t: nat)
    requires y.B > 0 && t < |y.readers| && t < |y.c.threads| && y.readers[t].NotReading? && y.c.threads[t].Idle?
    ensures ReaderOk(y, t, y.readers[t])
  {
  }

  lemma NotEndingYet(B: nat, k0: nat, phase: seq<Phase>, finIn: seq<set<nat>>, readers: seq<Reader>, t: nat)
    requires Phases(B, k0, phase, finIn, readers) && t < |readers| && !readers[t].ClearEntry? && !readers[t].GiveBack?
    ensures NotEnding(phase, t)
  {
  }

  /** What counting the taken part of a block does, before moving on. */
  function Counted<V>(s: State<V>, t: nat, k: nat, f: set<nat>, closing: bool): State<V>
    requires s.Wf() && k < |s.phase| && s.blockOf[k] < |s.blocks|
  {
    s.(blocks := s.blocks[s.blockOf[k] := s.blocks[s.blockOf[k]].(done := |f|)], finIn := s.finIn[k := f],
       phase := if closing then s.phase[k := Closing(t)] else s.phase)
  }

  lemma ClaimCount<V>(s: State<V>, z: State<V>, t: nat, i0: nat, i: nat, e: nat)
    requires s.B > 0 && Claim(s, t, i0, i, e) && FinPlus(s.B, s.finIn, z.finIn, i0, i)
    requires z.B == s.B && z.c == s.c && z.out == s.out
    ensures Claim(z, t, i, i, e)
  {
    hide Fin;
  }

  lemma LiveClose(entries: seq<Entry>, entryOf: seq<nat>, low: nat, blockOf: seq<nat>, phase: seq<Phase>, k: nat,
      t: nat)
    requires Live(entries, entryOf, low, blockOf, phase) && k < |phase| && phase[k] == Open
    ensures Live(entries, entryOf, low, blockOf, phase[k := Closing(t)])
  {
  }

  /** The slots just taken are counted: each once, and the count reaches the block size just when all are in. */
  lemma TakeSizes<V>(s: State<V>, t: nat, k: nat, o: nat, f: set<nat>)
    requires Inv(s) && t < |s.readers| && s.readers[t].Take? && t < |s.c.threads|
    requires k == BlockNo(s.B, s.readers[t].i0) < |s.phase| && o == Slot(s.B, s.readers[t].i0)
    requires s.readers[t].i == s.readers[t].e || s.readers[t].i >= Base(s.B, k + 1)
    requires f == s.finIn[k] + Range(o, s.readers[t].i - s.readers[t].i0)
    ensures s.readers[t].i0 < s.readers[t].i <= Base(s.B, k + 1) && s.blockOf[k] == s.readers[t].b
    ensures s.phase[k] == Open && k < s.K0() && forall x :: s.readers[t].i0 <= x < s.readers[t].i ==> x in s.out
    ensures |f| == |s.finIn[k]| + (s.readers[t].i - s.readers[t].i0) <= s.B
    ensures |f| == s.B ==> f == Range(0, s.B)
  {
    hide Range, Inv, Owns, Cells, Marks, Ceil, Fin, Reaches, Pos, Wrap, Claim, Phases, Readers, Base, BlockNo, Slot;
    Pieces(s);
    TakeReady(s, t);
    var r := s.readers[t];
    MarksInside(s.B, s.finIn, s.out, s.enq, s.c.head, k);
    PastStart(s.B, r.i0, k);
    CountGrows(s.B, s.finIn, r.i0, r.i, k, o, f);
  }

  lemma TakeCounted<V>(s: State<V>, t: nat, k: nat, o: nat, f: set<nat>)
    requires Inv(s) && t < |s.readers| && s.readers[t].Take? && t < |s.c.threads|
    requires k == BlockNo(s.B, s.readers[t].i0) < |s.phase| && o == Slot(s.B, s.readers[t].i0)
    requires s.readers[t].i == s.readers[t].e || s.readers[t].i >= Base(s.B, k + 1)
    requires f == s.finIn[k] + Range(o, s.readers[t].i - s.readers[t].i0)
    ensures s.blockOf[k] < |s.blocks| && s.blockOf[k] == s.readers[t].b && s.phase[k] == Open && k < s.K0()
    ensures |f| == s.blocks[s.blockOf[k]].done + (s.readers[t].i - s.readers[t].i0) <= s.B
    ensures |f| == s.B ==> f == Range(0, s.B)
    ensures var z := Counted(s, t, k, f, false);
      && FinPlus(s.B, s.finIn, z.finIn, s.readers[t].i0, s.readers[t].i)
      && Cells(z.B, z.blocks, z.blockOf, z.phase, z.finIn, z.c.tail, z.enq, z.out, Extra(z.prod))
      && Marks(z.B, z.finIn, z.out, z.enq, z.c.head) && Taken(z.B, z.c, z.finIn)
      && SpareKept(Spare(s.prod), s.blocks, z.blocks)
  {
    hide Range, Inv, C.Inv, ReaderOk, Heads, Window, Live, Owns, Cells, Marks, ProdOk, Filling, Taken, Ceil, Fin,
         Phases, Readers, SpareKept, Base, BlockNo, Slot, Extra, Spare, FinPlus;
    Pieces(s);
    InvCounters(s);
    TakeSizes(s, t, k, o, f);
    var r := s.readers[t];
    FinGrows(s.B, s.finIn, r.i0, r.i, k, o, f);
    CellsCount(s.B, |s.blocks|, s.free, Spare(s.prod), s.blocks, s.blockOf, s.phase, s.finIn, s.c.tail, s.enq, s.out,
      Extra(s.prod), k, f);
    MarksCount(s.B, s.finIn, s.out, s.enq, s.c.head, r.i0, r.i, k, o, f);
    TakenCount(s.B, s.c, s.finIn, s.finIn[k := f], r.i0, r.i);
    SpareApart(|s.blocks|, s.free, Spare(s.prod), s.blocks, Counted(s, t, k, f, false).blocks, s.blockOf, s.phase, k);
  }

  lemma MarksInside<V>(B: nat, finIn: seq<set<nat>>, out: map<nat, V>, enq: seq<V>, head: nat, k: nat)
    requires Marks(B, finIn, out, enq, head) && k < |finIn|
    ensures forall o :: o in finIn[k] ==> o < B
  {
    hide Base;
  }

  lemma PastStart(B: nat, i0: nat, k: nat)
    requires B > 0 && k == BlockNo(B, i0)
    ensures i0 < Base(B, k + 1)
  {
    BlockOf(B, k, i0);
  }

  lemma CountedOthers<V>(s: State<V>, t: nat, k: nat, f: set<nat>, closing: bool)
    requires Inv(s) && t < |s.readers| && s.readers[t].Take? && k < |s.phase| && s.phase[k] == Open
      && s.blockOf[k] < |s.blocks|
    requires FinPlus(s.B, s.finIn, s.finIn[k := f], s.readers[t].i0, s.readers[t].i)
    ensures var r, z := s.readers[t], Counted(s, t, k, f, closing);
      && t < |s.c.threads| && Others(s, z, t) && Claim(z, t, r.i, r.i, r.e) && Reaches(z, r.hd, r.i, r.e)
      && r.hd < |s.headers| && r.idx == Pos(s.headers[r.hd], BlockNo(s.B, r.i0))
      && BlockNo(s.B, r.i0) < |s.entryOf| && s.headers[r.hd].index[r.idx] == s.entryOf[BlockNo(s.B, r.i0)]
      && (r.i >= Base(s.B, BlockNo(s.B, r.i0) + 1) ==> r.i == Base(s.B, BlockNo(s.B, r.i0) + 1))
  {
    hide Inv, Ceil, Fin, Reaches, Pos, Wrap, Claim, Others, Base, BlockNo, Slot, FinPlus;
    Pieces(s);
    TakeReady(s, t);
    var r, z := s.readers[t], Counted(s, t, k, f, closing);
    ClaimCount(s, z, t, r.i0, r.i, r.e);
    ReachesLater(s, z, r.hd, r.i0, r.i, r.e);
    OthersCount(s, z, t, r.i0, r.i, r.e);
    ReachesAt(s, r.hd, r.i0, r.e, r.i0);
  }

  lemma LastStepIs<V>(s: State<V>, t: nat, k: nat, o: nat, f: set<nat>)
    requires s.Wf() && t < |s.readers| && s.readers[t].Take? && s.readers[t].hd < |s.headers|
    requires k == BlockNo(s.B, s.readers[t].i0) < |s.phase| && o == Slot(s.B, s.readers[t].i0)
    requires s.readers[t].i == s.readers[t].e || s.readers[t].i >= Base(s.B, k + 1)
    requires s.readers[t].i0 <= s.readers[t].i <= s.readers[t].e
      && f == s.finIn[k] + Range(o, s.readers[t].i - s.readers[t].i0)
    requires s.blockOf[k] < |s.blocks| && s.blockOf[k] == s.readers[t].b
    requires |f| == s.blocks[s.blockOf[k]].done + (s.readers[t].i - s.readers[t].i0)
    ensures var r := s.readers[t];
      TakeStep(s, t) ==
        if |f| == s.B then Counted(s, t, k, f, true).Read(t, ClearEntry(k, r.i, r.e, r.hd, r.idx, r.b))
        else AfterBlock(Counted(s, t, k, f, false), t, r.i, r.e, r.hd, r.idx)
  {
    hide BlockNo, Slot, Base, AfterBlock, Range;
  }

  /** The slots just taken complete the block: this consumer, and no other, is to free it. */
  lemma TakeClosing<V>(s: State<V>, t: nat, k: nat, o: nat, f: set<nat>)
    requires Inv(s) && t < |s.readers| && s.readers[t].Take? && t < |s.c.threads|
    requires k == BlockNo(s.B, s.readers[t].i0) < |s.phase| && o == Slot(s.B, s.readers[t].i0)
    requires s.readers[t].i == s.readers[t].e || s.readers[t].i >= Base(s.B, k + 1)
    requires s.readers[t].i0 <= s.readers[t].i <= s.readers[t].e
      && f == s.finIn[k] + Range(o, s.readers[t].i - s.readers[t].i0)
    requires |f| == s.B && s.readers[t].hd < |s.headers|
    ensures Inv(TakeStep(s, t))
  {
    hide Range, TakeStep, Inv, C.Inv, ReaderOk, Heads, Window, Live, Owns, Cells, Marks, ProdOk, Filling, Taken, Ceil,
         Fin, Reaches, Pos, Wrap, Claim, Phases, Readers, Others, ValuesCleared, SpareKept, Base, BlockNo, Slot, Extra,
         Spare, FinPlus;
    Pieces(s);
    InvCounters(s);
    Unchanged(s);
    var r := s.readers[t];
    TakeCounted(s, t, k, o, f);
    CountedOthers(s, t, k, f, true);
    var z := Counted(s, t, k, f, true);
    OwnsPhase(|s.blocks|, s.free, Spare(s.prod), s.blockOf, s.phase, k, Closing(t));
    LiveClose(s.entries, s.entryOf, s.low, s.blockOf, s.phase, k, t);
    CellsPhase(s.B, z.blocks, s.blockOf, s.phase, s.finIn[k := f], s.c.tail, s.enq, s.out, Extra(s.prod), k,
      Closing(t));
    var q := ClearEntry(k, r.i, r.e, r.hd, r.idx, r.b);
    LastStepIs(s, t, k, o, f);
    PhasesClose(s.B, s.K0(), s.phase, s.finIn, s.readers, k, t, q);
    ClosingOk(z, t, q);
    ReaderRead(z, t, t, q, q);
    OthersLeave(s, z, z.Read(t, q), t);
    AssembleCons(s, z.Read(t, q), t);
  }

  lemma TakeMore<V>(s: State<V>, t: nat, k: nat, o: nat, f: set<nat>)
    requires Inv(s) && t < |s.readers| && s.readers[t].Take? && t < |s.c.threads|
    requires k == BlockNo(s.B, s.readers[t].i0) < |s.phase| && o == Slot(s.B, s.readers[t].i0)
    requires s.readers[t].i == s.readers[t].e || s.readers[t].i >= Base(s.B, k + 1)
    requires s.readers[t].i0 <= s.readers[t].i <= s.readers[t].e
      && f == s.finIn[k] + Range(o, s.readers[t].i - s.readers[t].i0)
    requires |f| != s.B && s.readers[t].hd < |s.headers|
    ensures Inv(TakeStep(s, t))
  {
    hide Range, TakeStep, Inv, C.Inv, ReaderOk, Heads, Window, Live, Owns, Cells, Marks, ProdOk, Filling, Taken, Ceil,
         Fin, Reaches, Pos, Wrap, Claim, Phases, Readers, Others, ValuesCleared, SpareKept, Base, BlockNo, Slot, Extra,
         Spare, FinPlus, NotEnding, AfterBlock;
    Pieces(s);
    InvCounters(s);
    Unchanged(s);
    var r := s.readers[t];
    TakeCounted(s, t, k, o, f);
    CountedOthers(s, t, k, f, false);
    var z := Counted(s, t, k, f, false);
    LastStepIs(s, t, k, o, f);
    PhasesCount(s.B, s.K0(), s.phase, s.finIn, s.readers, k, f);
    NotEndingYet(s.B, s.K0(), s.phase, s.finIn, s.readers, t);
    LeaveBlock(s, z, t, k, r.i, r.e, r.hd, r.idx);
  }

  lemma TakePlace<V>(s: State<V>, t: nat)
    requires Inv(s) && t < |s.readers| && s.readers[t].Take?
    ensures s.Wf() && BlockNo(s.B, s.readers[t].i0) < |s.phase| && s.readers[t].hd < |s.headers| && t < |s.c.threads|
    ensures s.readers[t].i0 <= s.readers[t].i <= s.readers[t].e && s.readers[t].i0 < s.readers[t].e
  {
    hide Inv, Base, BlockNo, Slot, Claim, Reaches, Pos, Fin, Readers, Phases;
    Pieces(s);
    TakeReady(s, t);
  }

  lemma TakeKeepsInv<V>(s: State<V>, t: nat)
    requires Inv(s) && t < |s.readers| && s.readers[t].Take?
    ensures Inv(TakeStep(s, t))
  {
    hide Range, Inv, TakeStep, Base, BlockNo, Slot;
    TakePlace(s, t);
    var r := s.readers[t];
    var k, o := BlockNo(s.B, r.i0), Slot(s.B, r.i0);
    if r.i < r.e && r.i < Base(s.B, k + 1) {
      TakeOne(s, t);
    } else {
      var f: set<nat> := s.finIn[k] + Range(o, r.i - r.i0);
      if |f| == s.B { TakeClosing(s, t, k, o, f); } else { TakeMore(s, t, k, o, f); }
    }
  }

  lemma ReachesLater<V>(s: State<V>, z: State<V>, hd: nat, i0: nat, i: nat, e: nat)
    requires s.B > 0 && Reaches(s, hd, i0, e) && i0 <= i && z.B == s.B && z.headers == s.headers
      && z.entryOf == s.entryOf
    ensures Reaches(z, hd, i, e)
  {
    hide Wrap, BlockNo;
  }

  lemma ClosingOk<V>(z: State<V>, t: nat, q: Reader)
    requires z.B > 0 && t < |z.c.threads| && q.ClearEntry? && Finishing(z, t, q.k, q.i, q.e, q.hd, q.idx, q.b)
    requires z.phase[q.k] == Closing(t)
    ensures ReaderOk(z, t, q)
  {
  }

  // ---------------------------------------------------------------- freeing a block

  lemma EndingReady<V>(s: State<V>, t: nat, k: nat, i: nat, e: nat, hd: nat, idx: nat, b: nat)
    requires Inv(s) && t < |s.readers| && (s.readers[t] == ClearEntry(k, i, e, hd, idx, b)
      || s.readers[t] == GiveBack(k, i, e, hd, idx, b))
    ensures t < |s.c.threads| && Finishing(s, t, k, i, e, hd, idx, b) && hd < |s.headers|
      && idx == Pos(s.headers[hd], k)
    ensures k < |s.phase| && k < |s.entryOf| && b == s.blockOf[k] && k < s.K0()
    ensures s.phase[k] == if s.readers[t].ClearEntry? then Closing(t) else Closed(t)
    ensures idx < s.headers[hd].cap && s.headers[hd].index[idx] == s.entryOf[k]
    ensures Claim(s, t, i, i, e) && Reaches(s, hd, i, e) && (i < e ==> i == Base(s.B, k + 1))
  {
    hide Inv, C.Inv, Owns, Cells, Marks, ProdOk, Filling, Taken, Ceil, Fin, Readers, BlockNo, Window, Slot, Wrap, Live,
         Heads, Claim;
    Pieces(s);
    ReaderIs(s, t);
  }

  lemma PhasesClosed(B: nat, k0: nat, phase: seq<Phase>, finIn: seq<set<nat>>, readers: seq<Reader>, k: nat, t: nat,
      r: Reader)
    requires Phases(B, k0, phase, finIn, readers) && k < k0 && phase[k] == Closing(t)
    requires t < |readers| && readers[t].ClearEntry? && readers[t].k == k && r.GiveBack? && r.k == k
    ensures Phases(B, k0, phase[k := Closed(t)], finIn, readers[t := r])
  {
  }

  lemma PhasesGone(B: nat, k0: nat, phase: seq<Phase>, finIn: seq<set<nat>>, readers: seq<Reader>, k: nat, t: nat)
    requires Phases(B, k0, phase, finIn, readers) && k < k0 && phase[k] == Closed(t)
    requires t < |readers| && readers[t].GiveBack? && readers[t].k == k
    ensures Phases(B, k0, phase[k := Gone], finIn, readers) && NotEnding(phase[k := Gone], t)
  {
  }

  ghost predicate OnlyEnding(phase: seq<Phase>, zphase: seq<Phase>, t: nat) {
    && |zphase| == |phase|
    && forall k :: 0 <= k < |phase| && zphase[k] != phase[k] ==> phase[k] == Closing(t) || phase[k] == Closed(t)
  }

  lemma OthersEnd<V>(s: State<V>, z: State<V>, t: nat)
    requires Inv(s) && z.B == s.B && z.headers == s.headers && z.entryOf == s.entryOf && z.blockOf == s.blockOf
    requires z.out == s.out && z.c == s.c && z.finIn == s.finIn && OnlyEnding(s.phase, z.phase, t)
    requires |z.readers| == |s.readers| && forall j :: 0 <= j < |s.readers| && j != t ==> z.readers[j] == s.readers[j]
    ensures Others(s, z, t)
  {
    hide Inv, Ceil, Fin;
    Pieces(s);
    BelowItself(s);
  }

  lemma LiveKey<V>(s: State<V>, k: nat)
    requires Inv(s) && k < |s.phase| && Alive(s.phase[k])
    ensures s.low <= k < |s.entryOf| && s.entryOf[k] < |s.entries| && HeaderOk(s.headers[s.Cur()], |s.entries|)
  {
    hide Inv, Window, Owns, Cells, Marks, ProdOk, Filling, Taken, Ceil, Readers, Phases;
    Pieces(s);
  }

  lemma ClearEntryStep<V>(s: State<V>, t: nat)
    requires Inv(s) && t < |s.readers| && s.readers[t].ClearEntry?
    ensures Inv(TakeStep(s, t))
  {
    hide Inv, C.Inv, ReaderOk, Heads, Window, Live, Owns, Cells, Marks, ProdOk, Filling, Taken, Ceil, Fin, Reaches, Pos,
         Wrap, Claim, Phases, Readers, Others, SpareKept, Base, BlockNo, Slot, Extra, Spare, HeaderOk, Finishing;
    Pieces(s);
    Unchanged(s);
    var r := s.readers[t];
    EndingReady(s, t, r.k, r.i, r.e, r.hd, r.idx, r.b);
    LiveKey(s, r.k);
    var z := TakeStep(s, t);
    var q := GiveBack(r.k, r.i, r.e, r.hd, r.idx, r.b);
    assert z.readers == s.readers[t := q] && z.phase == s.phase[r.k := Closed(t)];
    LiveFrame(s.B, s.headers[s.Cur()], |s.entries|, s.entries, s.entryOf, s.low, s.ins, s.K0(), s.blockOf, s.phase, r.k,
      None, z.phase);
    OwnsPhase(|s.blocks|, s.free, Spare(s.prod), s.blockOf, s.phase, r.k, Closed(t));
    CellsPhase(s.B, s.blocks, s.blockOf, s.phase, s.finIn, s.c.tail, s.enq, s.out, Extra(s.prod), r.k, Closed(t));
    PhasesClosed(s.B, s.K0(), s.phase, s.finIn, s.readers, r.k, t, q);
    OthersEnd(s, z, t);
    ClosedOk(s, z, t, r.k, r.i, r.e, r.hd, r.idx, r.b);
    AssembleCons(s, z, t);
  }

  lemma ClosedOk<V>(s: State<V>, z: State<V>, t: nat, k: nat, i: nat, e: nat, hd: nat, idx: nat, b: nat)
    requires s.B > 0 && t < |s.c.threads| && Finishing(s, t, k, i, e, hd, idx, b) && k < |s.phase|
    requires z == s.(entries := z.entries, phase := s.phase[k := Closed(t)], readers := z.readers)
    ensures ReaderOk(z, t, GiveBack(k, i, e, hd, idx, b))
  {
    hide Fin, Base, BlockNo, Wrap;
  }

  lemma GiveBackStep<V>(s: State<V>, t: nat)
    requires Inv(s) && t < |s.readers| && s.readers[t].GiveBack?
    ensures s.readers[t].b !in s.free && Inv(TakeStep(s, t))
  {
    hide Inv, C.Inv, ReaderOk, Heads, Window, Live, Owns, Cells, Marks, ProdOk, Filling, Taken, Ceil, Fin, Reaches, Pos,
         Wrap, Claim, Phases, Readers, Others, SpareKept, Base, BlockNo, Slot, Extra, Spare, HeaderOk, Finishing,
         AfterBlock, NotEnding, ValuesCleared;
    Pieces(s);
    Unchanged(s);
    var r := s.readers[t];
    var k := r.k;
    EndingReady(s, t, k, r.i, r.e, r.hd, r.idx, r.b);
    var z := s.(free := s.free + {r.b}, phase := s.phase[k := Gone]);
    LiveGone(s.entries, s.entryOf, s.low, s.blockOf, s.phase, k, Gone);
    OwnsGive(|s.blocks|, s.free, Spare(s.prod), s.blockOf, s.phase, k);
    CellsPhase(s.B, s.blocks, s.blockOf, s.phase, s.finIn, s.c.tail, s.enq, s.out, Extra(s.prod), k, Gone);
    PhasesGone(s.B, s.K0(), s.phase, s.finIn, s.readers, k, t);
    OthersEnd(s, z, t);
    GivenOk(s, z, t, r.i, r.e, r.hd);
    LeaveBlock(s, z, t, k, r.i, r.e, r.hd, r.idx);
  }

  lemma GivenOk<V>(s: State<V>, z: State<V>, t: nat, i: nat, e: nat, hd: nat)
    requires s.B > 0 && t < |s.c.threads| && Claim(s, t, i, i, e) && Reaches(s, hd, i, e)
    requires z == s.(free := z.free, phase := z.phase)
    ensures Claim(z, t, i, i, e) && Reaches(z, hd, i, e)
  {
    hide Fin, BlockNo, Wrap;
  }

  // ---------------------------------------------------------------- all of them

  /** Whatever consumer `t` does next keeps the invariant, unless it begins by asking for nothing. */
  lemma ConsStepKeepsInv<V>(s: State<V>, t: nat, max: nat)
    requires Inv(s) && t < |s.readers| && (t < |s.c.threads| && s.c.threads[t].Idle? ==> max > 0)
    ensures Inv(ConsStep(s, t, max))
  {
    hide Inv, TakeStep, FindStep;
    Pieces(s);
    var r := s.readers[t];
    if r.NotReading? {
      ClaimStep(s, t, max);
    } else if r.Take? {
      TakeKeepsInv(s, t);
    } else if r.ClearEntry? {
      ClearEntryStep(s, t);
    } else if r.GiveBack? {
      GiveBackStep(s, t);
    } else {
      FindKeepsInv(s, t);
    }
  }
}
