/**
 * Every step of a consumer of an explicit producer keeps the invariant: claiming, looking its blocks up, taking
 * elements.
 */
module ExplicitReads {
  import opened Common
  import opened Blocks
  import C = DequeueCounters
  import opened Claims
  import opened ExplicitQueue
  import opened ExplicitInvariant
  import opened ExplicitSteps

  // ---------------------------------------------------------------- what every consumer step leaves alone

  ghost predicate SameProducer<V>(s: State<V>, z: State<V>) {
    && z.B == s.B && z.c.tail == s.c.tail && z.indices == s.indices && z.prFront == s.prFront && z.used == s.used
    && z.free == s.free && z.tailBlock == s.tailBlock && z.prod == s.prod && z.enq == s.enq && z.ring == s.ring
         && z.blockOf == s.blockOf
    && |z.blocks| == |s.blocks| && forall b :: 0 <= b < |s.blocks| ==> z.blocks[b].next == s.blocks[b].next
  }

  ghost predicate Others<V>(s: State<V>, z: State<V>, t: nat)
    requires s.B > 0
  {
    && z.B == s.B && |z.readers| == |s.readers| && |z.c.threads| == |s.c.threads|
    && forall j :: 0 <= j < |s.readers| && j < |s.c.threads| && j != t ==>
         z.readers[j] == s.readers[j] && z.c.threads[j] == s.c.threads[j] && SameClaim(s, z, j)
  }

  lemma ConsAssemble<V>(s: State<V>, z: State<V>, t: nat)
    requires Inv(s) && z.Wf() && SameProducer(s, z) && Others(s, z, t)
    requires t < |z.readers| && t < |z.c.threads| && ReaderOk(z, t, z.readers[t])
    requires C.Inv(z.c) && Taken(z.B, z.c, z.doneIn)
    requires Filled(z.B, z.blocks, z.used, z.blockOf, z.doneIn, z.c.tail, z.enq, z.out, z.prod)
    requires Marks(z.B, z.used, z.doneIn, z.out, z.enq, z.c.head)
    ensures Inv(z)
  {
    hide Inv, C.Inv, Lists, RingOk, Owns, Filled, Marks, ProdOk, IndicesKept, FrontsFit, ReaderOk, SameClaim, Taken,
         Ceil;
    Pieces(s);
    SameIndices(s, z);
    forall j | 0 <= j < |z.readers|
      ensures ReaderOk(z, j, z.readers[j])
    {
      if j != t {
        FrontAt(z, s.readers, j);
        ReaderFrame(s, z, j, s.readers[j]);
      }
    }
    RingKeeps(s.blocks, z.blocks, s.ring, s.tailBlock, s.used, s.blockOf);
    ConsInv(s, z);
  }

  lemma ConsInv<V>(s: State<V>, z: State<V>)
    requires Inv(s) && z.Wf() && SameProducer(s, z) && Readers(z) && C.Inv(z.c) && Taken(z.B, z.c, z.doneIn)
    requires RingOk(z.blocks, z.ring, z.tailBlock, z.used, z.blockOf)
    requires Filled(z.B, z.blocks, z.used, z.blockOf, z.doneIn, z.c.tail, z.enq, z.out, z.prod)
    requires Marks(z.B, z.used, z.doneIn, z.out, z.enq, z.c.head)
    ensures Inv(z)
  {
    hide C.Inv, Lists, RingOk, Owns, Filled, Marks, ReaderOk, Taken, Ceil, Fin;
  }

  lemma ReaderIs<V>(s: State<V>, t: nat)
    requires Inv(s) && t < |s.readers|
    ensures s.Wf() && t < |s.c.threads| && ReaderOk(s, t, s.readers[t])
  {
    hide C.Inv, Lists, RingOk, Owns, Filled, Marks, ReaderOk, Taken, Ceil, Fin, ProdOk;
  }

  lemma OthersSame<V>(s: State<V>, z: State<V>, t: nat)
    requires s.B > 0 && z.B == s.B && z.doneIn == s.doneIn && z.out == s.out
    requires |z.readers| == |s.readers| && |z.c.threads| == |s.c.threads|
    requires forall j :: 0 <= j < |s.readers| && j != t ==> z.readers[j] == s.readers[j]
    requires forall j :: 0 <= j < |s.c.threads| && j != t ==> z.c.threads[j] == s.c.threads[j]
    ensures Others(s, z, t)
  {
    hide Fin;
  }

  /** What a place means does not depend on the recorded places. */
  lemma ReaderRead<V>(s: State<V>, t: nat, r: Reader)
    requires s.B > 0 && t < |s.readers| && t < |s.c.threads| && ReaderOk(s, t, r)
    ensures ReaderOk(s.Read(t, r), t, r)
  {
    hide Fin, BlockNo, Base, Vis, Entered;
    var z := s.Read(t, r);
    assert forall i, u, e :: Claim(s, t, i, u, e) ==> Claim(z, t, i, u, e);
    assert forall hd, i, e :: Reaches(s, hd, i, e) ==> Reaches(z, hd, i, e);
    hide Claim, Reaches;
  }

  // ---------------------------------------------------------------- claiming

  lemma MarksClaim<V>(B: nat, used: nat, doneIn: seq<set<nat>>, out: map<nat, V>, enq: seq<V>, head: nat, zhead: nat)
    requires Marks(B, used, doneIn, out, enq, head) && head <= zhead
    ensures Marks(B, used, doneIn, out, enq, zhead)
  {
    hide Base;
  }

  /** Past the head nothing is delivered, and so nothing completely dequeued. */
  lemma PastHead<V>(B: nat, used: nat, doneIn: seq<set<nat>>, out: map<nat, V>, enq: seq<V>, head: nat, x: nat)
    requires B > 0 && Marks(B, used, doneIn, out, enq, head) && head <= x
    ensures x !in out && !Fin(B, doneIn, x)
  {
    Join(B, x);
    hide Base, BlockNo, Slot;
  }

  lemma ClaimStep<V>(s: State<V>, t: nat, max: nat)
    requires Inv(s) && t < |s.readers| && s.readers[t].NotReading?
    ensures Inv(ConsStep(s, t, max))
  {
    hide Inv, C.Inv, Lists, RingOk, Owns, Filled, Marks, ProdOk, ReaderOk, Taken, Ceil, Fin, C.Step, Others;
    Pieces(s);
    IdleReader(s, t);
    CounterFrame(s.c, t, max);
    var z := ConsStep(s, t, max);
    C.StepKeepsInv(s.c, t, max);
    TakenStep(s.B, s.c, s.doneIn, t, max);
    MarksClaim(s.B, s.used, s.doneIn, s.out, s.enq, s.c.head, z.c.head);
    OthersSame(s, z, t);
    ClaimedOk(s, z, t, max);
    ConsAssemble(s, z, t);
  }

  lemma IdleReader<V>(s: State<V>, t: nat)
    requires Inv(s) && t < |s.readers| && s.readers[t].NotReading?
    ensures t < |s.c.threads| && !s.c.threads[t].Claimed?
  {
    ReaderIs(s, t);
    hide Inv;
  }

  lemma ClaimedOk<V>(s: State<V>, z: State<V>, t: nat, max: nat)
    requires Inv(s) && t < |s.readers| && s.readers[t].NotReading? && t < |s.c.threads| && !s.c.threads[t].Claimed?
      && s.Wf()
    requires z == ConsStep(s, t, max) && |s.c.owner| == s.c.head && C.Inv(z.c) && t < |z.c.threads| && t < |z.readers|
    ensures z.B > 0 && ReaderOk(z, t, z.readers[t])
  {
    hide Inv, Lists, RingOk, Owns, Filled, Marks, ProdOk, Taken, Ceil, Fin, Readers, C.Step, C.Inv;
    Pieces(s);
    CounterFrame(s.c, t, max);
    forall x: nat
      ensures x >= s.c.head ==> x !in s.out && !Fin(s.B, s.doneIn, x)
    {
      if x >= s.c.head {
        PastHead(s.B, s.used, s.doneIn, s.out, s.enq, s.c.head, x);
      }
    }
  }

  // ---------------------------------------------------------------- looking a block up

  lemma ReadStep<V>(s: State<V>, t: nat, r: Reader)
    requires Inv(s) && t < |s.readers| && t < |s.c.threads| && s.B > 0 && ReaderOk(s, t, r)
    ensures Inv(s.Read(t, r))
  {
    hide Inv, C.Inv, ReaderOk, Lists, RingOk, Owns, Filled, Marks, ProdOk, Taken, Ceil, Fin, Others;
    Pieces(s);
    var z := s.Read(t, r);
    OthersSame(s, z, t);
    ReaderRead(s, t, r);
    ConsAssemble(s, z, t);
  }

  lemma ListedEntry(B: nat, g: Index, prFront: nat, used: nat, blockOf: seq<nat>, written: nat, fronted: nat, k: nat)
    requires Lists(B, g, prFront, used, blockOf, written, fronted) && |blockOf| - used <= k < written
    ensures Entered(B, g, blockOf, k)
  {
    hide Wrap, Base;
  }

  lemma WrittenPast<V>(s: State<V>)
    requires Inv(s)
    ensures s.Wf() && s.K0() <= Fronted(s.prod, |s.blockOf|) <= Written(s.prod, |s.blockOf|)
      && |s.doneIn| == |s.blockOf|
  {
    hide Inv, C.Inv, Lists, RingOk, Owns, Filled, Marks, Readers, Ceil;
    Pieces(s);
    PartBlock(s.B, s.c.tail);
  }

  /** The published index reaches every index a consumer has claimed and not taken, and its front is fit to be read. */
  lemma FreshIndexReaches<V>(s: State<V>, t: nat, i: nat, e: nat)
    requires Inv(s) && s.Wf() && t < |s.c.threads| && i < e && Claim(s, t, i, i, e)
    ensures Reaches(s, s.Cur(), i, e) && Vis(s.B, s.indices[s.Cur()], s.indices[s.Cur()].front)
  {
    hide Inv, C.Inv, RingOk, Owns, Filled, Marks, ProdOk, Taken, Ceil, Fin, Readers, Base, BlockNo, Claim, Wrap, Lists,
         Entered, Vis;
    Pieces(s);
    WrittenPast(s);
    var g := s.indices[s.Cur()];
    forall x: nat | i <= x < e
      ensures Entered(s.B, g, s.blockOf, BlockNo(s.B, x))
    {
      ClaimInRing(s, t, i, i, e, x);
      ListedEntry(s.B, g, s.prFront, s.used, s.blockOf, Written(s.prod, |s.blockOf|), Fronted(s.prod, |s.blockOf|),
        BlockNo(s.B, x));
    }
    ClaimInRing(s, t, i, i, e, i);
    FrontIsVis(s.B, g, s.prFront, s.used, s.blockOf, Written(s.prod, |s.blockOf|), Fronted(s.prod, |s.blockOf|),
      BlockNo(s.B, i));
  }

  lemma FrontIsVis(B: nat, g: Index, prFront: nat, used: nat, blockOf: seq<nat>, written: nat, fronted: nat, k: nat)
    requires B > 0 && Lists(B, g, prFront, used, blockOf, written, fronted) && |blockOf| - used <= k < fronted
    ensures Vis(B, g, g.front)
  {
    hide Wrap, Base;
    EnteredIsVis(B, g, blockOf, fronted - 1);
  }

  lemma ReachesAt<V>(s: State<V>, hd: nat, i: nat, e: nat, x: nat)
    requires s.B > 0 && Reaches(s, hd, i, e) && i <= x < e
    ensures hd < |s.indices| && Entered(s.B, s.indices[hd], s.blockOf, BlockNo(s.B, x))
  {
    hide Entered;
  }

  predicate Finding(r: Reader) {
    r.LoadIndex? || r.LoadFront? || r.LoadBase? || r.LoadBlock?
  }

  /** The lookup is right, whatever the producer did between its loads, and each of its steps goes on. */
  lemma FoundOk<V>(s: State<V>, t: nat)
    requires Inv(s) && s.Wf() && t < |s.readers| && Finding(s.readers[t]) && t < |s.c.threads|
    requires !EmptyHanded(s.readers[t])
    ensures t < |FindStep(s, t).readers| && FindStep(s, t) == s.Read(t, FindStep(s, t).readers[t])
    ensures FindStep(s, t).readers[t] != s.readers[t] && ReaderOk(s, t, FindStep(s, t).readers[t])
  {
    hide Inv, C.Inv, Lists, RingOk, Owns, Filled, Marks, ProdOk, Taken, Ceil, Fin, Readers, Base, BlockNo, Claim,
         Lookup, Slot, Wrap, Reaches;
    Pieces(s);
    ReaderIs(s, t);
    match s.readers[t]
    case LoadIndex(i, e) => FreshIndexReaches(s, t, i, e); hide Vis;
    case LoadFront(i, e, hd) => ReachesAt(s, hd, i, e, i);
    case LoadBase(i, e, hd, f) =>
      ReachesAt(s, hd, i, e, i);
      LookupIsPos(s.B, s.indices[hd], f, i);
    case LoadBlock(i, e, hd, idx) =>
      ReachesAt(s, hd, i, e, i);
      BlockOf(s.B, BlockNo(s.B, i), i);
  }

  /** A consumer that claimed nothing goes through the same loads, or is stuck. */
  lemma FoundNone<V>(s: State<V>, t: nat)
    requires s.Wf() && t < |s.readers| && Finding(s.readers[t]) && t < |s.c.threads|
    requires EmptyHanded(s.readers[t]) && ReaderOk(s, t, s.readers[t])
    ensures t < |FindStep(s, t).readers| && FindStep(s, t) == s.Read(t, FindStep(s, t).readers[t])
    ensures ReaderOk(s, t, FindStep(s, t).readers[t])
  {
    hide Lookup, Working;
    assert s.readers[t := s.readers[t]] == s.readers;
  }

  lemma FindKeepsInv<V>(s: State<V>, t: nat)
    requires Inv(s) && t < |s.readers| && s.Wf() && Finding(s.readers[t])
    ensures Inv(FindStep(s, t))
  {
    hide Inv, ReaderOk, FindStep, EmptyHanded;
    ReaderIs(s, t);
    if EmptyHanded(s.readers[t]) { FoundNone(s, t); } else { FoundOk(s, t); }
    ReadStep(s, t, FindStep(s, t).readers[t]);
  }

  // ---------------------------------------------------------------- taking an element

  lemma TakeReady<V>(s: State<V>, t: nat)
    requires Inv(s) && t < |s.readers| && s.readers[t].Take? && !EmptyHanded(s.readers[t])
    ensures var r := s.readers[t];
      && s.Wf() && t < |s.c.threads| && r.i0 < r.e && r.i0 <= r.i <= r.e && Claim(s, t, r.i0, r.i, r.e)
      && r.i <= Base(s.B, BlockNo(s.B, r.i0) + 1) && Reaches(s, r.hd, r.i0, r.e)
      && r.hd < |s.indices| && r.idx == Pos(s.indices[r.hd], BlockNo(s.B, r.i0))
      && BlockNo(s.B, r.i0) < s.K0() && |s.doneIn| - s.used <= BlockNo(s.B, r.i0) < |s.doneIn| == |s.blockOf|
      && r.b == s.blockOf[BlockNo(s.B, r.i0)]
  {
    hide Inv, C.Inv, Lists, RingOk, Owns, Filled, Marks, ProdOk, Taken, Ceil, Fin, Readers, Base, BlockNo, Slot, Wrap,
         Pos;
    Pieces(s);
    ReaderIs(s, t);
    var r := s.readers[t];
    ClaimInRing(s, t, r.i0, r.i, r.e, r.i0);
    hide Reaches, Entered;
    ReachesAt(s, r.hd, r.i0, r.e, r.i0);
  }

  /** The new block number is not the one being taken from, so its exemption does not matter. */
  lemma NotNewest<V>(s: State<V>, k: nat)
    requires Inv(s) && s.Wf() && k < s.K0() && k < |s.blockOf|
    ensures s.prod.EReset? ==> k < |s.blockOf| - 1
  {
    hide Inv, C.Inv, Lists, RingOk, Owns, Filled, Marks, Readers, Ceil, Slot;
    Pieces(s);
  }

  lemma FilledTake<V>(B: nat, blocks: seq<Block<V>>, used: nat, blockOf: seq<nat>, doneIn: seq<set<nat>>, tail: nat,
      enq: seq<V>, out: map<nat, V>, p: Prod<V>, i: nat)
    requires B > 0 && Filled(B, blocks, used, blockOf, doneIn, tail, enq, out, p) && i < tail && i !in out
    requires |blockOf| - used <= BlockNo(B, i) < |blockOf|
    requires forall j, k :: |blockOf| - used <= j < k < |blockOf| ==> blockOf[j] != blockOf[k]
    ensures var b, o := blockOf[BlockNo(B, i)], Slot(B, i);
      && b < |blocks| && o < |blocks[b].cells| && blocks[b].cells[o] == Some(enq[i])
      && Filled(B, blocks[b := blocks[b].(cells := blocks[b].cells[o := None])], used, blockOf, doneIn, tail, enq,
           out[i := enq[i]], p)
  {
    var k, o := BlockNo(B, i), Slot(B, i);
    var b := blockOf[k];
    Join(B, i);
    assert blocks[b].cells[o] == Content(tail, enq, out, p, Base(B, k) + o);
    var zs := blocks[b := blocks[b].(cells := blocks[b].cells[o := None])];
    forall j, q | |blockOf| - used <= j < |blockOf| && 0 <= q < B
      ensures zs[blockOf[j]].cells[q] == Content(tail, enq, out[i := enq[i]], p, Base(B, j) + q)
    {
      Parts(B, j, q);
      assert blocks[blockOf[j]].cells[q] == Content(tail, enq, out, p, Base(B, j) + q);
      hide Base, BlockNo, Slot;
    }
    hide Base, Content;
  }

  lemma MarksTake<V>(B: nat, used: nat, doneIn: seq<set<nat>>, out: map<nat, V>, enq: seq<V>, head: nat, i: nat)
    requires Marks(B, used, doneIn, out, enq, head) && i < head && i < |enq|
    ensures Marks(B, used, doneIn, out[i := enq[i]], enq, head)
  {
    hide Base;
  }

  lemma OthersTake<V>(s: State<V>, z: State<V>, t: nat, i: nat)
    requires s.B > 0 && z.B == s.B && z.doneIn == s.doneIn && z.c == s.c && |z.readers| == |s.readers|
    requires forall x :: x in z.out <==> x in s.out || x == i
    requires i < |s.c.owner| && s.c.owner[i] == t
    requires forall j :: 0 <= j < |s.readers| && j != t ==> z.readers[j] == s.readers[j]
    ensures Others(s, z, t)
  {
    hide Fin;
  }

  predicate Taking<V>(s: State<V>, t: nat)
    requires s.Wf() && t < |s.readers|
  {
    var r := s.readers[t];
    r.Take? && r.i < r.e && r.i < Base(s.B, BlockNo(s.B, r.i0) + 1)
  }

  lemma TakeReads<V>(s: State<V>, t: nat)
    requires s.Wf() && t < |s.readers| && Taking(s, t) && Inv(s)
    ensures var r := s.readers[t];
      && r.i < |s.enq| && r.i !in s.out && r.i < s.c.head && r.i < |s.c.owner| && s.c.owner[r.i] == t
      && BlockNo(s.B, r.i) == BlockNo(s.B, r.i0) && r.b == s.blockOf[BlockNo(s.B, r.i)]
      && r.b < |s.blocks| && Slot(s.B, r.i) < |s.blocks[r.b].cells|
      && s.blocks[r.b].cells[Slot(s.B, r.i)] == Some(s.enq[r.i])
      && Filled(s.B, s.blocks[r.b := s.blocks[r.b].(cells := s.blocks[r.b].cells[Slot(s.B, r.i) := None])], s.used,
           s.blockOf, s.doneIn,
                s.c.tail, s.enq, s.out[r.i := s.enq[r.i]], s.prod)
  {
    hide Inv, C.Inv, Lists, RingOk, Owns, Filled, Marks, ProdOk, Taken, Fin, Readers, Base, BlockNo, Slot, Ceil,
         Reaches, Pos;
    Pieces(s);
    TakeReady(s, t);
    var r := s.readers[t];
    RingApart(s);
    ClaimInRing(s, t, r.i0, r.i, r.e, r.i);
    SameBlock(s.B, r.i0, r.i);
    FilledTake(s.B, s.blocks, s.used, s.blockOf, s.doneIn, s.c.tail, s.enq, s.out, s.prod, r.i);
  }

  lemma TookOk<V>(s: State<V>, z: State<V>, t: nat, v: V)
    requires s.Wf() && t < |s.readers| && Taking(s, t) && Inv(s)
    requires var r := s.readers[t];
      z == s.(blocks := z.blocks, out := s.out[r.i := v],
        readers := s.readers[t := Take(r.i0, r.i + 1, r.e, r.hd, r.idx, r.b)])
    ensures t < |z.readers| && t < |z.c.threads| && ReaderOk(z, t, z.readers[t])
  {
    hide Inv, C.Inv, Lists, RingOk, Owns, Filled, Marks, ProdOk, Taken, Fin, Readers, Base, BlockNo, Slot, Ceil, Pos,
         Entered;
    Pieces(s);
    TakeReady(s, t);
  }

  /** The element taken for a claimed index is the one enqueued there. */
  lemma TakeOne<V>(s: State<V>, t: nat)
    requires s.Wf() && t < |s.readers| && Taking(s, t) && Inv(s)
    ensures s.readers[t].i < |s.enq| && TakeStep(s, t).out == s.out[s.readers[t].i := s.enq[s.readers[t].i]]
    ensures Inv(TakeStep(s, t))
  {
    hide Inv, C.Inv, Lists, RingOk, Owns, Filled, Marks, ProdOk, Taken, Fin, Readers, Base, BlockNo, Ceil, Others,
         Claim, Reaches, Pos;
    Pieces(s);
    TakeReads(s, t);
    TakeReady(s, t);
    var r := s.readers[t];
    var z := TakeStep(s, t);
    MarksTake(s.B, s.used, s.doneIn, s.out, s.enq, s.c.head, r.i);
    OthersTake(s, z, t, r.i);
    TookOk(s, z, t, s.enq[r.i]);
    ConsAssemble(s, z, t);
  }

  // ---------------------------------------------------------------- completing a part of a block

  /** What marking the taken part of a block empty does, before moving on. */
  function Marked<V>(s: State<V>, b: nat, k: nat, part: set<nat>): State<V>
    requires s.Wf() && b < |s.blocks|
  {
    s.(blocks := s.blocks[b := s.blocks[b].(emptied := s.blocks[b].emptied + part)],
      doneIn := MarkDone(s.doneIn, k, part))
  }

  lemma FilledMark<V>(B: nat, blocks: seq<Block<V>>, used: nat, blockOf: seq<nat>, doneIn: seq<set<nat>>, tail: nat,
      enq: seq<V>, out: map<nat, V>, p: Prod<V>, k: nat, part: set<nat>)
    requires Filled(B, blocks, used, blockOf, doneIn, tail, enq, out, p) && |blockOf| - used <= k < |blockOf|
    requires p.EReset? ==> k < |blockOf| - 1
    requires forall i, j :: |blockOf| - used <= i < j < |blockOf| ==> blockOf[i] != blockOf[j]
    ensures var b := blockOf[k];
      b < |blocks|
      && Filled(B, blocks[b := blocks[b].(emptied := blocks[b].emptied + part)], used, blockOf,
           doneIn[k := doneIn[k] + part],
                tail, enq, out, p)
  {
    forall j | |blockOf| - used <= j < |blockOf| && j != k
      ensures blockOf[j] != blockOf[k]
    {
    }
    hide Base, Content;
  }

  lemma MarksMark<V>(B: nat, used: nat, doneIn: seq<set<nat>>, out: map<nat, V>, enq: seq<V>, head: nat, i0: nat,
      i: nat, k: nat, o: nat, part: set<nat>)
    requires B > 0 && Marks(B, used, doneIn, out, enq, head) && i0 < i <= Base(B, k + 1)
      && k == BlockNo(B, i0) < |doneIn| && o == Slot(B, i0)
    requires part == Range(o, i - i0) && |doneIn| - used <= k && forall x :: i0 <= x < i ==> x in out
    ensures Marks(B, used, doneIn[k := doneIn[k] + part], out, enq, head)
  {
    hide BlockNo, Slot, Base;
    SameBlock(B, i0, i - 1);
    Join(B, i0);
    forall p | p in part
      ensures p < B && Base(B, k) + p in out
    {
      assert Base(B, k) + p == i0 + (p - o);
    }
  }

  lemma OthersMark<V>(s: State<V>, z: State<V>, t: nat, i0: nat, i: nat, e: nat)
    requires s.B > 0 && z.B == s.B && C.Inv(s.c) && z.out == s.out && z.c == s.c && Claim(s, t, i0, i, e)
    requires FinPlus(s.B, s.doneIn, z.doneIn, i0, i) && z.readers == s.readers
    ensures Others(s, z, t)
  {
    forall x: nat
      ensures i0 <= x < i ==> x < |s.c.owner| && s.c.owner[x] == t
    {
      C.ClaimOwner(s.c, t, x);
      hide *;
    }
    hide C.Inv, Fin;
  }

  lemma ClaimMark<V>(s: State<V>, z: State<V>, t: nat, i0: nat, i: nat, e: nat)
    requires s.B > 0 && Claim(s, t, i0, i, e) && FinPlus(s.B, s.doneIn, z.doneIn, i0, i)
    requires z.B == s.B && z.c == s.c && z.out == s.out
    ensures Claim(z, t, i, i, e)
  {
    hide Fin;
  }

  lemma ReachesLater<V>(s: State<V>, z: State<V>, hd: nat, i0: nat, i: nat, e: nat)
    requires s.B > 0 && Reaches(s, hd, i0, e) && i0 <= i && z.B == s.B && z.indices == s.indices
      && z.blockOf == s.blockOf
    ensures Reaches(z, hd, i, e)
  {
    hide Entered, BlockNo;
  }

  /** Done with block number `k`: the next block of the claim is in the next slot of the same index. */
  lemma NextOk<V>(s: State<V>, t: nat, k: nat, i: nat, e: nat, hd: nat, idx: nat)
    requires s.Wf() && t < |s.c.threads| && i < e && Claim(s, t, i, i, e) && Reaches(s, hd, i, e)
    requires hd < |s.indices| && idx == Pos(s.indices[hd], k) && i == Base(s.B, k + 1)
    ensures ReaderOk(s, t, LoadBlock(i, e, hd, Wrap(s.indices[hd].size, idx + 1)))
  {
    PosNext(s.indices[hd], k);
    Parts(s.B, k + 1, 0);
    assert Base(s.B, k + 1) + 0 == Base(s.B, k + 1);
    hide Claim, Reaches, Base, BlockNo, Wrap;
  }

  lemma TakenRelease<V>(s: State<V>, t: nat, i: nat, e: nat)
    requires s.B > 0 && Taken(s.B, s.c, s.doneIn) && Claim(s, t, i, i, e) && i == e
    ensures Taken(s.B, C.Release(s.c, t), s.doneIn)
  {
    hide Fin;
  }

  lemma OthersLeave<V>(s: State<V>, z: State<V>, y: State<V>, t: nat)
    requires s.B > 0 && Others(s, z, t)
    requires y == z.(c := y.c, readers := y.readers) && |y.readers| == |z.readers| && |y.c.threads| == |z.c.threads|
    requires forall j :: 0 <= j < |z.readers| && j != t ==> y.readers[j] == z.readers[j]
    requires forall j :: 0 <= j < |z.c.threads| && j != t ==> y.c.threads[j] == z.c.threads[j]
    ensures Others(s, y, t)
  {
    hide Fin;
  }

  lemma ReleasedOk<V>(y: State<V>, t: nat)
    requires y.B > 0 && t < |y.readers| && t < |y.c.threads| && y.readers[t].NotReading? && y.c.threads[t].Idle?
    ensures ReaderOk(y, t, y.readers[t])
  {
  }

  lemma LeaveBlock<V>(s: State<V>, z: State<V>, t: nat, k: nat, i: nat, e: nat, hd: nat, idx: nat)
    requires Inv(s) && z.Wf() && SameProducer(s, z) && Others(s, z, t) && z.c == s.c && t < |z.readers|
    requires Taken(z.B, z.c, z.doneIn)
    requires Filled(z.B, z.blocks, z.used, z.blockOf, z.doneIn, z.c.tail, z.enq, z.out, z.prod)
    requires Marks(z.B, z.used, z.doneIn, z.out, z.enq, z.c.head)
    requires Claim(z, t, i, i, e) && Reaches(z, hd, i, e) && hd < |z.indices| && idx == Pos(z.indices[hd], k)
    requires i < e ==> i == Base(z.B, k + 1)
    ensures Inv(AfterBlock(z, t, i, e, hd, idx))
  {
    hide Inv, C.Inv, Lists, RingOk, Owns, Filled, Marks, ProdOk, ReaderOk, Taken, Ceil, Fin, Reaches, Pos, Wrap, Base,
         BlockNo, Others;
    Pieces(s);
    var y := AfterBlock(z, t, i, e, hd, idx);
    OthersLeave(s, z, y, t);
    if i == e {
      C.ReleaseKeepsInv(z.c, t);
      TakenRelease(z, t, i, e);
      ReleasedOk(y, t);
    } else {
      NextOk(z, t, k, i, e, hd, idx);
      ReaderRead(z, t, y.readers[t]);
    }
    hide Claim;
    ConsAssemble(s, y, t);
  }

  lemma LastStepIs<V>(s: State<V>, t: nat, k: nat, o: nat, part: set<nat>)
    requires s.Wf() && t < |s.readers| && s.readers[t].Take? && !Taking(s, t) && s.readers[t].hd < |s.indices|
    requires k == BlockNo(s.B, s.readers[t].i0) && o == Slot(s.B, s.readers[t].i0)
    requires s.readers[t].i0 <= s.readers[t].i && part == Range(o, s.readers[t].i - s.readers[t].i0)
      && s.readers[t].b < |s.blocks|
    ensures var r := s.readers[t];
      TakeStep(s, t) == AfterBlock(Marked(s, r.b, k, part), t, r.i, r.e, r.hd, r.idx)
  {
    hide BlockNo, Slot, Base, AfterBlock, Range;
  }

  lemma PastStart(B: nat, i0: nat, k: nat)
    requires B > 0 && k == BlockNo(B, i0)
    ensures i0 < Base(B, k + 1)
  {
    BlockOf(B, k, i0);
  }

  lemma ClaimedOut<V>(s: State<V>, t: nat, i: nat, u: nat, e: nat)
    requires s.B > 0 && Claim(s, t, i, u, e)
    ensures forall x :: i <= x < u ==> x in s.out
  {
    hide Fin;
  }

  lemma TakeLast<V>(s: State<V>, t: nat)
    requires Inv(s) && s.Wf() && t < |s.readers| && s.readers[t].Take? && !Taking(s, t)
    requires !EmptyHanded(s.readers[t])
    ensures Inv(TakeStep(s, t))
  {
    hide Inv, C.Inv, Lists, RingOk, Owns, Filled, Marks, ProdOk, Taken, Fin, Readers, Base, BlockNo, Slot, Ceil, Others,
         Claim, Reaches, Pos, Range, FinPlus, TakeStep, AfterBlock;
    Pieces(s);
    TakeReady(s, t);
    var r := s.readers[t];
    var k, o := BlockNo(s.B, r.i0), Slot(s.B, r.i0);
    var part: set<nat> := Range(o, r.i - r.i0);
    PastStart(s.B, r.i0, k);
    NotNewest(s, k);
    RingApart(s);
    FilledMark(s.B, s.blocks, s.used, s.blockOf, s.doneIn, s.c.tail, s.enq, s.out, s.prod, k, part);
    var z := Marked(s, r.b, k, part);
    FinGrows(s.B, s.doneIn, r.i0, r.i, k, o, z.doneIn[k]);
    ClaimedOut(s, t, r.i0, r.i, r.e);
    MarksMark(s.B, s.used, s.doneIn, s.out, s.enq, s.c.head, r.i0, r.i, k, o, part);
    OthersMark(s, z, t, r.i0, r.i, r.e);
    ClaimMark(s, z, t, r.i0, r.i, r.e);
    ReachesLater(s, z, r.hd, r.i0, r.i, r.e);
    TakenCount(s.B, s.c, s.doneIn, z.doneIn, r.i0, r.i);
    LastStepIs(s, t, k, o, part);
    LeaveBlock(s, z, t, k, r.i, r.e, r.hd, r.idx);
  }

  /** Marking none of the slots changes nothing. */
  lemma MarksNone<V>(s: State<V>, b: nat, k: nat)
    requires s.Wf() && b < |s.blocks|
    ensures Marked(s, b, k, {}) == s
  {
    assert s.blocks[b].emptied + {} == s.blocks[b].emptied;
    assert s.blocks[b := s.blocks[b]] == s.blocks;
    if k < |s.doneIn| {
      assert s.doneIn[k] + {} == s.doneIn[k];
      assert s.doneIn[k := s.doneIn[k]] == s.doneIn;
    }
  }

  lemma ReleaseNothing<V>(s: State<V>, t: nat)
    requires s.B > 0 && t < |s.c.threads| && Taken(s.B, s.c, s.doneIn)
      && s.c.threads[t].Claimed? && s.c.threads[t].a == 0
    ensures Taken(s.B, C.Release(s.c, t), s.doneIn)
  {
    hide Fin;
  }

  /** A consumer that claimed nothing takes nothing and marks nothing: it only ends. */
  lemma TakeNone<V>(s: State<V>, t: nat)
    requires Inv(s) && s.Wf() && t < |s.readers| && s.readers[t].Take? && EmptyHanded(s.readers[t])
    ensures Inv(TakeStep(s, t))
  {
    hide Inv, C.Inv, Lists, RingOk, Owns, Filled, Marks, ProdOk, Taken, Fin, Readers, Base, BlockNo, Slot, Ceil, Others,
         TakeStep, AfterBlock, Working, Range, Marked;
    Pieces(s);
    ReaderIs(s, t);
    var r := s.readers[t];
    NoStepIs(s, t);
    if TakeStep(s, t) != s {
      var y := AfterBlock(s, t, r.i, r.e, r.hd, r.idx);
      EndsIs(s, t, r.e, r.hd, r.idx);
      C.ReleaseKeepsInv(s.c, t);
      ReleaseNothing(s, t);
      OthersSame(s, y, t);
      ReleasedOk(y, t);
      ConsAssemble(s, y, t);
    }
  }

  lemma NoStepIs<V>(s: State<V>, t: nat)
    requires s.Wf() && t < |s.readers| && s.readers[t].Take? && EmptyHanded(s.readers[t])
    ensures var r := s.readers[t];
      TakeStep(s, t) == if r.b >= |s.blocks| || r.hd >= |s.indices| then s
                        else AfterBlock(s, t, r.i, r.e, r.hd, r.idx)
  {
    hide BlockNo, Base, Slot, AfterBlock, Range, Marked;
    var r := s.readers[t];
    if r.b < |s.blocks| && r.hd < |s.indices| {
      var k, o := BlockNo(s.B, r.i0), Slot(s.B, r.i0);
      var part: set<nat> := Range(o, 0);
      assert part == {};
      LastStepIs(s, t, k, o, part);
      MarksNone(s, r.b, k);
    }
  }

  lemma EndsIs<V>(s: State<V>, t: nat, e: nat, hd: nat, idx: nat)
    requires s.Wf() && t < |s.readers| && hd < |s.indices|
    ensures AfterBlock(s, t, e, e, hd, idx) == s.(c := C.Release(s.c, t)).Read(t, NotReading)
  {
  }

  /** Whatever consumer `t` does next keeps the invariant. */
  lemma ConsStepKeepsInv<V>(s: State<V>, t: nat, max: nat)
    requires Inv(s) && t < |s.readers|
    ensures s.Wf() && Inv(ConsStep(s, t, max))
  {
    hide Inv, TakeStep, FindStep, C.Step, Taking, EmptyHanded;
    ReaderIs(s, t);
    var r := s.readers[t];
    if r.NotReading? {
      ClaimStep(s, t, max);
    } else if r.Take? {
      if EmptyHanded(r) {
        TakeNone(s, t);
      } else if Taking(s, t) {
        TakeOne(s, t);
      } else {
        TakeLast(s, t);
      }
    } else {
      FindKeepsInv(s, t);
    }
  }
}
