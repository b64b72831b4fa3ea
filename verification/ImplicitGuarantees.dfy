/** What the implicit producer promises in every reachable state: lookups, bulk enqueues, blocks, and what remains. */
module ImplicitGuarantees {
  import opened Common
  import opened Blocks
  import C = DequeueCounters
  import opened Claims
  import opened Deliveries
  import opened ImplicitQueue
  import opened ImplicitInvariant
  import opened ImplicitFrames
  import opened ImplicitProducerSteps
  import opened ImplicitFillSteps
  import opened ImplicitConsumerSteps
  import opened ImplicitRuns

  // ---------------------------------------------------------------- lookups

  lemma KeyIsExact(B: nat, h: Header, entries: seq<Entry>, entryOf: seq<nat>, low: nat, ins: nat, k0: nat, k: nat)
    requires Window(B, h, entries, entryOf, low, ins, k0) && low <= k < |entryOf| && entryOf[k] < |entries|
    ensures entries[entryOf[k]].key == Some(Base(B, k))
  {
    hide Wrap, Base;
  }

  /**
   * A consumer's lookup is right, whatever the producer inserted, rewound or regrew meanwhile: the entry it is about to
   * read is keyed with the base of its index's block and points to the block that block number was entered with.
   */
  lemma LookupIsRight<V>(B: nat, limit: Option<nat>, cap: nat, n: nat, evs: seq<Event<V>>, t: nat)
    requires B > 0 && cap > 0 && Asking(Init<V>(B, limit, cap, n), evs)
    requires t < |Reached(B, limit, cap, n, evs).readers| && Reached(B, limit, cap, n, evs).readers[t].LoadValue?
    ensures var s := Reached(B, limit, cap, n, evs);
      var r := s.readers[t];
      && s.B > 0 && r.hd < |s.headers| && r.idx < |s.headers[r.hd].index| && s.headers[r.hd].index[r.idx] < |s.entries|
      && BlockNo(s.B, r.i) < |s.blockOf|
      && s.entries[s.headers[r.hd].index[r.idx]]
           == Entry(Some(Base(s.B, BlockNo(s.B, r.i))), Some(s.blockOf[BlockNo(s.B, r.i)]))
  {
    hide Inv, C.Inv, Window, Live, Owns, Cells, Marks, ProdOk, Filling, Taken, Fin, Phases, Readers, Claim, Reaches,
         Pos, Base, BlockNo, Heads, Reached;
    ReachedInv(B, limit, cap, n, evs);
    var s := Reached(B, limit, cap, n, evs);
    var r := s.readers[t];
    Pieces(s);
    ReaderIs(s, t);
    ReachesAt(s, r.hd, r.i, r.e, r.i);
    ClaimedIsOpen(s, t, r.i, r.i, r.e, r.i);
    KeyIsExact(s.B, s.headers[s.Cur()], s.entries, s.entryOf, s.low, s.ins, s.K0(), BlockNo(s.B, r.i));
  }

  // ---------------------------------------------------------------- consumers finish

  /** Six steps for each index still to be taken. */
  function Span(i: nat, e: nat): nat {
    if i < e then 6 * (e - i) else 0
  }

  /** A bound on the steps a consumer still has to make, whatever the others do. */
  function Left(r: Reader): nat {
    match r
    case NotReading => 0
    case LoadIndex(i, e) => Span(i, e) + 8
    case LoadIndexTail(i, e, _) => Span(i, e) + 7
    case LoadKey(i, e, _, _) => Span(i, e) + 6
    case LoadValue(i, e, _, _) => Span(i, e) + 5
    case Take(i0, i, e, _, _, _) => Span(i, e) + if i0 < i then 8 else 4
    case ClearEntry(_, i, e, _, _, _) => Span(i, e) + 7
    case GiveBack(_, i, e, _, _, _) => Span(i, e) + 6
  }

  /**
   * No consumer ever meets a null block, an unset key or an empty slot: each of its steps brings it nearer to its end.
   */
  lemma ConsumersGoOn<V>(s: State<V>, t: nat, max: nat)
    requires Inv(s) && t < |s.readers| && !s.readers[t].NotReading?
    ensures t < |ConsStep(s, t, max).readers| && Left(ConsStep(s, t, max).readers[t]) < Left(s.readers[t])
  {
    hide Inv, C.Inv, Base, BlockNo, Slot, Lookup, Wrap;
    Pieces(s);
    var r := s.readers[t];
    if r.Take? {
      TakeGoesOn(s, t);
    } else if r.ClearEntry? || r.GiveBack? {
      EndingGoesOn(s, t);
    } else {
      FindGoesOn(s, t);
    }
  }

  lemma TakeGoesOn<V>(s: State<V>, t: nat)
    requires Inv(s) && t < |s.readers| && s.readers[t].Take?
    ensures s.Wf() && t < |TakeStep(s, t).readers| && Left(TakeStep(s, t).readers[t]) < Left(s.readers[t])
  {
    hide Inv, Base, BlockNo, Slot, Wrap, Range, Heads, Window, Live, Owns, Cells, Marks, Phases, Readers, ProdOk,
         Filling;
    Pieces(s);
    TakePlace(s, t);
    var r := s.readers[t];
    BlockOf(s.B, BlockNo(s.B, r.i0), r.i0);
    if Taking(s, t) {
      TakeReads(s, t);
    } else {
      TakeBlock(s, t);
    }
  }

  lemma TakeBlock<V>(s: State<V>, t: nat)
    requires Inv(s) && t < |s.readers| && s.readers[t].Take? && s.Wf() && !Taking(s, t)
    ensures s.readers[t].b < |s.blocks|
  {
    hide Inv, Base, BlockNo, Slot, Range, Cells, Claim, Reaches, Pos, Heads, Window, Live, Owns, Marks, Phases, Readers,
         ProdOk, Filling, Fin, Taken, C.Inv, FinPlus, Extra, Spare;
    Pieces(s);
    TakeReady(s, t);
    var r := s.readers[t];
    var f: set<nat> := s.finIn[BlockNo(s.B, r.i0)] + Range(Slot(s.B, r.i0), r.i - r.i0);
    TakeCounted(s, t, BlockNo(s.B, r.i0), Slot(s.B, r.i0), f);
  }

  lemma EndingGoesOn<V>(s: State<V>, t: nat)
    requires Inv(s) && t < |s.readers| && (s.readers[t].ClearEntry? || s.readers[t].GiveBack?)
    ensures s.Wf() && t < |TakeStep(s, t).readers| && Left(TakeStep(s, t).readers[t]) < Left(s.readers[t])
  {
    hide Inv, Base, BlockNo, Wrap, Claim, Reaches, Finishing, Pos, HeaderOk, Heads, Window, Live, Owns, Cells, Marks,
         Phases, Readers, ProdOk, Filling;
    Pieces(s);
    var r := s.readers[t];
    EndingReady(s, t, r.k, r.i, r.e, r.hd, r.idx, r.b);
    hide AfterBlock;
    if r.ClearEntry? {
      LiveKey(s, r.k);
    } else {
      LeavingGoesOn(s.(free := s.free + {r.b}, phase := s.phase[r.k := Gone]), t, r.i, r.e, r.hd, r.idx);
    }
  }

  lemma LeavingGoesOn<V>(s: State<V>, t: nat, i: nat, e: nat, hd: nat, idx: nat)
    requires s.Wf() && t < |s.readers| && hd < |s.headers|
    ensures var z := AfterBlock(s, t, i, e, hd, idx);
      t < |z.readers| && Left(z.readers[t]) < Span(i, e) + 6
  {
    hide Wrap;
  }

  lemma FindGoesOn<V>(s: State<V>, t: nat)
    requires Inv(s) && t < |s.readers|
    requires s.readers[t].LoadIndex? || s.readers[t].LoadIndexTail? || s.readers[t].LoadKey? || s.readers[t].LoadValue?
    ensures s.Wf() && t < |FindStep(s, t).readers| && Left(FindStep(s, t).readers[t]) < Left(s.readers[t])
  {
    hide Inv, Base, BlockNo, Wrap, Lookup, Span;
    FoundEntry(s, t);
  }

  /** What the loads of a lookup meet. */
  lemma FoundEntry<V>(s: State<V>, t: nat)
    requires Inv(s) && t < |s.readers|
    requires s.readers[t].LoadIndex? || s.readers[t].LoadIndexTail? || s.readers[t].LoadKey? || s.readers[t].LoadValue?
    ensures s.Wf()
    ensures var r := s.readers[t];
      && (r.LoadIndexTail? || r.LoadKey? || r.LoadValue? ==> r.hd < |s.headers|)
      && (r.LoadKey? ==>
            && r.tp < s.headers[r.hd].cap && s.headers[r.hd].index[r.tp] < |s.entries|
            && s.entries[s.headers[r.hd].index[r.tp]].key.Some?)
      && (r.LoadValue? ==>
            && r.idx < s.headers[r.hd].cap && s.headers[r.hd].index[r.idx] < |s.entries|
            && s.entries[s.headers[r.hd].index[r.idx]].value.Some?)
  {
    hide Inv, C.Inv, Base, BlockNo, Wrap, Claim, Reaches, Lookup, Slot, Heads, Window, Live, Owns, Cells, Marks, Phases,
         Readers, ProdOk, Filling, Taken;
    Pieces(s);
    ReaderIs(s, t);
    var r := s.readers[t];
    if !r.LoadIndex? {
      ReachesAt(s, r.hd, r.i, r.e, r.i);
      ClaimedIsOpen(s, t, r.i, r.i, r.e, r.i);
    }
  }

  /** How often consumer `t` steps in a run. */
  function StepsOf<V>(evs: seq<Event<V>>, t: nat): nat {
    if evs == [] then 0 else (if evs[0].Consume? && evs[0].t == t then 1 else 0) + StepsOf(evs[1..], t)
  }

  /** Consumer `t` is not reading, and all it ever claimed has been delivered. */
  ghost predicate Finished<V>(s: State<V>, t: nat) {
    && t < |s.readers| && s.readers[t].NotReading?
    && forall x :: 0 <= x < |s.c.owner| && s.c.owner[x] == t ==> x in s.out.Keys
  }

  lemma DoneIsDelivered<V>(s: State<V>, t: nat)
    requires Inv(s) && t < |s.readers| && s.readers[t].NotReading?
    ensures Finished(s, t)
  {
    hide Inv, C.Inv, Heads, Window, Live, Owns, Cells, Phases, Readers, ProdOk, Filling;
    Pieces(s);
    InvCounters(s);
    IdleReader(s, t);
    forall x: nat | x < |s.c.owner| && s.c.owner[x] == t
      ensures x in s.out.Keys
    {
      assert Fin(s.B, s.finIn, x);
      Join(s.B, x);
    }
    hide Base, BlockNo, Slot;
  }

  /** The steps of others leave a consumer where it is. */
  lemma OthersLeave<V>(s: State<V>, ev: Event<V>, t: nat)
    requires Inv(s) && t < |s.readers| && !(ev.Consume? && ev.t == t)
    ensures s.Wf() && |Next(s, ev).readers| == |s.readers| && Next(s, ev).readers[t] == s.readers[t]
  {
    hide Inv, ProdStep, ConsStep;
    Pieces(s);
    InvCounters(s);
    match ev
    case Produce(vs, ok, id) => ProdDelivers(s, vs, ok, id);
    case Consume(j, max) => if j < |s.readers| { ConsFrame(s, j, max); }
  }

  lemma {:induction false} RunFinishes<V>(s: State<V>, evs: seq<Event<V>>, t: nat) returns (n: nat)
    requires Inv(s) && s.Wf() && Asking(s, evs) && t < |s.readers| && Left(s.readers[t]) <= StepsOf(evs, t)
    ensures n <= |evs| && Finished(Run(s, evs[..n]), t)
    decreases |evs|
  {
    hide Inv, Next, Finished, Left;
    if s.readers[t].NotReading? {
      n := 0;
      DoneIsDelivered(s, t);
    } else {
      assert Left(s.readers[t]) > 0 by { LeftPositive(s.readers[t]); }
      var z := Next(s, evs[0]);
      NextKeepsInv(s, evs[0]);
      NextKeepsWf(s, evs[0]);
      NextNearer(s, evs[0], t);
      var m := RunFinishes(z, evs[1..], t);
      n := m + 1;
      assert evs[..n][1..] == evs[1..][..m] && evs[..n][0] == evs[0];
    }
  }

  lemma LeftPositive(r: Reader)
    ensures !r.NotReading? ==> Left(r) > 0
  {
  }

  lemma NextNearer<V>(s: State<V>, ev: Event<V>, t: nat)
    requires Inv(s) && t < |s.readers| && !s.readers[t].NotReading?
    ensures s.Wf() && t < |Next(s, ev).readers|
    ensures Left(Next(s, ev).readers[t]) + (if ev.Consume? && ev.t == t then 1 else 0) <= Left(s.readers[t])
  {
    hide Inv, ProdStep, ConsStep, Left;
    Pieces(s);
    if ev.Consume? && ev.t == t {
      ConsumersGoOn(s, t, ev.max);
    } else {
      OthersLeave(s, ev, t);
    }
  }

  /**
   * Once it has claimed, a dequeue is wait-free: within a number of its own steps fixed by how much it claimed, and
   * whatever the producer and the other consumers do between them, it has delivered all it claimed.
   */
  lemma DequeueIsWaitFree<V>(B: nat, limit: Option<nat>, cap: nat, n: nat, evs: seq<Event<V>>, more: seq<Event<V>>,
      t: nat)
    requires B > 0 && cap > 0 && Asking(Init<V>(B, limit, cap, n), evs)
    requires t < |Reached(B, limit, cap, n, evs).readers|
    requires Asking(Reached(B, limit, cap, n, evs), more)
    requires Left(Reached(B, limit, cap, n, evs).readers[t]) <= StepsOf(more, t)
    ensures Reached(B, limit, cap, n, evs).Wf()
    ensures exists m :: 0 <= m <= |more| && Finished(Run(Reached(B, limit, cap, n, evs), more[..m]), t)
  {
    hide Inv, Reached, Asking, Finished, Left, StepsOf, Run;
    ReachedInv(B, limit, cap, n, evs);
    Pieces(Reached(B, limit, cap, n, evs));
    var m := RunFinishes(Reached(B, limit, cap, n, evs), more, t);
  }

  /** After growing, the slot behind the index tail has a fresh entry: the insertion that grew it goes through. */
  lemma GrowthMakesRoom<V>(s: State<V>)
    requires Inv(s) && s.prod.PGrow?
    ensures s.Wf() && InsertStep(s, true).Wf() && InsertStep(s, true).prod.PIndex?
    ensures InsertStep(InsertStep(s, true), true).prod.PKey?
  {
    hide Inv, ProdOk, Doubled, Live, Owns, Cells, Marks, Phases, Readers, Filling, Window;
    Pieces(s);
    var h, n := s.headers[s.Cur()], |s.entries|;
    var z := InsertStep(s, true);
    DoubledSlots(h, n, s.ins);
    InsertKeepsWf(s, true);
    DoubledTail(h, n, s.ins);
    WrapSmall(2 * h.cap, h.cap);
    assert z.headers[z.Cur()] == Doubled(h, s.ins, n);
    hide Wrap;
  }

  lemma DoubledTail(h: Header, n: nat, ins: nat)
    requires HeaderOk(h, n)
    ensures Doubled(h, ins, n).tail == h.cap - 1 && Doubled(h, ins, n).cap == 2 * h.cap
  {
  }

  // ---------------------------------------------------------------- blocks

  /** Every block is free, or just requisitioned, or stands for exactly one block number of this producer. */
  lemma OneOwner<V>(B: nat, limit: Option<nat>, cap: nat, n: nat, evs: seq<Event<V>>, id: nat)
    requires B > 0 && cap > 0 && Asking(Init<V>(B, limit, cap, n), evs)
    requires id < |Reached(B, limit, cap, n, evs).blocks|
    ensures var s := Reached(B, limit, cap, n, evs);
      var held := exists k :: 0 <= k < |s.phase| && k < |s.blockOf| && s.phase[k] != Gone && s.blockOf[k] == id;
      && (id in s.free || id in Spare(s.prod) || held)
      && !(id in s.free && id in Spare(s.prod)) && !(id in s.free && held) && !(id in Spare(s.prod) && held)
      && forall j, k ::
           && 0 <= j < k < |s.phase| && k < |s.blockOf| && s.phase[j] != Gone && s.phase[k] != Gone
           && s.blockOf[j] == id ==>
             s.blockOf[k] != id
  {
    hide Inv, Reached, Asking, Spare;
    ReachedInv(B, limit, cap, n, evs);
    var s := Reached(B, limit, cap, n, evs);
    Pieces(s);
    hide Heads, Window, Live, Cells, Marks, Phases, Readers, ProdOk, Filling;
    if id !in s.free && id !in Spare(s.prod) {
      var k :| 0 <= k < |s.phase| && s.phase[k] != Gone && s.blockOf[k] == id;
      assert k < |s.blockOf|;
    }
  }

  predicate Ending(r: Reader) {
    r.ClearEntry? || r.GiveBack?
  }

  /**
   * Exactly one consumer frees a block: while it is about to, every element of the block has been delivered, the block
   * is not free already, no other consumer is about to free it, and none is still taking from it.
   */
  lemma FreedOnce<V>(B: nat, limit: Option<nat>, cap: nat, n: nat, evs: seq<Event<V>>, t: nat)
    requires B > 0 && cap > 0 && Asking(Init<V>(B, limit, cap, n), evs)
    requires t < |Reached(B, limit, cap, n, evs).readers| && Ending(Reached(B, limit, cap, n, evs).readers[t])
    ensures var s := Reached(B, limit, cap, n, evs);
      var r := s.readers[t];
      && s.B > 0 && r.b !in s.free && (forall x :: Base(s.B, r.k) <= x < Base(s.B, r.k) + s.B ==> x in s.out.Keys)
      && (forall u :: 0 <= u < |s.readers| && u != t && Ending(s.readers[u]) ==> s.readers[u].b != r.b)
      && (forall u :: 0 <= u < |s.readers| && s.readers[u].Take? ==> s.readers[u].b != r.b)
  {
    hide Inv, Reached, Asking, C.Inv, Claim, Reaches, Finishing, Base, BlockNo, Heads, Window, Live, Owns, Cells, Marks,
         Phases, Readers, ProdOk, Filling, Pos, Fin;
    ReachedInv(B, limit, cap, n, evs);
    var s := Reached(B, limit, cap, n, evs);
    Pieces(s);
    var r := s.readers[t];
    EndingReady(s, t, r.k, r.i, r.e, r.hd, r.idx, r.b);
    EndingIsFull(s.B, s.K0(), s.phase, s.finIn, s.readers, s.out, s.enq, s.c.head, r.k);
    forall u | 0 <= u < |s.readers| && u != t && Ending(s.readers[u])
      ensures s.readers[u].b != r.b
    {
      var q := s.readers[u];
      EndingReady(s, u, q.k, q.i, q.e, q.hd, q.idx, q.b);
      BlocksApart(|s.blocks|, s.free, Spare(s.prod), s.blockOf, s.phase, r.k, q.k);
    }
    forall u | 0 <= u < |s.readers| && s.readers[u].Take?
      ensures s.readers[u].b != r.b
    {
      TakeReady(s, u);
      BlocksApart(|s.blocks|, s.free, Spare(s.prod), s.blockOf, s.phase, r.k, BlockNo(s.B, s.readers[u].i0));
    }
    BlocksApart(|s.blocks|, s.free, Spare(s.prod), s.blockOf, s.phase, r.k, r.k);
  }

  lemma BlocksApart(n: nat, free: set<nat>, spare: set<nat>, blockOf: seq<nat>, phase: seq<Phase>, j: nat, k: nat)
    requires Owns(n, free, spare, blockOf, phase) && j < |phase| && k < |phase| && phase[j] != Gone && phase[k] != Gone
    ensures j != k ==> blockOf[j] != blockOf[k]
    ensures blockOf[j] !in free
  {
  }

  lemma EndingIsFull<V>(B: nat, k0: nat, phase: seq<Phase>, finIn: seq<set<nat>>, readers: seq<Reader>,
      out: map<nat, V>, enq: seq<V>, head: nat, k: nat)
    requires Phases(B, k0, phase, finIn, readers) && Marks(B, finIn, out, enq, head)
    requires k < k0 && k < |phase| && (phase[k].Closing? || phase[k].Closed?)
    ensures forall x :: Base(B, k) <= x < Base(B, k) + B ==> x in out.Keys
  {
    hide Base;
    forall x: nat | Base(B, k) <= x < Base(B, k) + B
      ensures x in out.Keys
    {
      assert x - Base(B, k) in finIn[k];
    }
  }

  // ---------------------------------------------------------------- elements not yet taken

  /** Element `x` is where a lookup finds it. */
  ghost predicate Placed<V>(s: State<V>, x: nat)
    requires s.Wf() && x < |s.enq|
  {
    var k, o := BlockNo(s.B, x), Slot(s.B, x);
    && k < |s.blockOf| && OwnEntry(s, k).Some? && OwnEntry(s, k).value < |s.entries|
    && s.entries[OwnEntry(s, k).value] == Entry(Some(Base(s.B, k)), Some(s.blockOf[k]))
    && s.blockOf[k] < |s.blocks| && s.blockOf[k] !in s.free
    && o < |s.blocks[s.blockOf[k]].cells| && s.blocks[s.blockOf[k]].cells[o] == Some(s.enq[x])
  }

  /** Every published element not yet taken is in its place. */
  lemma UntakenIsPlaced<V>(s: State<V>, x: nat)
    requires Inv(s) && x < s.c.tail && x !in s.out
    ensures s.Wf() && x < |s.enq| && Placed(s, x)
  {
    hide Inv, Heads, Window, Live, Owns, Cells, Marks, Phases, Readers, ProdOk, Filling, Base, BlockNo, Slot, Extra,
         Spare, Lookup, Wrap, OwnEntry;
    Pieces(s);
    BelowItself(s);
    CeilSplits(s.B, s.c.tail, x);
    var k, h := BlockNo(s.B, x), s.headers[s.Cur()];
    UntakenIsOpen(s.B, s.K0(), s.phase, s.finIn, s.readers, s.out, s.enq, s.c.head, x);
    OpenIsLive(s.entries, s.entryOf, s.low, s.blockOf, s.phase, k);
    InsAboveLow(s.B, h, s.entries, s.entryOf, s.low, s.ins, s.K0());
    HeadOk(s.headers, |s.entries|);
    OwnEntryIs(s, k);
    KeyIsExact(s.B, h, s.entries, s.entryOf, s.low, s.ins, s.K0(), k);
    CellsTake(s.B, |s.blocks|, s.free, Spare(s.prod), s.blocks, s.blockOf, s.phase, s.finIn, s.c.tail, s.enq, s.out,
      Extra(s.prod), x);
    BlocksApart(|s.blocks|, s.free, Spare(s.prod), s.blockOf, s.phase, k, k);
  }

  lemma OpenIsLive(entries: seq<Entry>, entryOf: seq<nat>, low: nat, blockOf: seq<nat>, phase: seq<Phase>, k: nat)
    requires Live(entries, entryOf, low, blockOf, phase) && k < |phase| && phase[k] == Open
    ensures low <= k < |entryOf| && entryOf[k] < |entries| && entries[entryOf[k]].value == Some(blockOf[k])
  {
  }

  lemma InsAboveLow(B: nat, h: Header, entries: seq<Entry>, entryOf: seq<nat>, low: nat, ins: nat, k0: nat)
    requires Window(B, h, entries, entryOf, low, ins, k0)
    ensures k0 <= ins && low <= k0
  {
  }

  lemma HeadOk(hs: seq<Header>, n: nat)
    requires Heads(hs, n)
    ensures |hs| > 0 && HeaderOk(hs[|hs| - 1], n)
  {
  }

  lemma OwnEntryIs<V>(s: State<V>, k: nat)
    requires s.Wf() && HeaderOk(s.headers[s.Cur()], |s.entries|)
    requires Window(s.B, s.headers[s.Cur()], s.entries, s.entryOf, s.low, s.ins, s.K0())
    requires s.low < s.ins && s.low <= k < |s.entryOf|
    ensures OwnEntry(s, k) == Some(s.entryOf[k])
  {
    hide Lookup, Base, Window, HeaderOk;
    OwnLookup(s.B, s.headers[s.Cur()], |s.entries|, s.entries, s.entryOf, s.low, s.ins, s.K0(), k);
  }

  ghost predicate Quiet<V>(s: State<V>) {
    && s.prod.PIdle? && (forall t :: 0 <= t < |s.readers| ==> s.readers[t].NotReading?)
    && forall t :: 0 <= t < |s.c.threads| ==> s.c.threads[t].Idle?
  }

  /**
   * With no operation under way, just the indices below the head have been delivered, and the remaining elements, those
   * from the head to the tail, are each in the block the producer's own lookup finds, in enqueue order.
   */
  lemma QuietRemains<V>(B: nat, limit: Option<nat>, cap: nat, n: nat, evs: seq<Event<V>>)
    requires B > 0 && cap > 0 && Asking(Init<V>(B, limit, cap, n), evs)
    requires Quiet(Reached(B, limit, cap, n, evs))
    ensures var s := Reached(B, limit, cap, n, evs);
      && s.Wf() && s.c.head <= s.c.tail == |s.enq|
      && (forall x :: x in s.out.Keys <==> 0 <= x < s.c.head)
      && (forall x :: 0 <= x < s.c.head ==> s.out[x] == s.enq[x])
      && forall x :: s.c.head <= x < s.c.tail ==> Placed(s, x)
  {
    hide Inv, Reached, Asking, C.Inv, Taken, Marks, Fin, Placed;
    ReachedInv(B, limit, cap, n, evs);
    var s := Reached(B, limit, cap, n, evs);
    hide Heads, Window, Live, Owns, Cells, Phases, Readers, ProdOk, Filling;
    Pieces(s);
    InvCounters(s);
    C.NeverOverClaims(s.c);
    AllTaken(s.B, s.c, s.finIn, s.out, s.enq);
    forall x: nat | s.c.head <= x < s.c.tail
      ensures Placed(s, x)
    {
      UntakenIsPlaced(s, x);
    }
  }

  lemma AllTaken<V>(B: nat, c: C.State, finIn: seq<set<nat>>, out: map<nat, V>, enq: seq<V>)
    requires Taken(B, c, finIn) && Marks(B, finIn, out, enq, c.head)
    requires forall t :: 0 <= t < |c.threads| ==> c.threads[t].Idle?
    ensures forall x :: x in out.Keys <==> 0 <= x < c.head
    ensures c.head <= |enq| ==> forall x :: 0 <= x < c.head ==> out[x] == enq[x]
  {
    forall x: nat | x < c.head
      ensures x in out
    {
      assert Fin(B, finIn, x);
      Join(B, x);
    }
    hide Base, BlockNo, Slot;
  }

  // ---------------------------------------------------------------- bulk enqueue is all or nothing

  /** An idle producer has just the block numbers below its tail. */
  lemma IdleHolds<V>(s: State<V>)
    requires Inv(s) && s.prod.PIdle?
    ensures s.Wf() && |s.phase| == |s.blockOf| == |s.entryOf| == s.ins == s.K0() && Spare(s.prod) == {}
  {
    hide Inv, Ceil, Heads, Window, Live, Owns, Cells, Marks, Phases, Readers, Filling;
    Pieces(s);
  }

  /** Block `id` is the one of block number `k`, which holds elements from the head to the tail. */
  predicate Needed<V>(s: State<V>, id: nat, k: nat) {
    k < |s.blockOf| && s.blockOf[k] == id && s.c.head < Base(s.B, k + 1) && Base(s.B, k) < s.c.tail
  }

  /** With no operation under way, every block that holds none of the remaining elements is free: none is lost. */
  lemma QuietFree<V>(B: nat, limit: Option<nat>, cap: nat, n: nat, evs: seq<Event<V>>, id: nat)
    requires B > 0 && cap > 0 && Asking(Init<V>(B, limit, cap, n), evs)
    requires Quiet(Reached(B, limit, cap, n, evs)) && id < |Reached(B, limit, cap, n, evs).blocks|
    ensures var s := Reached(B, limit, cap, n, evs);
      id in s.free || exists k :: Needed(s, id, k)
  {
    hide Inv, Reached, Asking, C.Inv, Taken, Marks, Fin, Heads, Window, Live, Owns, Cells, Phases, Readers, ProdOk,
         Filling, Ceil;
    ReachedInv(B, limit, cap, n, evs);
    var s := Reached(B, limit, cap, n, evs);
    Pieces(s);
    InvCounters(s);
    IdleHolds(s);
    if id !in s.free {
      var k := OwnerOf(|s.blocks|, s.free, s.blockOf, s.phase, id);
      QuietPhase(s, k);
      OpenHasMore(s, k);
      hide Base;
      BelowTail(s.B, s.c.tail, k);
      assert Needed(s, id, k);
    }
  }

  lemma OwnerOf(n: nat, free: set<nat>, blockOf: seq<nat>, phase: seq<Phase>, id: nat) returns (k: nat)
    requires Owns(n, free, {}, blockOf, phase) && id < n && id !in free
    ensures k < |phase| == |blockOf| && phase[k] != Gone && blockOf[k] == id
  {
    k :| 0 <= k < |phase| && phase[k] != Gone && blockOf[k] == id;
  }

  lemma QuietPhase<V>(s: State<V>, k: nat)
    requires s.Wf() && Phases(s.B, s.K0(), s.phase, s.finIn, s.readers) && Quiet(s)
    requires k < s.K0() && k < |s.phase| && s.phase[k] != Gone
    ensures s.phase[k] == Open && k < |s.finIn| && |s.finIn[k]| < s.B
  {
    hide Ceil;
  }

  lemma OpenHasMore<V>(s: State<V>, k: nat)
    requires s.Wf() && Taken(s.B, s.c, s.finIn) && Quiet(s) && k < |s.finIn| && |s.finIn[k]| < s.B
    ensures s.c.head < Base(s.B, k + 1)
  {
    BlockOf(s.B, k, 0);
    if Base(s.B, k + 1) <= s.c.head {
      forall o: nat | o < s.B
        ensures o in s.finIn[k]
      {
        Parts(s.B, k, o);
        assert Fin(s.B, s.finIn, Base(s.B, k) + o);
      }
      SubsetSize(Range(0, s.B), s.finIn[k]);
    }
  }

  lemma BelowTail(B: nat, tail: nat, k: nat)
    requires B > 0 && k < Ceil(B, tail)
    ensures Base(B, k) < tail
  {
    CeilBounds(B, tail);
    MulDiff(B, k + 1, Ceil(B, tail));
    BlockOf(B, k, 0);
  }

  lemma PublishPlacesAll<V>(s: State<V>)
    requires Inv(s) && s.prod.PPublish?
    ensures s.Wf() && FillStep(s).Wf()
    ensures var z, vs := FillStep(s), s.prod.vs;
      && z.c.tail == s.c.tail + |vs| == |z.enq| && z.prod.PIdle?
      && (forall x :: s.c.tail <= x < z.c.tail ==> z.enq[x] == vs[x - s.c.tail] && Placed(z, x))
      && |s.prod.got| == Ceil(s.B, z.c.tail) - Ceil(s.B, s.c.tail)
      && forall k :: Ceil(s.B, s.c.tail) <= k < Ceil(s.B, z.c.tail) && k < |z.blockOf| ==>
           z.blockOf[k] == s.prod.got[k - Ceil(s.B, s.c.tail)]
  {
    hide Inv, C.Inv, Taken, Marks, Heads, Window, Live, Owns, Cells, Phases, Readers, ProdOk, Filling, Placed, Ceil,
         AllOpen;
    Pieces(s);
    InvCounters(s);
    C.NeverOverClaims(s.c);
    FillKeepsWf(s);
    PublishStep(s);
    PublishReady(s);
    var z := FillStep(s);
    assert forall k :: s.K0() <= k < s.K0() + |s.prod.got| ==> z.blockOf[k] == s.prod.got[k - s.K0()] by {
      forall k: nat | s.K0() <= k < s.K0() + |s.prod.got|
        ensures z.blockOf[k] == s.prod.got[k - s.K0()]
      {
        assert s.blockOf[s.K0() + (k - s.K0())] == s.prod.got[k - s.K0()];
      }
    }
    forall x: nat | s.c.tail <= x < z.c.tail
      ensures z.enq[x] == s.prod.vs[x - s.c.tail] && Placed(z, x)
    {
      MarksBelow(s.B, s.finIn, s.out, s.enq, s.c.head, x);
      UntakenIsPlaced(z, x);
    }
  }

  /**
   * All: a step that moves the tail ends its call, and every element the call was given is, in order, at the index from
   * the tail on, and in its place in a block; there is then one block for each block boundary below the tail.
   */
  lemma BulkPlacesAll<V>(B: nat, limit: Option<nat>, cap: nat, n: nat, evs: seq<Event<V>>, ev: Event<V>)
    requires B > 0 && cap > 0 && Asking(Init<V>(B, limit, cap, n), evs) && ev.Produce?
    requires Init<V>(B, limit, cap, n).Wf() && Reached(B, limit, cap, n, evs).Wf()
    requires Next(Reached(B, limit, cap, n, evs), ev).c.tail != Reached(B, limit, cap, n, evs).c.tail
    ensures var s, call := Reached(B, limit, cap, n, evs), CallIn(Init(B, limit, cap, n), None, evs);
      var z := Next(s, ev);
      && z.Wf() && z.prod.PIdle? && call.Some? && z.c.tail == s.c.tail + |call.value| == |z.enq|
      && (forall x :: s.c.tail <= x < z.c.tail ==> z.enq[x] == call.value[x - s.c.tail] && Placed(z, x))
      && z.B == s.B && |z.blockOf| == Ceil(z.B, z.c.tail)
  {
    hide Inv, Asking, Ceil, Placed, ProdStep, FillStep, Run;
    ReachedInv(B, limit, cap, n, evs);
    RunAccepts(Init<V>(B, limit, cap, n), None, evs);
    var s := Reached(B, limit, cap, n, evs);
    ProdDelivers(s, ev.vs, ev.ok, ev.id);
    ProdStepKeepsInv(s, ev.vs, ev.ok, ev.id);
    PublishPlacesAll(s);
    PublishIsFill(s, ev.vs, ev.ok, ev.id);
    IdleHolds(FillStep(s));
  }

  lemma PublishIsFill<V>(s: State<V>, vs: seq<V>, ok: bool, id: nat)
    requires s.Wf() && s.prod.PPublish?
    ensures ProdStep(s, vs, ok, id) == FillStep(s) && FillStep(s).B == s.B
  {
    hide Ceil;
  }

  /** What only grows, or stays, from a state to a later one. */
  ghost predicate Later<V>(s: State<V>, z: State<V>)
    requires s.Wf() && z.Wf()
  {
    && z.B == s.B && s.c.tail <= z.c.tail && |s.blocks| <= |z.blocks|
    && SameBelow(s.K0(), s.blockOf, z.blockOf) && SameBelow(s.K0(), s.entryOf, z.entryOf)
    && (forall k :: 0 <= k < s.K0() && k < |s.phase| && k < |z.phase| && s.phase[k] == Gone ==> z.phase[k] == Gone)
    && (z.c.tail == s.c.tail ==> z.tailBlock == s.tailBlock)
  }

  lemma LaterTwice<V>(s: State<V>, n: State<V>, z: State<V>)
    requires s.Wf() && n.Wf() && z.Wf() && Later(s, n) && Later(n, z) && n.K0() <= |n.phase|
    ensures Later(s, z)
  {
    CeilMonotone(s.B, s.c.tail, n.c.tail);
    hide Ceil;
  }

  lemma InsertLater<V>(s: State<V>, ok: bool)
    requires s.Wf() && (s.prod.PIndex? || s.prod.PGrow? || s.prod.PKey? || s.prod.PTail?)
    requires s.K0() <= |s.blockOf| && s.K0() <= |s.entryOf|
    ensures InsertStep(s, ok).Wf() && Later(s, InsertStep(s, ok))
  {
    InsertKeepsWf(s, ok);
    hide Wrap, Base, Doubled, Ceil;
  }

  lemma BlockLater<V>(s: State<V>, ok: bool, id: nat)
    requires s.Wf() && (s.prod.PBlock? || s.prod.PValue? || s.prod.PRewind? || s.prod.PClear?)
    requires s.K0() <= |s.blockOf| && s.K0() <= |s.entryOf|
    ensures BlockStep(s, ok, id).Wf() && Later(s, BlockStep(s, ok, id))
  {
    BlockKeepsWf(s, ok, id);
    hide Wrap, Ceil;
  }

  lemma UndoLater<V>(s: State<V>)
    requires s.Wf() && (s.prod.PUndo? || s.prod.PUndoTail? || s.prod.PGive?)
    requires s.K0() <= |s.blockOf| && s.K0() <= |s.entryOf|
    ensures UndoStep(s).Wf() && Later(s, UndoStep(s))
  {
    UndoKeepsWf(s);
    hide Wrap, Ceil, OwnEntry;
  }

  lemma FillLater<V>(s: State<V>)
    requires s.Wf() && (s.prod.PBuild? || s.prod.PPublish?)
    requires s.K0() <= |s.blockOf| && s.K0() <= |s.entryOf|
    requires s.prod.PPublish? ==> Ceil(s.B, s.c.tail + |s.prod.vs|) == s.K0() + |s.prod.got|
    ensures FillStep(s).Wf() && Later(s, FillStep(s))
  {
    FillKeepsWf(s);
    hide Ceil, Slot, Target;
  }

  lemma ProdLater<V>(s: State<V>, vs: seq<V>, ok: bool, id: nat)
    requires Inv(s)
    ensures s.Wf() && ProdStep(s, vs, ok, id).Wf() && Later(s, ProdStep(s, vs, ok, id))
  {
    hide Inv, InsertStep, BlockStep, UndoStep, FillStep, Full, Ceil, Heads, Window, Live, Owns, Cells, Phases, Readers,
         ProdOk, Filling;
    Pieces(s);
    BelowItself(s);
    ProdKeepsWf(s, vs, ok, id);
    if s.prod.PPublish? { PublishReady(s); }
    var p := s.prod;
    if p.PIndex? || p.PGrow? || p.PKey? || p.PTail? { InsertLater(s, ok); }
    if p.PBlock? || p.PValue? || p.PRewind? || p.PClear? { BlockLater(s, ok, id); }
    if p.PBuild? || p.PPublish? { FillLater(s); }
    if p.PUndo? || p.PUndoTail? || p.PGive? { UndoLater(s); }
  }

  lemma ConsLater<V>(s: State<V>, t: nat, max: nat)
    requires s.Wf() && t < |s.readers| && |s.c.owner| == s.c.head && s.K0() <= |s.blockOf| && s.K0() <= |s.entryOf|
    requires s.readers[t].Take? && BlockNo(s.B, s.readers[t].i0) < |s.phase| ==>
      s.phase[BlockNo(s.B, s.readers[t].i0)] != Gone
    requires s.readers[t].ClearEntry? && s.readers[t].k < |s.phase| ==> s.phase[s.readers[t].k] != Gone
    ensures ConsStep(s, t, max).Wf() && Later(s, ConsStep(s, t, max))
  {
    ConsKeepsWf(s, t, max);
    CounterFrame(s.c, t, max);
    hide C.Step, Lookup, Base, BlockNo, Slot, Range, Wrap, Ceil;
  }

  lemma NextIsLater<V>(s: State<V>, ev: Event<V>)
    requires Inv(s)
    ensures s.Wf() && Next(s, ev).Wf() && Later(s, Next(s, ev))
  {
    hide Inv, ProdStep, ConsStep, C.Inv, Ceil, BlockNo, Heads, Window, Live, Owns, Cells, Marks, Phases, Readers,
         ProdOk, Filling, Taken;
    Pieces(s);
    BelowItself(s);
    InvCounters(s);
    NextKeepsWf(s, ev);
    match ev
    case Produce(vs, ok, id) => ProdLater(s, vs, ok, id);
    case Consume(t, max) =>
      if t < |s.readers| {
        if s.readers[t].Take? { TakeReady(s, t); }
        if s.readers[t].ClearEntry? {
          var r := s.readers[t];
          EndingReady(s, t, r.k, r.i, r.e, r.hd, r.idx, r.b);
        }
        ConsLater(s, t, max);
      }
  }

  lemma {:induction false} RunIsLater<V>(s: State<V>, evs: seq<Event<V>>)
    requires Inv(s) && Asking(s, evs)
    ensures s.Wf() && Run(s, evs).Wf() && Later(s, Run(s, evs))
    decreases |evs|
  {
    hide Inv, Next, Ceil, Later;
    Pieces(s);
    if evs == [] {
      SelfLater(s);
    } else {
      NextKeepsInv(s, evs[0]);
      NextIsLater(s, evs[0]);
      var n := Next(s, evs[0]);
      RunIsLater(n, evs[1..]);
      BelowItself(n);
      LaterTwice(s, n, Run(n, evs[1..]));
    }
  }

  lemma SelfLater<V>(s: State<V>)
    requires Inv(s)
    ensures s.Wf() && Later(s, s)
  {
    hide Inv;
    Pieces(s);
    BelowItself(s);
  }

  /**
   * Nothing: from one idle state of the producer to a later one with the same tail, every enqueue in between has
   * failed, and has left no trace: the same tail block, the same block numbers, entries and blocks, every block that
   * was free is free again, and every element not taken by a consumer is in its place.
   */
  lemma FailedBulkUndoes<V>(s: State<V>, evs: seq<Event<V>>)
    requires Inv(s) && s.Wf() && Asking(s, evs) && s.prod.PIdle? && Run(s, evs).prod.PIdle?
      && Run(s, evs).c.tail == s.c.tail
    ensures var z := Run(s, evs);
      && z.Wf() && z.tailBlock == s.tailBlock && z.enq == s.enq && z.ins == s.ins
      && z.blockOf == s.blockOf && z.entryOf == s.entryOf && s.free <= z.free
      && forall x :: 0 <= x < z.c.tail && x !in z.out && x < |z.enq| ==> Placed(z, x)
  {
    hide Inv, Asking, Ceil, Later, Placed, Heads, Window, Live, Owns, Cells, Marks, Phases, Readers, Filling, ProdOk,
         Run;
    RunKeepsInv(s, evs);
    EnqGrows(s, evs);
    RunIsLater(s, evs);
    var z := Run(s, evs);
    Pieces(s);
    Pieces(z);
    IdleHolds(s);
    IdleHolds(z);
    LaterBlockSize(s, z);
    FreeAgain(s, z);
    assert z.enq == s.enq by {
      assert |z.enq| == |s.enq|;
    }
    forall x: nat | x < z.c.tail && x !in z.out && x < |z.enq|
      ensures Placed(z, x)
    {
      UntakenIsPlaced(z, x);
    }
  }

  lemma FreeAgain<V>(s: State<V>, z: State<V>)
    requires s.Wf() && z.Wf() && Later(s, z) && z.c.tail == s.c.tail
    requires |s.phase| == |s.blockOf| == |s.entryOf| == s.K0() && |z.phase| == |z.blockOf| == |z.entryOf| == s.K0()
    requires Owns(|s.blocks|, s.free, {}, s.blockOf, s.phase) && Owns(|z.blocks|, z.free, {}, z.blockOf, z.phase)
    ensures z.blockOf == s.blockOf && z.entryOf == s.entryOf && s.free <= z.free && z.tailBlock == s.tailBlock
  {
    hide Ceil;
    forall k | 0 <= k < |z.phase| && z.phase[k] != Gone
      ensures z.blockOf[k] !in s.free
    {
      assert s.phase[k] != Gone;
    }
  }

  lemma LaterBlockSize<V>(s: State<V>, z: State<V>)
    requires s.Wf() && z.Wf() && Later(s, z)
    ensures z.B == s.B
  {
  }
}
