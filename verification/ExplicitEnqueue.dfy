/** When an enqueue of an explicit producer succeeds, when it may fail, and that it ends. */
module ExplicitEnqueue {
  import opened Common
  import opened Blocks
  import C = DequeueCounters
  import opened Claims
  import opened ExplicitQueue
  import opened ExplicitInvariant
  import opened ExplicitSteps
  import opened ExplicitRuns
  import opened ExplicitProducer

  /** A block is to be started, and with it full the elements from the head on would be past the limit. */
  predicate Refused<V>(s: State<V>)
    requires s.B > 0
  {
    Slot(s.B, s.c.tail) == 0 && s.limit.Some? && s.c.tail + s.B > s.c.head + s.limit.value
  }

  /** The producer asks for memory, for a larger index or for a block, and there is none. */
  predicate Denied<V>(s: State<V>, ok: bool) {
    !ok && (s.prod.EGrow? || s.prod.ETake?)
  }

  /** How many accesses an enqueue has at most before it. */
  function Ahead<V>(p: Prod<V>): nat {
    match p
    case EIdle => 0
    case ENext(_) => 8
    case EHead(_) => 7
    case EGrow(_) => 6
    case EReset(_) => 5
    case ETake(_) => 5
    case EWrite(_) => 4
    case EFront(_) => 3
    case EBuild(_) => 2
    case EPublish(_) => 1
  }

  /** No access of an enqueue is in vain, and only one that is refused or denied ends it without publishing. */
  lemma ProducerGoesOn<V>(s: State<V>, v: V, ok: bool, id: nat)
    requires Inv(s)
    ensures s.Wf()
    ensures var z := ProdStep(s, v, ok, id);
      && z.c.head == s.c.head && z.limit == s.limit && z.B == s.B
      && (z.prod.EIdle? ==> z.c.tail == s.c.tail + 1 || (z.c.tail == s.c.tail && (Refused(s) || Denied(s, ok))))
      && (!z.prod.EIdle? ==> z.c.tail == s.c.tail && (s.prod.EIdle? || Ahead(z.prod) < Ahead(s.prod)))
      && (s.prod.EIdle? ==> !z.prod.EIdle?)
  {
    hide Inv, C.Inv, Slot, Wrap, Doubled, Linked;
    ProducerReady(s);
    HeadBelowTail(s);
  }

  lemma HeadBelowTail<V>(s: State<V>)
    requires Inv(s)
    ensures s.c.head <= s.c.tail
    ensures s.Wf() && (s.prod.EHead? ==> Slot(s.B, s.c.tail) == 0)
  {
    hide Inv, Lists, RingOk, Owns, Filled, Marks, Readers, Taken, Ceil;
    Pieces(s);
    C.NeverOverClaims(s.c);
  }

  /**
   * Over every run, whatever place the producer is at: a step that makes it idle has published, or a block was to be
   * started past the limit, or memory asked for was not there.
   */
  lemma FailsOnlyIf<V>(B: nat, limit: Option<nat>, size: nat, pool: nat, n: nat, evs: seq<Event<V>>, v: V, ok: bool,
      id: nat)
    requires B > 0 && size > 0
    ensures var s := Reached(B, limit, size, pool, n, evs);
      && s.Wf()
      && var z := ProdStep(s, v, ok, id);
         z.prod.EIdle? ==> z.c.tail == s.c.tail + 1 || Refused(s) || Denied(s, ok)
  {
    hide Inv, Reached, ProdStep;
    ReachedInv(B, limit, size, pool, n, evs);
    ProducerGoesOn(Reached(B, limit, size, pool, n, evs), v, ok, id);
  }

  function ProducerSteps<V>(evs: seq<Event<V>>): nat {
    if evs == [] then 0 else (if evs[0].Produce? then 1 else 0) + ProducerSteps(evs[1..])
  }

  /** All memory asked for is there. */
  predicate AllOk<V>(evs: seq<Event<V>>) {
    forall k :: 0 <= k < |evs| && evs[k].Produce? ==> evs[k].ok
  }

  lemma NextGoesOn<V>(s: State<V>, ev: Event<V>)
    requires Inv(s) && !s.prod.EIdle?
    ensures s.Wf()
    ensures var z := Next(s, ev);
      && z.B == s.B && z.limit == s.limit && s.c.head <= z.c.head
      && (z.prod.EIdle? ==>
            ev.Produce? && (z.c.tail == s.c.tail + 1 || (z.c.tail == s.c.tail && (Refused(s) || !ev.ok))))
      && (z.prod.EIdle? ==> z.enq == if z.c.tail == s.c.tail then s.enq else s.enq + [s.prod.v])
      && (!z.prod.EIdle? ==>
            && z.enq == s.enq && z.prod.v == s.prod.v && z.c.tail == s.c.tail
            && Ahead(z.prod) + (if ev.Produce? then 1 else 0) <= Ahead(s.prod))
  {
    hide Inv, ProdStep, ConsStep, Ahead, Refused, C.Inv, Taken;
    Pieces(s);
    match ev
    case Produce(v, ok, id) =>
      ProducerGoesOn(s, v, ok, id);
      ProdKeepsWf(s, v, ok, id);
      assert s.enq + [] == s.enq;
    case Consume(t, max) =>
      if t < |s.readers| {
        ConsKeepsWf(s, t, max);
        ConsFrame(s, t, max);
        ConsSame(s, t, max);
      }
  }

  lemma ConsSame<V>(s: State<V>, t: nat, max: nat)
    requires s.Wf() && t < |s.readers|
    ensures ConsStep(s, t, max).B == s.B && ConsStep(s, t, max).limit == s.limit
  {
    hide C.Step, C.Release, Lookup, Base, BlockNo, Slot, Range, Wrap;
  }

  lemma RefusedLess<V>(s: State<V>, z: State<V>)
    requires s.B > 0 && z.B == s.B && z.limit == s.limit && s.c.head <= z.c.head && z.c.tail == s.c.tail && !Refused(s)
    ensures !Refused(z)
  {
  }

  /**
   * An enqueue is wait-free: within eight accesses after the one that begins it, and whatever consumers do between
   * them, the producer is idle again. If all memory asked for is there and the block it may have to start is within the
   * limit at first, it has published its value.
   */
  lemma {:induction false} EnqueueEnds<V>(s: State<V>, evs: seq<Event<V>>, good: bool) returns (n: nat)
    requires Inv(s) && s.Wf() && !s.prod.EIdle? && Ahead(s.prod) <= ProducerSteps(evs)
    requires good ==> AllOk(evs) && !Refused(s)
    ensures n <= |evs| && Run(s, evs[..n]).prod.EIdle?
    ensures good ==> Run(s, evs[..n]).enq == s.enq + [s.prod.v]
    decreases |evs|
  {
    hide Inv, Next, Ahead, Refused;
    assert Ahead(s.prod) > 0 by { AheadPositive(s.prod); }
    var z := Next(s, evs[0]);
    NextKeepsInv(s, evs[0]);
    NextKeepsWf(s, evs[0]);
    NextGoesOn(s, evs[0]);
    assert good && evs[0].Produce? ==> evs[0].ok;
    if z.prod.EIdle? {
      n := 1;
      assert evs[..1][1..] == [] && evs[..1][0] == evs[0];
      assert Run(s, evs[..1]) == Run(z, []);
    } else {
      if good { RefusedLess(s, z); }
      var m := EnqueueEnds(z, evs[1..], good);
      n := m + 1;
      assert evs[..n][1..] == evs[1..][..m] && evs[..n][0] == evs[0];
    }
  }

  lemma AheadPositive<V>(p: Prod<V>)
    ensures !p.EIdle? ==> 0 < Ahead(p) <= 8
  {
  }

  /** `enqueue(v)` from an idle producer, over every run: with memory and room its value is the next one published. */
  lemma EnqueueSucceeds<V>(B: nat, limit: Option<nat>, size: nat, pool: nat, n: nat, evs: seq<Event<V>>, v: V, id: nat,
      more: seq<Event<V>>) returns (m: nat)
    requires B > 0 && size > 0 && Reached(B, limit, size, pool, n, evs).prod.EIdle?
    requires Reached(B, limit, size, pool, n, evs).Wf() && !Refused(Reached(B, limit, size, pool, n, evs))
    requires AllOk(more) && 8 <= ProducerSteps(more)
    ensures m <= |more|
    ensures var s := Reached(B, limit, size, pool, n, evs);
      var z := Run(s, [Produce(v, true, id)] + more[..m]);
      z.prod.EIdle? && z.enq == s.enq + [v] && z.c.tail == s.c.tail + 1
  {
    hide Inv, Reached, ProdStep, Ahead, Refused;
    var s := Reached(B, limit, size, pool, n, evs);
    ReachedInv(B, limit, size, pool, n, evs);
    var e: Event<V> := Produce(v, true, id);
    NextKeepsInv(s, e);
    NextKeepsWf(s, e);
    ProducerGoesOn(s, v, true, id);
    ProdKeepsWf(s, v, true, id);
    assert s.enq + [] == s.enq;
    var z := Next(s, e);
    RefusedLess(s, z);
    AheadPositive(z.prod);
    m := EnqueueEnds(z, more, true);
    assert ([e] + more[..m])[1..] == more[..m];
    RunKeepsInv(z, more[..m]);
    EnqIsTail(s);
    EnqIsTail(Run(z, more[..m]));
  }

  lemma EnqIsTail<V>(s: State<V>)
    requires Inv(s)
    ensures |s.enq| == s.c.tail
  {
    hide C.Inv, Lists, RingOk, Owns, Filled, Marks, Readers, Taken, ProdOk;
  }

  // ---------------------------------------------------------------- blocks are reused

  /** The pool hands out a free block whenever there is one. */
  ghost predicate Offering<V>(s: State<V>, evs: seq<Event<V>>)
    requires s.Wf()
    decreases |evs|
  {
    evs == [] ||
    (&& (evs[0].Produce? && s.free != {} ==> evs[0].id in s.free)
     && Next(s, evs[0]).Wf() && Offering(Next(s, evs[0]), evs[1..]))
  }

  /** The most blocks in the producer's hands at any time. */
  function PeakUse<V>(s: State<V>, evs: seq<Event<V>>): int
    requires s.Wf()
    decreases |evs|
  {
    var here := |s.blocks| - |s.free|;
    if evs == [] then here
    else
      assert Next(s, evs[0]).Wf() by { NextKeepsWf(s, evs[0]); }
      var later := PeakUse(Next(s, evs[0]), evs[1..]);
      if here < later then later else here
  }

  /** A new block is made only if none is free. */
  lemma NextReuses<V>(s: State<V>, ev: Event<V>)
    requires Inv(s) && s.Wf() && (ev.Produce? && s.free != {} ==> ev.id in s.free)
    ensures var z := Next(s, ev);
      |z.blocks| == |s.blocks| || (s.free == {} && z.free == {} && |z.blocks| == |s.blocks| + 1)
  {
    hide Inv, ProdStep, ConsStep;
    FreeExist(s);
    match ev
    case Produce(v, ok, id) => ProdReuses(s, v, ok, id);
    case Consume(t, max) => if t < |s.readers| { ConsBlocks(s, t, max); }
  }

  lemma ConsBlocks<V>(s: State<V>, t: nat, max: nat)
    requires s.Wf() && t < |s.readers|
    ensures |ConsStep(s, t, max).blocks| == |s.blocks|
  {
    hide C.Step, C.Release, Lookup, Base, BlockNo, Slot, Range, Wrap, MarkDone;
  }

  lemma FreeExist<V>(s: State<V>)
    requires Inv(s)
    ensures forall id :: id in s.free ==> id < |s.blocks|
  {
    hide Inv, C.Inv, Lists, RingOk, Filled, Marks, Readers, Taken, ProdOk;
    Pieces(s);
  }

  lemma ProdReuses<V>(s: State<V>, v: V, ok: bool, id: nat)
    requires s.Wf() && (forall b :: b in s.free ==> b < |s.blocks|) && (s.free != {} ==> id in s.free)
    ensures var z := ProdStep(s, v, ok, id);
      |z.blocks| == |s.blocks| || (s.free == {} && z.free == {} && |z.blocks| == |s.blocks| + 1)
  {
    hide Full, Wrap, Slot, Doubled;
  }

  /** Blocks are reused before new ones are made: there are never more than were in use at one time. */
  lemma {:induction false} BlocksWithinPeak<V>(s: State<V>, evs: seq<Event<V>>)
    requires Inv(s) && s.Wf() && Offering(s, evs)
    ensures |Run(s, evs).blocks| <= |s.blocks| || |Run(s, evs).blocks| <= PeakUse(s, evs)
    decreases |evs|
  {
    hide Inv, Next;
    if evs != [] {
      NextKeepsInv(s, evs[0]);
      NextKeepsWf(s, evs[0]);
      NextReuses(s, evs[0]);
      BlocksWithinPeak(Next(s, evs[0]), evs[1..]);
      PeakStarts(Next(s, evs[0]), evs[1..]);
    }
  }

  lemma PeakStarts<V>(s: State<V>, evs: seq<Event<V>>)
    requires s.Wf()
    ensures |s.blocks| - |s.free| <= PeakUse(s, evs)
  {
  }

  // ---------------------------------------------------------------- the index grows only when it must

  /** The index is of the initial size, or at most twice as large as the ring. */
  predicate Fitting<V>(s: State<V>, size: nat)
    requires s.Wf()
  {
    s.indices[s.Cur()].size <= size || s.indices[s.Cur()].size <= 2 * |s.ring|
  }

  lemma NextFitting<V>(s: State<V>, ev: Event<V>, size: nat)
    requires Inv(s) && s.Wf() && Fitting(s, size)
    ensures Next(s, ev).Wf() && Fitting(Next(s, ev), size)
  {
    hide Inv, ConsStep, Wrap, Slot, Full, Linked, C.Inv, Lists, Owns, Filled, Marks, Readers, Taken, Order, Links;
    Pieces(s);
    NextKeepsWf(s, ev);
    match ev
    case Produce(v, ok, id) =>
    case Consume(t, max) => if t < |s.readers| { ConsIndices(s, t, max); }
  }

  lemma ConsIndices<V>(s: State<V>, t: nat, max: nat)
    requires s.Wf() && t < |s.readers|
    ensures ConsStep(s, t, max).indices == s.indices && ConsStep(s, t, max).ring == s.ring
  {
    hide C.Step, C.Release, Lookup, Base, BlockNo, Slot, Range, Wrap, MarkDone;
  }

  lemma {:induction false} RunFitting<V>(s: State<V>, evs: seq<Event<V>>, size: nat)
    requires Inv(s) && s.Wf() && Fitting(s, size)
    ensures Run(s, evs).Wf() && Fitting(Run(s, evs), size)
    decreases |evs|
  {
    hide Inv, Next, Fitting;
    if evs != [] {
      NextKeepsInv(s, evs[0]);
      NextFitting(s, evs[0], size);
      RunFitting(Next(s, evs[0]), evs[1..], size);
    }
  }

  /**
   * Over every run the index is of its initial size, or at most twice as large as the ring: it grows when it is full.
   */
  lemma IndexWithinRing<V>(B: nat, limit: Option<nat>, size: nat, pool: nat, n: nat, evs: seq<Event<V>>)
    requires B > 0 && size > 0
    ensures var s := Reached(B, limit, size, pool, n, evs); s.Wf() && Fitting(s, size)
  {
    hide Inv, Run;
    InitInv<V>(B, limit, size, pool, n);
    RunFitting(Init<V>(B, limit, size, pool, n), evs, size);
  }
}
