/**
 * The size limit of an explicit producer's sub-queue. It is enforced when a block is taken from the pool, and not when
 * a block of the ring is reused.
 */
module ExplicitLimit {
  import opened Common
  import opened Blocks
  import C = DequeueCounters
  import opened Claims
  import opened ExplicitQueue
  import opened ExplicitInvariant
  import opened ExplicitSteps
  import opened ExplicitRuns
  import opened ExplicitProducer

  /** Were the tail at `x`, the elements from the head on would be within the limit. */
  predicate Fits<V>(s: State<V>, x: nat) {
    s.limit.Some? ==> x <= s.c.head + s.limit.value
  }

  /** The producer is about to reuse the oldest block of the ring. */
  predicate Reusing<V>(s: State<V>) {
    && s.prod.ENext? && s.tailBlock.Some? && s.tailBlock.value < |s.blocks|
    && s.blocks[s.tailBlock.value].next < |s.blocks|
    && |s.blocks[s.blocks[s.tailBlock.value].next].emptied| == s.B && s.ring != []
  }

  /** What a step of the producer does to the number of blocks started. */
  ghost predicate Starts<V>(s: State<V>, z: State<V>)
    requires s.B > 0
  {
    && z.B == s.B && z.limit == s.limit && z.c.head == s.c.head
    && s.used <= z.used <= |z.blockOf| && s.used <= |s.blockOf|
    && (|z.blockOf| == |s.blockOf| || (|z.blockOf| == |s.blockOf| + 1 && (s.prod.ETake? || Reusing(s))))
    && (z.prod.EGrow? || z.prod.ETake? ==> |z.blockOf| == |s.blockOf| && (s.prod.EGrow? || (s.prod.EHead? && !Full(s))))
  }

  lemma UsedBlocks<V>(s: State<V>)
    requires Inv(s)
    ensures s.Wf() && s.used <= |s.blockOf| && (s.used == 0 ==> s.ring == [])
  {
    hide Inv, C.Inv, Lists, Owns, Filled, Marks, Readers, ProdOk, Taken;
    Pieces(s);
  }

  lemma BlockStarts<V>(s: State<V>, ok: bool, id: nat)
    requires s.Wf() && s.used <= |s.blockOf|
    requires s.prod.ENext? || s.prod.EReset? || s.prod.EHead? || s.prod.EGrow? || s.prod.ETake?
    ensures Starts(s, BlockStep(s, ok, id))
  {
    hide Full, Linked, Wrap, Doubled;
  }

  lemma ProdStarts<V>(s: State<V>, v: V, ok: bool, id: nat)
    requires s.Wf() && s.used <= |s.blockOf|
    ensures Starts(s, ProdStep(s, v, ok, id))
  {
    hide BlockStep, Full, Wrap, Slot;
    if s.prod.ENext? || s.prod.EReset? || s.prod.EHead? || s.prod.EGrow? || s.prod.ETake? {
      BlockStarts(s, ok, id);
    }
  }

  lemma ConsKeeps<V>(s: State<V>, t: nat, max: nat)
    requires s.Wf() && t < |s.readers|
    ensures var z := ConsStep(s, t, max);
      z.B == s.B && z.limit == s.limit && z.used == s.used && z.blockOf == s.blockOf && z.prod == s.prod
  {
    hide C.Step, C.Release, Lookup, Base, BlockNo, Slot, Range, Wrap;
  }

  // ---------------------------------------------------------------- bounds that hold over every run

  /** The end of the last block started is within the limit, or within a ring of blocks from the head. */
  ghost predicate WithinRing<V>(s: State<V>) {
    s.limit.Some? ==> Base(s.B, |s.blockOf|) <= s.c.head + Max(s.limit.value, Base(s.B, s.used))
  }

  function Max(a: nat, b: nat): nat {
    if a < b then b else a
  }

  /** A block about to be taken from the pool was checked. */
  ghost predicate Checked<V>(s: State<V>) {
    s.prod.EGrow? || s.prod.ETake? ==> Fits(s, Base(s.B, |s.blockOf| + 1))
  }

  /** At the start of a block the tail is the end of the last one. */
  lemma TailIsEnd<V>(s: State<V>)
    requires Inv(s) && (s.prod.ENext? || s.prod.EHead?)
    ensures s.Wf() && s.c.tail == Base(s.B, |s.blockOf|) && s.c.tail + s.B == Base(s.B, |s.blockOf| + 1)
    ensures s.c.head <= s.c.tail
  {
    hide Inv, C.Inv, Lists, RingOk, Owns, Filled, Marks, Readers, Taken, Ceil, Base, Slot;
    Pieces(s);
    Boundary(s.B, s.c.tail);
    BlockOf(s.B, |s.blockOf|, 0);
    C.NeverOverClaims(s.c);
  }

  lemma StaysChecked<V>(s: State<V>, z: State<V>)
    requires Inv(s) && Checked(s) && s.B > 0 && Starts(s, z)
    ensures Checked(z)
  {
    hide Inv, Base;
    if s.prod.EHead? { TailIsEnd(s); }
  }

  lemma ConsMoves<V>(s: State<V>, t: nat, max: nat)
    requires Inv(s) && t < |s.readers|
    ensures s.Wf()
    ensures var z := ConsStep(s, t, max);
      && z.B == s.B && z.limit == s.limit && z.used == s.used && z.blockOf == s.blockOf && z.prod == s.prod
      && s.c.head <= z.c.head
  {
    hide Inv, C.Inv, ConsStep, Taken;
    Pieces(s);
    ConsKeeps(s, t, max);
    ConsFrame(s, t, max);
  }

  lemma NextChecked<V>(s: State<V>, ev: Event<V>)
    requires Inv(s) && Checked(s)
    ensures s.Wf() && Checked(Next(s, ev))
  {
    hide Inv, ProdStep, ConsStep, Base, Starts;
    UsedBlocks(s);
    match ev
    case Produce(v, ok, id) =>
      ProdStarts(s, v, ok, id);
      StaysChecked(s, Next(s, ev));
    case Consume(t, max) => if t < |s.readers| { ConsMoves(s, t, max); }
  }

  /** All elements of the oldest block were delivered before it is reused, so the head is past it. */
  lemma HeadPastOldest<V>(s: State<V>)
    requires Inv(s) && Reusing(s)
    ensures s.Wf() && 0 < s.used <= |s.blockOf| && Base(s.B, |s.blockOf| + 1 - s.used) <= s.c.head
  {
    hide Inv, C.Inv, Lists, RingOk, Owns, Filled, Marks, Readers, Taken, Base, Ceil, Slot, BlockStep;
    Pieces(s);
    ReusesNext(s);
    ReuseReady(s, true, 0);
    var low := |s.blockOf| - s.used;
    OldestDone(s.B, s.blocks, s.used, s.blockOf, s.doneIn, s.c.tail, s.enq, s.out, s.c.head, s.prod.v);
    BlockOf(s.B, low, 0);
    OutBelowHead(s.B, s.used, s.doneIn, s.out, s.enq, s.c.head, Base(s.B, low) + s.B - 1);
  }

  lemma ReusesNext<V>(s: State<V>)
    requires s.Wf() && Reusing(s)
    ensures BlockStep(s, true, 0).prod.EReset?
  {
  }

  lemma OutBelowHead<V>(B: nat, used: nat, doneIn: seq<set<nat>>, out: map<nat, V>, enq: seq<V>, head: nat, x: nat)
    requires Marks(B, used, doneIn, out, enq, head) && x in out
    ensures x < head
  {
  }

  lemma BaseSum(B: nat, a: nat, b: nat)
    ensures Base(B, a + b) == Base(B, a) + Base(B, b)
    ensures Base(B, a) <= Base(B, a + b)
  {
    MulDiff(B, a, a + b);
  }

  lemma StaysWithinRing<V>(s: State<V>, z: State<V>)
    requires Inv(s) && Checked(s) && WithinRing(s) && s.B > 0 && Starts(s, z)
    ensures WithinRing(z)
  {
    hide Inv, Base;
    BaseSum(s.B, s.used, z.used - s.used);
    if |z.blockOf| != |s.blockOf| && Reusing(s) {
      HeadPastOldest(s);
      BaseSum(s.B, |s.blockOf| + 1 - s.used, s.used);
    }
  }

  lemma NextWithinRing<V>(s: State<V>, ev: Event<V>)
    requires Inv(s) && Checked(s) && WithinRing(s)
    ensures s.Wf() && WithinRing(Next(s, ev)) && Next(s, ev).limit == s.limit
  {
    hide Inv, ProdStep, ConsStep, Base;
    UsedBlocks(s);
    match ev
    case Produce(v, ok, id) =>
      ProdStarts(s, v, ok, id);
      StaysWithinRing(s, Next(s, ev));
    case Consume(t, max) => if t < |s.readers| { ConsMoves(s, t, max); }
  }

  lemma {:induction false} RunWithinRing<V>(s: State<V>, evs: seq<Event<V>>)
    requires Inv(s) && Checked(s) && WithinRing(s)
    ensures s.Wf() && WithinRing(Run(s, evs)) && Run(s, evs).limit == s.limit
    decreases |evs|
  {
    hide Inv, Next, Checked, WithinRing;
    Pieces(s);
    if evs != [] {
      NextKeepsInv(s, evs[0]);
      NextChecked(s, evs[0]);
      NextWithinRing(s, evs[0]);
      RunWithinRing(Next(s, evs[0]), evs[1..]);
    }
  }

  /** The tail is at most the end of the last block started. */
  lemma TailInBlocks<V>(s: State<V>)
    requires Inv(s)
    ensures s.Wf() && s.c.tail <= Base(s.B, |s.blockOf|)
  {
    hide Inv, C.Inv, Lists, RingOk, Owns, Filled, Marks, Readers, Taken, Ceil, Base, Slot, BlockNo;
    Pieces(s);
    CeilBounds(s.B, s.c.tail);
    BlockOf(s.B, BlockNo(s.B, s.c.tail), s.c.tail);
    BlockOf(s.B, Ceil(s.B, s.c.tail), 0);
  }

  /**
   * Over every run the elements from the head to the tail are at most the limit, or what the blocks of the ring hold.
   */
  lemma SizeWithinLimitOrRing<V>(B: nat, limit: Option<nat>, size: nat, pool: nat, n: nat, evs: seq<Event<V>>)
    requires B > 0 && size > 0 && limit.Some?
    ensures var s := Reached(B, limit, size, pool, n, evs);
      s.c.tail <= s.c.head + Max(limit.value, s.used * s.B)
  {
    hide Inv, Run;
    ReachedInv(B, limit, size, pool, n, evs);
    InitInv<V>(B, limit, size, pool, n);
    RunWithinRing(Init<V>(B, limit, size, pool, n), evs);
    TailInBlocks(Reached(B, limit, size, pool, n, evs));
  }

  /** Every block reused in the run would have passed the check it is not put to. */
  ghost predicate ReusesFit<V>(s: State<V>, evs: seq<Event<V>>)
    requires s.Wf()
    decreases |evs|
  {
    evs == [] ||
    (&& (evs[0].Produce? && Reusing(s) ==> Fits(s, s.c.tail + s.B))
     && Next(s, evs[0]).Wf() && ReusesFit(Next(s, evs[0]), evs[1..]))
  }

  lemma NextFits<V>(s: State<V>, ev: Event<V>)
    requires Inv(s) && Checked(s) && Fits(s, Base(s.B, |s.blockOf|))
    requires ev.Produce? && Reusing(s) ==> Fits(s, s.c.tail + s.B)
    ensures s.Wf()
    ensures var z := Next(s, ev); Fits(z, Base(z.B, |z.blockOf|)) && z.limit == s.limit
  {
    hide Inv, ProdStep, ConsStep, Base;
    UsedBlocks(s);
    match ev
    case Produce(v, ok, id) =>
      ProdStarts(s, v, ok, id);
      if s.prod.ENext? { TailIsEnd(s); }
    case Consume(t, max) => if t < |s.readers| { ConsMoves(s, t, max); }
  }

  lemma {:induction false} RunFits<V>(s: State<V>, evs: seq<Event<V>>)
    requires Inv(s) && Checked(s) && Fits(s, Base(s.B, |s.blockOf|)) && s.Wf() && ReusesFit(s, evs)
    ensures var z := Run(s, evs); Fits(z, Base(z.B, |z.blockOf|)) && z.limit == s.limit
    decreases |evs|
  {
    hide Inv, Next, Checked, Fits, Reusing;
    if evs != [] {
      NextKeepsInv(s, evs[0]);
      NextChecked(s, evs[0]);
      NextFits(s, evs[0]);
      RunFits(Next(s, evs[0]), evs[1..]);
    }
  }

  /** A run whose reuses all fit keeps to the limit. */
  lemma FittingReusesKeepLimit<V>(B: nat, limit: Option<nat>, size: nat, pool: nat, n: nat, evs: seq<Event<V>>)
    requires B > 0 && size > 0 && limit.Some?
    requires Init<V>(B, limit, size, pool, n).Wf() && ReusesFit(Init<V>(B, limit, size, pool, n), evs)
    ensures var s := Reached(B, limit, size, pool, n, evs);
      s.c.tail <= s.c.head + limit.value
  {
    hide Inv, Run, ReusesFit;
    ReachedInv(B, limit, size, pool, n, evs);
    InitInv<V>(B, limit, size, pool, n);
    RunFits(Init<V>(B, limit, size, pool, n), evs);
    TailInBlocks(Reached(B, limit, size, pool, n, evs));
  }

  // ---------------------------------------------------------------- a reuse that does not fit

  /** How many steps the producer is from its next publication. */
  function Rank<V>(p: Prod<V>): nat {
    match p
    case EReset(_) => 5
    case EWrite(_) => 4
    case EFront(_) => 3
    case EBuild(_) => 2
    case EPublish(_) => 1
    case _ => 6
  }

  /** The producer is filling a block, or has filled it. */
  predicate Filling<V>(p: Prod<V>) {
    p.EIdle? || p.EReset? || p.EWrite? || p.EFront? || p.EBuild? || p.EPublish?
  }

  lemma FillingGoesOn<V>(s: State<V>, v: V)
    requires Inv(s) && Filling(s.prod) && (s.prod.EIdle? ==> s.B > 0 && Slot(s.B, s.c.tail) != 0)
    ensures s.Wf()
    ensures var z := ProdStep(s, v, true, 0);
      && Filling(z.prod) && z.B == s.B && z.limit == s.limit && z.c.head == s.c.head
      && (if s.prod.EPublish? then z.prod.EIdle? && z.c.tail == s.c.tail + 1
          else !z.prod.EIdle? && z.c.tail == s.c.tail && Rank(z.prod) < Rank(s.prod))
  {
    hide Inv, C.Inv, Slot, Wrap;
    ProducerReady(s);
  }

  /** Left alone, the producer fills its block up to the end, at `Base(s.B, k + 1)`. */
  lemma {:induction false} FillBlock<V>(s: State<V>, v: V, k: nat) returns (evs: seq<Event<V>>)
    requires Inv(s) && s.Wf() && Filling(s.prod) && Base(s.B, k) <= s.c.tail <= Base(s.B, k) + s.B
    requires s.prod.EIdle? ==> Base(s.B, k) < s.c.tail
    requires !s.prod.EIdle? ==> s.c.tail < Base(s.B, k) + s.B
    ensures forall e :: e in evs ==> e.Produce?
    ensures var z := Run(s, evs);
      z.prod.EIdle? && z.c.tail == Base(s.B, k) + s.B && z.c.head == s.c.head && z.limit == s.limit
    decreases Base(s.B, k) + s.B - s.c.tail, Rank(s.prod)
  {
    hide Inv, ProdStep, Base, Slot, BlockNo;
    if s.prod.EIdle? && s.c.tail == Base(s.B, k) + s.B {
      evs := [];
    } else {
      InsideBlock(s.B, k, s.c.tail);
      FillingGoesOn(s, v);
      var e: Event<V> := Produce(v, true, 0);
      NextKeepsInv(s, e);
      NextKeepsWf(s, e);
      var rest := FillBlock(Next(s, e), v, k);
      evs := [e] + rest;
      assert evs[1..] == rest;
    }
  }

  lemma InsideBlock(B: nat, k: nat, x: nat)
    requires B > 0
    ensures Base(B, k) < x < Base(B, k) + B ==> Slot(B, x) != 0
  {
    if Base(B, k) < x < Base(B, k) + B {
      Parts(B, k, x - Base(B, k));
    }
  }

  /**
   * A block about to be reused is filled whatever the limit says: left alone the producer goes on to its end, and keeps
   * to the limit if and only if the block would have passed the check.
   */
  lemma ReuseKeepsLimitIffFits<V>(s: State<V>, v: V) returns (evs: seq<Event<V>>)
    requires Inv(s) && s.Wf() && Reusing(s) && s.limit.Some?
    ensures forall e :: e in evs ==> e.Produce?
    ensures var z := Run(s, evs);
      && z.prod.EIdle? && z.c.tail == s.c.tail + s.B && z.c.head == s.c.head
      && (z.c.tail <= z.c.head + s.limit.value <==> Fits(s, s.c.tail + s.B))
  {
    hide Inv, Base, BlockStep;
    ReusesNext(s);
    TailIsEnd(s);
    var e: Event<V> := Produce(v, true, 0);
    UsedBlocks(s);
    ProdStarts(s, v, true, 0);
    BlockKeepsWf(s, true, 0);
    NextKeepsInv(s, e);
    NextKeepsWf(s, e);
    var rest := FillBlock(Next(s, e), v, |s.blockOf|);
    evs := [e] + rest;
    assert evs[1..] == rest;
  }
}
