/** When a bulk enqueue of an implicit producer succeeds, when it may fail, and that it ends either way. */
module ImplicitEnqueue {
  import opened Common
  import opened Blocks
  import C = DequeueCounters
  import opened Claims
  import opened ImplicitQueue
  import opened ImplicitInvariant
  import opened ImplicitProducerSteps
  import opened ImplicitFillSteps
  import opened ImplicitConsumerSteps
  import opened ImplicitRuns
  import opened ImplicitGuarantees
  import L = ImplicitLimit
  import opened ImplicitProducer

  /** Enqueueing `vs` starts a block, and with the last block it starts full the limit would be passed. */
  predicate Refused<V>(s: State<V>, vs: seq<V>)
    requires s.B > 0
  {
    && Ceil(s.B, s.c.tail) < Ceil(s.B, s.c.tail + |vs|) && s.limit.Some?
    && Base(s.B, Ceil(s.B, s.c.tail + |vs|)) > s.c.head + s.limit.value
  }

  /** The producer asks for memory, for a larger index or for a block, and there is none. */
  predicate Denied<V>(s: State<V>, ok: bool) {
    !ok && (s.prod.PGrow? || s.prod.PBlock?)
  }

  /** Whether the call under way has been refused or denied, with this step. */
  predicate ExcusedAfter<V>(s: State<V>, call: Option<seq<V>>, excused: bool, ev: Event<V>)
    requires s.B > 0
  {
    if ev.Consume? then excused
    else
      || (!s.prod.PIdle? && excused) || Denied(s, ev.ok)
      || (CallAt(s, call, ev.vs).Some? && Refused(s, CallAt(s, call, ev.vs).value))
  }

  predicate ExcusedIn<V>(s: State<V>, call: Option<seq<V>>, excused: bool, evs: seq<Event<V>>)
    requires s.Wf()
    decreases |evs|
  {
    if evs == [] then excused
    else
      assert Next(s, evs[0]).Wf() by { NextKeepsWf(s, evs[0]); }
      ExcusedIn(Next(s, evs[0]), CallAfter(s, call, evs[0]), ExcusedAfter(s, call, excused, evs[0]), evs[1..])
  }

  predicate Failing<V>(p: Prod<V>) {
    p.PRewind? || p.PClear? || p.PUndo? || p.PUndoTail? || p.PGive?
  }

  /** The slot behind the index tail has an entry not in use. */
  predicate Usable<V>(s: State<V>)
    requires s.Wf()
  {
    var h := s.headers[s.Cur()];
    var e := h.index[Wrap(h.cap, h.tail + 1)];
    e < |s.entries| && (s.entries[e].key.None? || s.entries[e].value.None?)
  }

  /** How many blocks a bulk of `m` elements starts. */
  function Starts(B: nat, tail: nat, m: nat): int
    requires B > 0
  {
    Ceil(B, tail + m) - Ceil(B, tail)
  }

  /** How many accesses a bulk enqueue has at most before it: eight for each block to start, and as many to undo it. */
  function Ahead<V>(s: State<V>): int
    requires s.Wf()
  {
    if s.prod.PIdle? then 0
    else
      var vs, got := s.prod.vs, s.prod.got;
      var all := Starts(s.B, s.c.tail, |vs|);
      var rest := 8 * (all - |got|) + 3 * all + |vs| + 10;
      match s.prod
      case PNext(_, _) => rest
      case PIndex(_, _) => rest - if Usable(s) then 3 else 1
      case PGrow(_, _) => rest - 2
      case PKey(_, _, _, _) => rest - 4
      case PTail(_, _, _, _) => rest - 5
      case PBlock(_, _, _) => rest - 6
      case PValue(_, _, _, _) => rest - 7
      case PRewind(_, _, _) => 3 * |got| + 4
      case PClear(_, _, _) => 3 * |got| + 3
      case PUndo(_, _, j) => 3 * |got| + 2 - 2 * j
      case PUndoTail(_, _, j) => 3 * |got| + 1 - 2 * j
      case PGive(_, _, j) => |got| + 1 - j
      case PBuild(_, _, i) => |vs| + 2 - i
      case PPublish(_, _) => 1
  }

  /** How far the chain of blocks can have got. */
  lemma ChainFits<V>(s: State<V>)
    requires Inv(s) && !s.prod.PIdle?
    ensures s.Wf()
    ensures var all := Starts(s.B, s.c.tail, |s.prod.vs|);
      && 0 <= all
      && (s.prod.PNext? ==> |s.prod.got| <= all)
      && (s.prod.PIndex? || s.prod.PGrow? || s.prod.PKey? || s.prod.PTail? || s.prod.PBlock? || s.prod.PValue? ==>
            |s.prod.got| < all)
      && (s.prod.PBuild? ==> s.prod.i <= |s.prod.vs|)
      && (s.prod.PUndo? || s.prod.PGive? ==> s.prod.j <= |s.prod.got|)
      && (s.prod.PUndoTail? ==> s.prod.j < |s.prod.got|)
      && s.c.head <= s.c.tail
  {
    hide Inv, Ceil, Heads, Window, Live, Owns, Cells, Marks, Phases, Readers, Filling, AllOpen, AllAre, NextSlot, C.Inv,
         Base;
    Pieces(s);
    InvCounters(s);
    C.NeverOverClaims(s.c);
    CeilMonotone(s.B, s.c.tail, s.c.tail + |s.prod.vs|);
  }

  /**
   * What a step of the producer within a call does: it comes nearer to the end, and fails only if refused or denied.
   */
  ghost predicate Nearer<V>(s: State<V>, z: State<V>, ok: bool)
    requires s.Wf() && z.Wf() && !s.prod.PIdle?
  {
    && z.B == s.B && z.limit == s.limit && z.c.head == s.c.head
    && 0 <= Ahead(z) < Ahead(s)
    && (z.prod.PIdle? ==> s.prod.PPublish? || s.prod.PGive?)
    && (!z.prod.PIdle? ==> z.c.tail == s.c.tail && z.prod.vs == s.prod.vs)
    && (Failing(z.prod) ==> Failing(s.prod) || Denied(s, ok) || Refused(s, s.prod.vs))
  }

  lemma BaseGrows(B: nat, a: nat, b: nat)
    ensures a <= b ==> Base(B, a) <= Base(B, b)
    ensures a < b ==> Base(B, a) + B <= Base(B, b)
  {
    MulDiff(B, a, b);
  }

  /** A check that fails for one block fails for the last one. */
  lemma FullIsRefused<V>(s: State<V>)
    requires Inv(s) && s.prod.PNext?
    ensures s.Wf()
    ensures var k := s.K0() + |s.prod.got|;
      k < Ceil(s.B, s.c.tail + |s.prod.vs|) && Full(s, k) ==> Refused(s, s.prod.vs)
  {
    hide Inv, Ceil, Base;
    ChainFits(s);
    var k := s.K0() + |s.prod.got|;
    CeilBounds(s.B, s.c.tail);
    BaseGrows(s.B, s.K0(), k);
    BaseGrows(s.B, k, Ceil(s.B, s.c.tail + |s.prod.vs|));
  }

  lemma NextNearer<V>(s: State<V>, vs: seq<V>, ok: bool, id: nat)
    requires Inv(s) && s.prod.PNext?
    ensures s.Wf() && ProdStep(s, vs, ok, id).Wf() && Nearer(s, ProdStep(s, vs, ok, id), ok)
  {
    hide Inv, Ceil, Full, Refused, Usable;
    ChainFits(s);
    ProdKeepsWf(s, vs, ok, id);
    FullIsRefused(s);
  }

  lemma InsertNearer<V>(s: State<V>, vs: seq<V>, ok: bool, id: nat)
    requires Inv(s) && (s.prod.PIndex? || s.prod.PGrow? || s.prod.PKey? || s.prod.PTail?)
    ensures s.Wf() && ProdStep(s, vs, ok, id).Wf() && Nearer(s, ProdStep(s, vs, ok, id), ok)
  {
    hide Inv, Ceil, Base, Wrap, Doubled;
    ChainFits(s);
    ProducerReady(s);
    ProdKeepsWf(s, vs, ok, id);
    if s.prod.PGrow? && ok {
      GrowthMakesRoom(s);
    }
  }

  lemma BlockNearer<V>(s: State<V>, vs: seq<V>, ok: bool, id: nat)
    requires Inv(s) && (s.prod.PBlock? || s.prod.PValue? || s.prod.PRewind? || s.prod.PClear?)
    ensures s.Wf() && ProdStep(s, vs, ok, id).Wf() && Nearer(s, ProdStep(s, vs, ok, id), ok)
  {
    hide Inv, Ceil, Base, Wrap;
    ChainFits(s);
    ProducerReady(s);
    ProdKeepsWf(s, vs, ok, id);
  }

  lemma FillNearer<V>(s: State<V>, vs: seq<V>, ok: bool, id: nat)
    requires Inv(s) && (s.prod.PBuild? || s.prod.PPublish?)
    ensures s.Wf() && ProdStep(s, vs, ok, id).Wf() && Nearer(s, ProdStep(s, vs, ok, id), ok)
  {
    hide Inv, Ceil, Base, Slot, Target;
    ChainFits(s);
    ProducerReady(s);
    ProdKeepsWf(s, vs, ok, id);
  }

  lemma UndoNearer<V>(s: State<V>, vs: seq<V>, ok: bool, id: nat)
    requires Inv(s) && (s.prod.PUndo? || s.prod.PUndoTail? || s.prod.PGive?)
    ensures s.Wf() && ProdStep(s, vs, ok, id).Wf() && Nearer(s, ProdStep(s, vs, ok, id), ok)
  {
    hide Inv, Ceil, Base, Wrap, OwnEntry;
    ChainFits(s);
    ProducerReady(s);
    ProdKeepsWf(s, vs, ok, id);
  }

  lemma ProducerNearer<V>(s: State<V>, vs: seq<V>, ok: bool, id: nat)
    requires Inv(s) && !s.prod.PIdle?
    ensures s.Wf() && ProdStep(s, vs, ok, id).Wf() && Nearer(s, ProdStep(s, vs, ok, id), ok)
  {
    hide Inv, ProdStep, Nearer;
    var p := s.prod;
    if p.PNext? {
      NextNearer(s, vs, ok, id);
    } else if p.PIndex? || p.PGrow? || p.PKey? || p.PTail? {
      InsertNearer(s, vs, ok, id);
    } else if p.PBlock? || p.PValue? || p.PRewind? || p.PClear? {
      BlockNearer(s, vs, ok, id);
    } else if p.PBuild? || p.PPublish? {
      FillNearer(s, vs, ok, id);
    } else {
      UndoNearer(s, vs, ok, id);
    }
  }

  // ---------------------------------------------------------------- with consumers in between

  /** Consumers only free entries. */
  lemma ConsFrees<V>(s: State<V>, t: nat, max: nat)
    requires s.Wf() && t < |s.readers|
    ensures var z := ConsStep(s, t, max);
      && z.headers == s.headers && |z.entries| == |s.entries|
      && forall e :: 0 <= e < |s.entries| ==> z.entries[e] == s.entries[e] || z.entries[e].value.None?
  {
    hide Wrap, Base, BlockNo, Slot, Lookup, C.Step, C.Release, Range, Mark, MarkDone;
  }

  lemma ConsUsable<V>(s: State<V>, t: nat, max: nat)
    requires s.Wf() && t < |s.readers| && ConsStep(s, t, max).Wf()
    ensures var z := ConsStep(s, t, max);
      && z.B == s.B && z.limit == s.limit && z.prod == s.prod && z.c.tail == s.c.tail && s.c.head <= z.c.head
      && z.enq == s.enq && (Usable(s) ==> Usable(z))
  {
    hide ConsStep, Wrap;
    L.ConsKeeps(s, t, max);
    ConsEnq(s, t, max);
    ConsFrees(s, t, max);
  }

  lemma ConsNearer<V>(s: State<V>, t: nat, max: nat)
    requires s.Wf() && t < |s.readers| && ConsStep(s, t, max).Wf()
    ensures Ahead(ConsStep(s, t, max)) <= Ahead(s)
  {
    ConsUsable(s, t, max);
    hide ConsStep, Usable, Ceil;
  }

  lemma EventNearer<V>(s: State<V>, ev: Event<V>)
    requires Inv(s) && Asks(s, ev) && !s.prod.PIdle?
    ensures s.Wf() && Next(s, ev).Wf()
    ensures var z := Next(s, ev);
      && z.B == s.B && z.limit == s.limit && s.c.head <= z.c.head
      && Ahead(z) + (if ev.Produce? then 1 else 0) <= Ahead(s) && 0 <= Ahead(s)
      && (z.prod.PIdle? ==> ev.Produce? && (s.prod.PPublish? || s.prod.PGive?))
      && (!z.prod.PIdle? ==> z.c.tail == s.c.tail && z.prod.vs == s.prod.vs && z.enq == s.enq)
      && (s.prod.PPublish? && z.prod.PIdle? ==> z.enq == s.enq + s.prod.vs)
      && (Failing(z.prod) ==> Failing(s.prod) || (ev.Produce? && (!ev.ok || Refused(s, s.prod.vs))))
  {
    hide Inv, ProdStep, ConsStep, Ahead, Refused, Usable;
    assert s.enq + [] == s.enq;
    AheadSense(s);
    NextKeepsWf(s, ev);
    match ev
    case Produce(vs, ok, id) =>
      ProducerNearer(s, vs, ok, id);
      ProdDelivers(s, vs, ok, id);
    case Consume(t, max) =>
      if t < |s.readers| {
        ConsUsable(s, t, max);
        ConsNearer(s, t, max);
      }
  }

  lemma AheadSense<V>(s: State<V>)
    requires Inv(s)
    ensures s.Wf() && 0 <= Ahead(s) && (!s.prod.PIdle? ==> 0 < Ahead(s))
  {
    hide Inv, Ceil, Wrap, Usable;
    Pieces(s);
    if !s.prod.PIdle? {
      ProducerNearer(s, [], true, 0);
      hide Ahead;
    }
  }

  function ProducerSteps<V>(evs: seq<Event<V>>): nat {
    if evs == [] then 0 else (if evs[0].Produce? then 1 else 0) + ProducerSteps(evs[1..])
  }

  /** All memory asked for is there. */
  predicate AllOk<V>(evs: seq<Event<V>>) {
    forall k :: 0 <= k < |evs| && evs[k].Produce? ==> evs[k].ok
  }

  lemma RefusedLess<V>(s: State<V>, z: State<V>, vs: seq<V>)
    requires s.B > 0 && z.B == s.B && z.limit == s.limit && s.c.head <= z.c.head && z.c.tail == s.c.tail
    requires !Refused(s, vs)
    ensures !Refused(z, vs)
  {
    hide Ceil, Base;
  }

  /**
   * A bulk enqueue is wait-free: within a number of its own accesses fixed by the number of elements and of blocks to
   * start, and whatever consumers do between them, the producer is idle again. If all memory asked for is there and the
   * blocks to start are within the limit at first, it has published all its values.
   */
  lemma {:induction false} EnqueueEnds<V>(s: State<V>, evs: seq<Event<V>>, good: bool) returns (n: nat)
    requires Inv(s) && s.Wf() && Asking(s, evs) && !s.prod.PIdle? && Ahead(s) <= ProducerSteps(evs)
    requires good ==> AllOk(evs) && !Refused(s, s.prod.vs) && !Failing(s.prod)
    ensures n <= |evs| && Run(s, evs[..n]).prod.PIdle?
    ensures good ==> Run(s, evs[..n]).enq == s.enq + s.prod.vs
    decreases |evs|
  {
    hide Inv, Next, Ahead, Refused, Asks, Failing;
    AheadSense(s);
    var z := Next(s, evs[0]);
    EventNearer(s, evs[0]);
    NextKeepsInv(s, evs[0]);
    assert good && evs[0].Produce? ==> evs[0].ok;
    if z.prod.PIdle? {
      GiveFails(s.prod);
      n := 1;
      assert evs[..1][1..] == [] && evs[..1][0] == evs[0];
      assert Run(s, evs[..1]) == Run(z, []);
    } else {
      if good { RefusedLess(s, z, s.prod.vs); }
      var m := EnqueueEnds(z, evs[1..], good);
      n := m + 1;
      assert evs[..n][1..] == evs[1..][..m] && evs[..n][0] == evs[0];
    }
  }

  lemma GiveFails<V>(p: Prod<V>)
    ensures p.PGive? ==> Failing(p)
  {
  }

  /** `enqueue_bulk(vs)` from an idle producer, over every run: with memory and room its values are published next. */
  lemma EnqueueSucceeds<V>(B: nat, limit: Option<nat>, cap: nat, n: nat, evs: seq<Event<V>>, vs: seq<V>, id: nat,
      more: seq<Event<V>>) returns (m: nat)
    requires B > 0 && cap > 0 && Asking(Init<V>(B, limit, cap, n), evs)
    requires Reached(B, limit, cap, n, evs).prod.PIdle? && Reached(B, limit, cap, n, evs).Wf()
    requires !Refused(Reached(B, limit, cap, n, evs), vs)
    requires Asking(Next(Reached(B, limit, cap, n, evs), Produce(vs, true, id)), more) && AllOk(more)
    requires var s := Reached(B, limit, cap, n, evs);
      11 * Starts(s.B, s.c.tail, |vs|) + |vs| + 10 <= ProducerSteps(more)
    ensures m <= |more|
    ensures var s := Reached(B, limit, cap, n, evs);
      var z := Run(s, [Produce(vs, true, id)] + more[..m]);
      z.prod.PIdle? && z.enq == s.enq + vs
  {
    hide Inv, Reached, ProdStep, Refused, Asking, Ceil, Usable;
    var s := Reached(B, limit, cap, n, evs);
    ReachedInv(B, limit, cap, n, evs);
    var e: Event<V> := Produce(vs, true, id);
    NextKeepsInv(s, e);
    NextKeepsWf(s, e);
    BeginsAt(s, vs, true, id);
    var z := Next(s, e);
    RefusedLess(s, z, vs);
    m := EnqueueEnds(z, more, true);
    assert ([e] + more[..m])[1..] == more[..m];
  }

  lemma BeginsAt<V>(s: State<V>, vs: seq<V>, ok: bool, id: nat)
    requires s.Wf() && s.prod.PIdle?
    ensures ProdStep(s, vs, ok, id) == s.(prod := PNext(vs, []))
  {
  }

  // ---------------------------------------------------------------- failing

  lemma NextExcused<V>(s: State<V>, call: Option<seq<V>>, excused: bool, ev: Event<V>)
    requires Inv(s) && Asks(s, ev) && s.Wf() && Holds(s.prod, call) && (Failing(s.prod) ==> excused)
    ensures Failing(Next(s, ev).prod) ==> ExcusedAfter(s, call, excused, ev)
    ensures ev.Produce? && Next(s, ev).prod.PIdle? && Next(s, ev).c.tail == s.c.tail ==>
      CallAt(s, call, ev.vs).Some? && (CallAt(s, call, ev.vs).value == [] || ExcusedAfter(s, call, excused, ev))
  {
    hide Inv, ProdStep, ConsStep, Refused;
    match ev
    case Produce(vs, ok, id) =>
      ProdDelivers(s, vs, ok, id);
      if s.prod.PIdle? {
        BeginsAt(s, vs, ok, id);
      } else {
        ProducerNearer(s, vs, ok, id);
        hide Ahead;
      }
    case Consume(t, max) => if t < |s.readers| { ConsEnq(s, t, max); }
  }

  lemma {:induction false} RunExcused<V>(s: State<V>, call: Option<seq<V>>, excused: bool, evs: seq<Event<V>>)
    requires Inv(s) && s.Wf() && Asking(s, evs) && Holds(s.prod, call) && (Failing(s.prod) ==> excused)
    ensures Failing(Run(s, evs).prod) ==> ExcusedIn(s, call, excused, evs)
    ensures Holds(Run(s, evs).prod, CallIn(s, call, evs))
    decreases |evs|
  {
    hide Inv, Next, Asks, Failing, Holds, CallAfter, ExcusedAfter;
    if evs != [] {
      NextKeepsInv(s, evs[0]);
      NextKeepsWf(s, evs[0]);
      NextExcused(s, call, excused, evs[0]);
      NextAccepts(s, call, evs[0]);
      RunExcused(Next(s, evs[0]), CallAfter(s, call, evs[0]), ExcusedAfter(s, call, excused, evs[0]), evs[1..]);
    }
  }

  /**
   * Over every run, whatever place the producer is at: a call that ends without having published its values, of which
   * there are some, was refused at one of its accesses, for blocks past the limit, or asked for memory that was not
   * there.
   */
  lemma FailsOnlyIf<V>(B: nat, limit: Option<nat>, cap: nat, n: nat, evs: seq<Event<V>>, ev: Event<V>)
    requires B > 0 && cap > 0 && Asking(Init<V>(B, limit, cap, n), evs) && ev.Produce?
    ensures Init<V>(B, limit, cap, n).Wf() && Reached(B, limit, cap, n, evs).Wf()
    ensures var s := Reached(B, limit, cap, n, evs);
      var call := CallIn(Init<V>(B, limit, cap, n), None, evs);
      Next(s, ev).prod.PIdle? && Next(s, ev).c.tail == s.c.tail ==>
        && CallAt(s, call, ev.vs).Some?
        && (CallAt(s, call, ev.vs).value == []
            || ExcusedAfter(s, call, ExcusedIn(Init<V>(B, limit, cap, n), None, false, evs), ev))
  {
    hide Inv, Asking, Next, Run, ExcusedAfter, ExcusedIn, CallIn;
    InitInv<V>(B, limit, cap, n);
    ReachedInv(B, limit, cap, n, evs);
    var s := Reached(B, limit, cap, n, evs);
    Pieces(s);
    RunExcused(Init<V>(B, limit, cap, n), None, false, evs);
    NextExcused(s, CallIn(Init<V>(B, limit, cap, n), None, evs),
      ExcusedIn(Init<V>(B, limit, cap, n), None, false, evs), ev);
  }

  // ---------------------------------------------------------------- blocks are reused

  /** The pool hands out a free block whenever there is one. */
  ghost predicate Offering<V>(s: State<V>, evs: seq<Event<V>>)
    requires s.Wf()
    decreases |evs|
  {
    evs == [] ||
    (&& (evs[0].Produce? && s.free != {} ==> evs[0].id in s.free)
     && Next(s, evs[0]).Wf() && Offering(Next(s, evs[0]), evs[1..]))
  }

  /** The most blocks in the producer's hands at any time. */
  function PeakUse<V>(s: State<V>, evs: seq<Event<V>>): int
    requires s.Wf()
    decreases |evs|
  {
    var here := |s.blocks| - |s.free|;
    if evs == [] then here
    else
      assert Next(s, evs[0]).Wf() by { NextKeepsWf(s, evs[0]); }
      var later := PeakUse(Next(s, evs[0]), evs[1..]);
      if here < later then later else here
  }

  /** A new block is made only if none is free. */
  lemma NextReuses<V>(s: State<V>, ev: Event<V>)
    requires Inv(s) && s.Wf() && (ev.Produce? && s.free != {} ==> ev.id in s.free)
    ensures var z := Next(s, ev);
      |z.blocks| == |s.blocks| || (s.free == {} && z.free == {} && |z.blocks| == |s.blocks| + 1)
  {
    hide Inv, ProdStep, ConsStep;
    FreeExist(s);
    match ev
    case Produce(v, ok, id) => ProdReuses(s, v, ok, id);
    case Consume(t, max) => if t < |s.readers| { ConsBlocks(s, t, max); }
  }

  lemma ConsBlocks<V>(s: State<V>, t: nat, max: nat)
    requires s.Wf() && t < |s.readers|
    ensures |ConsStep(s, t, max).blocks| == |s.blocks|
  {
    hide C.Step, C.Release, Lookup, Base, BlockNo, Slot, Range, Wrap, MarkDone;
  }

  lemma FreeExist<V>(s: State<V>)
    requires Inv(s)
    ensures forall id :: id in s.free ==> id < |s.blocks|
  {
    hide Inv, C.Inv, Heads, Window, Live, Cells, Marks, Phases, Readers, ProdOk, Filling;
    Pieces(s);
  }

  lemma ProdReuses<V>(s: State<V>, v: seq<V>, ok: bool, id: nat)
    requires s.Wf() && (forall b :: b in s.free ==> b < |s.blocks|) && (s.free != {} ==> id in s.free)
    ensures var z := ProdStep(s, v, ok, id);
      |z.blocks| == |s.blocks| || (s.free == {} && z.free == {} && |z.blocks| == |s.blocks| + 1)
  {
    hide Full, Wrap, Slot, Doubled, Ceil, Base, OwnEntry, Target;
  }

  /** Blocks are reused before new ones are made: there are never more than were in use at one time. */
  lemma {:induction false} BlocksWithinPeak<V>(s: State<V>, evs: seq<Event<V>>)
    requires Inv(s) && s.Wf() && Asking(s, evs) && Offering(s, evs)
    ensures |Run(s, evs).blocks| <= |s.blocks| || |Run(s, evs).blocks| <= PeakUse(s, evs)
    decreases |evs|
  {
    hide Inv, Next, Asks;
    if evs != [] {
      NextKeepsInv(s, evs[0]);
      NextKeepsWf(s, evs[0]);
      NextReuses(s, evs[0]);
      BlocksWithinPeak(Next(s, evs[0]), evs[1..]);
      PeakStarts(Next(s, evs[0]), evs[1..]);
    }
  }

  lemma PeakStarts<V>(s: State<V>, evs: seq<Event<V>>)
    requires s.Wf()
    ensures |s.blocks| - |s.free| <= PeakUse(s, evs)
  {
  }

  // ---------------------------------------------------------------- the index grows only when it must

  /** Whether the producer's last access was made with the entry behind the index tail in use. */
  predicate FoundUsed<V>(s: State<V>, used: bool, evs: seq<Event<V>>)
    requires s.Wf()
    decreases |evs|
  {
    if evs == [] then used
    else
      assert Next(s, evs[0]).Wf() by { NextKeepsWf(s, evs[0]); }
      FoundUsed(Next(s, evs[0]), if evs[0].Produce? then !Usable(s) else used, evs[1..])
  }

  lemma NextFoundUsed<V>(s: State<V>, used: bool, ev: Event<V>)
    requires s.Wf() && (s.prod.PGrow? ==> used)
    ensures Next(s, ev).prod.PGrow? ==> if ev.Produce? then !Usable(s) else used
    ensures |Next(s, ev).headers| > |s.headers| ==> ev.Produce? && s.prod.PGrow?
  {
    hide Wrap, Full, Ceil, Base, Doubled, OwnEntry, ConsStep, FillStep;
    match ev
    case Produce(vs, ok, id) =>
      if s.prod.PBuild? || s.prod.PPublish? {
        FillKeepsHeaders(s);
      }
    case Consume(t, max) =>
      if t < |s.readers| {
        L.ConsKeeps(s, t, max);
        ConsFrees(s, t, max);
      }
  }

  lemma FillKeepsHeaders<V>(s: State<V>)
    requires s.Wf() && (s.prod.PBuild? || s.prod.PPublish?)
    ensures FillStep(s).headers == s.headers && !FillStep(s).prod.PGrow?
  {
    hide Ceil, Slot, Target;
  }

  lemma {:induction false} RunFoundUsed<V>(s: State<V>, used: bool, evs: seq<Event<V>>)
    requires s.Wf() && (s.prod.PGrow? ==> used)
    ensures Run(s, evs).Wf() && (Run(s, evs).prod.PGrow? ==> FoundUsed(s, used, evs))
    decreases |evs|
  {
    hide Next, Usable;
    if evs != [] {
      NextKeepsWf(s, evs[0]);
      NextFoundUsed(s, used, evs[0]);
      RunFoundUsed(Next(s, evs[0]), if evs[0].Produce? then !Usable(s) else used, evs[1..]);
    }
  }

  /**
   * Over every run the index grows, to twice its size, only when the producer, at its access before, found the entry
   * behind the index tail in use.
   */
  lemma GrowsOnlyIfUsed<V>(B: nat, limit: Option<nat>, cap: nat, n: nat, evs: seq<Event<V>>, ev: Event<V>)
    requires B > 0 && cap > 0
    ensures Init<V>(B, limit, cap, n).Wf() && Reached(B, limit, cap, n, evs).Wf()
    ensures var s, z := Reached(B, limit, cap, n, evs), Next(Reached(B, limit, cap, n, evs), ev);
      |z.headers| > |s.headers| ==>
        && FoundUsed(Init<V>(B, limit, cap, n), false, evs)
        && z.Wf() && z.headers[z.Cur()].cap == 2 * s.headers[s.Cur()].cap
  {
    hide Run, FoundUsed, FillStep, Ceil, Base, Full, OwnEntry, ConsStep, Wrap, SlotOf;
    InitInv<V>(B, limit, cap, n);
    RunFoundUsed(Init<V>(B, limit, cap, n), false, evs);
    var s := Reached(B, limit, cap, n, evs);
    NextKeepsWf(s, ev);
    NextFoundUsed(s, FoundUsed(Init<V>(B, limit, cap, n), false, evs), ev);
  }
}
