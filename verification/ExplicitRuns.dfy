/** What holds of an explicit producer and its consumers over every run, under any interleaving. */
module ExplicitRuns {
  import opened Common
  import opened Blocks
  import C = DequeueCounters
  import opened Claims
  import opened Deliveries
  import opened ExplicitQueue
  import opened ExplicitInvariant
  import opened ExplicitSteps
  import opened ExplicitReads

  /** One step: of the producer (with what the environment answers it), or of consumer `t`. */
  datatype Event<V> = Produce(v: V, ok: bool, id: nat) | Consume(t: nat, max: nat)

  function Next<V>(s: State<V>, ev: Event<V>): State<V>
    requires s.Wf()
  {
    match ev
    case Produce(v, ok, id) => ProdStep(s, v, ok, id)
    case Consume(t, max) => if t < |s.readers| then ConsStep(s, t, max) else s
  }

  lemma BlockKeepsWf<V>(s: State<V>, ok: bool, id: nat)
    requires s.Wf() && (s.prod.ENext? || s.prod.EReset? || s.prod.EHead? || s.prod.EGrow? || s.prod.ETake?)
    ensures BlockStep(s, ok, id).Wf() && BlockStep(s, ok, id).readers == s.readers
    ensures BlockStep(s, ok, id).out == s.out && BlockStep(s, ok, id).enq == s.enq && BlockStep(s, ok, id).c == s.c
    ensures BlockStep(s, ok, id).prod.EIdle? || BlockStep(s, ok, id).prod.v == s.prod.v
  {
    hide Full, Linked, Wrap;
  }

  lemma ProdKeepsWf<V>(s: State<V>, v: V, ok: bool, id: nat)
    requires s.Wf()
    ensures var z := ProdStep(s, v, ok, id);
      && z.Wf() && z.readers == s.readers && z.out == s.out && z.c.head == s.c.head
      && z.enq == s.enq + (if s.prod.EPublish? then [s.prod.v] else [])
      && z.c.tail == s.c.tail + (if s.prod.EPublish? then 1 else 0) && (s.prod.EPublish? ==> z.prod.EIdle?)
      && (z.prod.EIdle? || z.prod.v == if s.prod.EIdle? then v else s.prod.v)
  {
    hide BlockStep, Wrap, Slot;
    assert s.enq + [] == s.enq;
    if s.prod.ENext? || s.prod.EReset? || s.prod.EHead? || s.prod.EGrow? || s.prod.ETake? {
      BlockKeepsWf(s, ok, id);
    }
  }

  lemma ConsKeepsWf<V>(s: State<V>, t: nat, max: nat)
    requires s.Wf() && t < |s.readers|
    ensures ConsStep(s, t, max).Wf() && ConsStep(s, t, max).enq == s.enq && |ConsStep(s, t, max).readers| == |s.readers|
    ensures ConsStep(s, t, max).prod == s.prod && ConsStep(s, t, max).c.tail == s.c.tail
  {
    hide Wrap, Ceil, Base, BlockNo, Slot, Lookup, C.Decide, C.Repeat, Range;
  }

  lemma NextKeepsWf<V>(s: State<V>, ev: Event<V>)
    requires s.Wf()
    ensures Next(s, ev).Wf()
  {
    hide ProdStep, ConsStep;
    match ev
    case Produce(v, ok, id) => ProdKeepsWf(s, v, ok, id);
    case Consume(t, max) => if t < |s.readers| { ConsKeepsWf(s, t, max); }
  }

  function Run<V>(s: State<V>, evs: seq<Event<V>>): State<V>
    requires s.Wf()
    decreases |evs|
  {
    if evs == [] then s
    else
      assert Next(s, evs[0]).Wf() by { NextKeepsWf(s, evs[0]); }
      Run(Next(s, evs[0]), evs[1..])
  }

  lemma NextKeepsInv<V>(s: State<V>, ev: Event<V>)
    requires Inv(s)
    ensures s.Wf() && Inv(Next(s, ev))
  {
    hide Inv, ProdStep, ConsStep;
    Pieces(s);
    match ev
    case Produce(v, ok, id) => ProdStepKeepsInv(s, v, ok, id);
    case Consume(t, max) => if t < |s.readers| { ConsStepKeepsInv(s, t, max); }
  }

  lemma {:induction false} RunKeepsInv<V>(s: State<V>, evs: seq<Event<V>>)
    requires Inv(s)
    ensures s.Wf() && Inv(Run(s, evs))
    decreases |evs|
  {
    hide Inv, Next;
    Pieces(s);
    if evs != [] {
      NextKeepsInv(s, evs[0]);
      RunKeepsInv(Next(s, evs[0]), evs[1..]);
    }
  }

  lemma InitInv<V>(B: nat, limit: Option<nat>, size: nat, pool: nat, n: nat)
    requires B > 0 && size > 0
    ensures Inv(Init<V>(B, limit, size, pool, n))
  {
    C.InitInv(n);
    WrapIs(size, 0, 0, 0);
    PartBlock(B, 0);
    QuotientIs(B, 0, 0, 0);
    hide C.Inv;
  }

  function Reached<V>(B: nat, limit: Option<nat>, size: nat, pool: nat, n: nat, evs: seq<Event<V>>): State<V>
    requires B > 0 && size > 0
  {
    assert Init<V>(B, limit, size, pool, n).Wf() by { InitInv<V>(B, limit, size, pool, n); }
    Run(Init<V>(B, limit, size, pool, n), evs)
  }

  lemma ReachedInv<V>(B: nat, limit: Option<nat>, size: nat, pool: nat, n: nat, evs: seq<Event<V>>)
    requires B > 0 && size > 0
    ensures Init<V>(B, limit, size, pool, n).Wf() && Inv(Reached(B, limit, size, pool, n, evs))
  {
    hide Inv, Init, Run;
    InitInv<V>(B, limit, size, pool, n);
    Pieces(Init<V>(B, limit, size, pool, n));
    RunKeepsInv(Init<V>(B, limit, size, pool, n), evs);
  }

  // ---------------------------------------------------------------- first in, first out

  /** What a step hands to a consumer, as read from the block. */
  function Yield<V>(s: State<V>, ev: Event<V>): seq<Delivery<V>>
    requires s.Wf()
  {
    if ev.Consume? && ev.t < |s.readers| && Taking(s, ev.t) then
      var r := s.readers[ev.t];
      var o := Slot(s.B, r.i);
      if r.b < |s.blocks| && o < |s.blocks[r.b].cells| && s.blocks[r.b].cells[o].Some? then
        [Delivery(ev.t, r.i, s.blocks[r.b].cells[o].value)]
      else []
    else []
  }

  function Yields<V>(s: State<V>, evs: seq<Event<V>>): seq<Delivery<V>>
    requires s.Wf()
    decreases |evs|
  {
    if evs == [] then []
    else
      assert Next(s, evs[0]).Wf() by { NextKeepsWf(s, evs[0]); }
      Yield(s, evs[0]) + Yields(Next(s, evs[0]), evs[1..])
  }

  /** What a step adds to the record of values enqueued. */
  function Gain<V>(s: State<V>, ev: Event<V>): seq<V> {
    if ev.Produce? && s.prod.EPublish? then [s.prod.v] else []
  }

  /** The call a step of the producer belongs to: the one it begins, or the one it is in. */
  function CallAt<V>(s: State<V>, call: Option<V>, v: V): Option<V> {
    if s.prod.EIdle? then Some(v) else call
  }

  /** A call is over when the producer is idle again, or has moved the tail. */
  function CallAfter<V>(s: State<V>, call: Option<V>, ev: Event<V>): Option<V>
    requires s.Wf()
  {
    if ev.Consume? then call
    else if Next(s, ev).prod.EIdle? || Next(s, ev).c.tail != s.c.tail then None
    else CallAt(s, call, ev.v)
  }

  /** The value of the call under way after a run, from the events alone. */
  function CallIn<V>(s: State<V>, call: Option<V>, evs: seq<Event<V>>): Option<V>
    requires s.Wf()
    decreases |evs|
  {
    if evs == [] then call
    else
      assert Next(s, evs[0]).Wf() by { NextKeepsWf(s, evs[0]); }
      CallIn(Next(s, evs[0]), CallAfter(s, call, evs[0]), evs[1..])
  }

  /** What the call publishes that a step belongs to: its value if the step moves the tail. */
  function Accept<V>(s: State<V>, call: Option<V>, ev: Event<V>): seq<V>
    requires s.Wf()
  {
    if ev.Produce? && Next(s, ev).c.tail != s.c.tail && CallAt(s, call, ev.v).Some? then [CallAt(s, call, ev.v).value]
    else []
  }

  /** The values the calls of a run were given that moved the tail, in call order. */
  function Accepted<V>(s: State<V>, call: Option<V>, evs: seq<Event<V>>): seq<V>
    requires s.Wf()
    decreases |evs|
  {
    if evs == [] then []
    else
      assert Next(s, evs[0]).Wf() by { NextKeepsWf(s, evs[0]); }
      Accept(s, call, evs[0]) + Accepted(Next(s, evs[0]), CallAfter(s, call, evs[0]), evs[1..])
  }

  /** The producer's place holds what its call was given. */
  ghost predicate Holds<V>(p: Prod<V>, call: Option<V>) {
    if p.EIdle? then call.None? else call == Some(p.v)
  }

  /** No index below this is delivered to consumer `t` any more. */
  function Place<V>(s: State<V>, t: nat): nat
    requires t < |s.readers|
  {
    match s.readers[t]
    case NotReading => s.c.head
    case LoadIndex(i, _) => i
    case LoadFront(i, _, _) => i
    case LoadBase(i, _, _, _) => i
    case LoadBlock(i, _, _, _) => i
    case Take(_, i, _, _, _, _) => i
  }

  function Places<V>(s: State<V>): (p: seq<nat>)
    ensures |p| == |s.readers|
    ensures forall t :: 0 <= t < |p| ==> p[t] == Place(s, t)
  {
    seq(|s.readers|, t requires 0 <= t < |s.readers| => Place(s, t))
  }

  lemma YieldTaking<V>(s: State<V>, t: nat, max: nat)
    requires s.Wf() && t < |s.readers| && Taking(s, t) && Inv(s)
    ensures s.readers[t].i !in s.out && s.readers[t].i < |s.enq| && Place(s, t) == s.readers[t].i
    ensures Yield(s, Consume(t, max)) == [Delivery(t, s.readers[t].i, s.enq[s.readers[t].i])]
  {
    hide Inv, Base, BlockNo, Slot, Filled;
    TakeReads(s, t);
  }

  lemma TakeTaking<V>(s: State<V>, t: nat, max: nat)
    requires s.Wf() && t < |s.readers| && Taking(s, t) && Inv(s)
    ensures s.readers[t].i < |s.enq| && ConsStep(s, t, max).out == s.out[s.readers[t].i := s.enq[s.readers[t].i]]
  {
    hide Inv, Base, BlockNo, TakeStep;
    TakeOne(s, t);
  }

  lemma TakesNothing<V>(s: State<V>, t: nat, max: nat)
    requires s.Wf() && t < |s.readers| && !Taking(s, t)
    ensures ConsStep(s, t, max).out == s.out && Yield(s, Consume(t, max)) == []
  {
    hide C.Step, Lookup, Base, BlockNo, Slot, Range;
  }

  lemma StepDelivers<V>(s: State<V>, ev: Event<V>)
    requires Inv(s)
    ensures s.Wf()
    ensures var z, y := Next(s, ev), Yield(s, ev);
      && |z.readers| == |s.readers|
      && z.enq == s.enq + Gain(s, ev)
      && (y == [] ==> z.out == s.out)
      && (y != [] ==>
            && |y| == 1 && ev.Consume? && y[0].t == ev.t < |s.readers| && y[0].i == Place(s, ev.t) && y[0].i !in s.out
            && y[0].i < |s.enq| && y[0].v == s.enq[y[0].i] && z.out == s.out[y[0].i := y[0].v])
  {
    hide Inv, ProdStep, ConsStep, Taking, Place;
    Pieces(s);
    match ev
    case Produce(v, ok, id) => ProdKeepsWf(s, v, ok, id);
    case Consume(t, max) =>
      assert s.enq + [] == s.enq;
      if t < |s.readers| {
        ConsKeepsWf(s, t, max);
        if Taking(s, t) {
          YieldTaking(s, t, max);
          TakeTaking(s, t, max);
        } else {
          TakesNothing(s, t, max);
        }
        hide Yield;
      }
  }

  lemma ConsFrame<V>(s: State<V>, j: nat, max: nat)
    requires s.Wf() && j < |s.readers| && |s.c.owner| == s.c.head
    ensures var z := ConsStep(s, j, max);
      |z.readers| == |s.readers| && s.c.head <= z.c.head && forall t :: 0 <= t < |s.readers| && t != j ==>
        z.readers[t] == s.readers[t]
  {
    hide C.Step, Lookup, Base, BlockNo, Slot, Range, Wrap;
    CounterFrame(s.c, j, max);
  }

  lemma PlaceStep<V>(s: State<V>, t: nat, max: nat)
    requires s.Wf() && t < |s.readers| && |s.c.owner| == s.c.head
    requires s.readers[t].NotReading? ==> !s.c.threads[t].Claimed?
    requires s.readers[t].Take? ==> s.readers[t].e <= s.c.head
    requires s.readers[t].Take? && !EmptyHanded(s.readers[t]) ==> s.readers[t].hd < |s.indices|
    ensures var z := ConsStep(s, t, max);
      t < |z.readers| && Place(s, t) <= Place(z, t) && (Yield(s, Consume(t, max)) != [] ==> Place(s, t) < Place(z, t))
  {
    hide C.Step, Lookup, Base, BlockNo, Slot, Range, Wrap;
    CounterFrame(s.c, t, max);
  }

  lemma PlaceReady<V>(s: State<V>, t: nat)
    requires Inv(s) && t < |s.readers|
    ensures s.Wf() && |s.c.owner| == s.c.head && Place(s, t) <= s.c.head
    ensures s.readers[t].NotReading? ==> !s.c.threads[t].Claimed?
    ensures s.readers[t].Take? ==> s.readers[t].e <= s.c.head
    ensures s.readers[t].Take? && !EmptyHanded(s.readers[t]) ==> s.readers[t].hd < |s.indices|
  {
    hide Inv, C.Inv, Lists, RingOk, Owns, Filled, Marks, ProdOk, Taken, Fin, Readers, Base, BlockNo, Slot, Ceil,
         Reaches, Pos, Vis;
    Pieces(s);
    ReaderIs(s, t);
    ClaimUnderHead(s.c, t);
    if s.readers[t].Take? && !EmptyHanded(s.readers[t]) {
      TakeReady(s, t);
    }
  }

  lemma PlaceGrows<V>(s: State<V>, ev: Event<V>, t: nat)
    requires Inv(s) && t < |s.readers| && s.Wf() && |Next(s, ev).readers| == |s.readers|
    ensures Place(s, t) <= Place(Next(s, ev), t)
    ensures Yield(s, ev) != [] && ev.t == t ==> Place(s, t) < Place(Next(s, ev), t)
  {
    hide Inv, C.Inv, ProdStep, ConsStep, Taking;
    PlaceReady(s, t);
    match ev
    case Produce(v, ok, id) => ProdKeepsWf(s, v, ok, id);
    case Consume(j, max) =>
      if j == t {
        PlaceStep(s, t, max);
      } else if j < |s.readers| {
        ConsFrame(s, j, max);
      }
  }

  lemma PlacesGrow<V>(s: State<V>, ev: Event<V>)
    requires Inv(s) && s.Wf() && |Next(s, ev).readers| == |s.readers|
    ensures forall t :: 0 <= t < |s.readers| ==> Places(s)[t] <= Places(Next(s, ev))[t]
    ensures Yield(s, ev) != [] && ev.t < |s.readers| ==> Places(s)[ev.t] < Places(Next(s, ev))[ev.t]
  {
    hide Inv, Next, Place, Places, Taking;
    forall t: nat | t < |s.readers|
      ensures Places(s)[t] <= Places(Next(s, ev))[t]
      ensures Yield(s, ev) != [] && ev.t == t ==> Places(s)[t] < Places(Next(s, ev))[t]
    {
      PlaceGrows(s, ev, t);
    }
  }

  lemma StepInOrder<V>(s: State<V>, ev: Event<V>, zenq: seq<V>, zout: map<nat, V>, ys: seq<Delivery<V>>)
    requires Inv(s) && s.Wf() && Inv(Next(s, ev)) && Next(s, ev).enq <= zenq
    requires InOrder(Places(Next(s, ev)), Next(s, ev).out, zenq, zout, ys)
    ensures InOrder(Places(s), s.out, zenq, zout, Yield(s, ev) + ys)
  {
    hide Inv, Next, Yield, Place, InOrder, Places;
    var n := Next(s, ev);
    StepDelivers(s, ev);
    PlacesGrow(s, ev);
    if Yield(s, ev) == [] {
      assert [] + ys == ys;
      PlacesLower(Places(s), Places(n), n.out, zenq, zout, ys);
    } else {
      PlaceAt(s, ev.t);
      var y := Yield(s, ev)[0];
      DeliverOne(Places(s), Places(n), s.out, n.out, s.enq, zenq, zout, y, ys);
      assert Yield(s, ev) == [y];
    }
  }

  lemma PlaceAt<V>(s: State<V>, t: nat)
    requires t < |s.readers|
    ensures Places(s)[t] == Place(s, t)
  {
  }

  lemma NextAccepts<V>(s: State<V>, call: Option<V>, ev: Event<V>)
    requires s.Wf() && Holds(s.prod, call)
    ensures Holds(Next(s, ev).prod, CallAfter(s, call, ev)) && Next(s, ev).enq == s.enq + Accept(s, call, ev)
  {
    hide ProdStep, ConsStep;
    assert s.enq + [] == s.enq;
    match ev
    case Produce(v, ok, id) => ProdKeepsWf(s, v, ok, id);
    case Consume(t, max) => if t < |s.readers| { ConsKeepsWf(s, t, max); }
  }

  /**
   * The record of values enqueued gains exactly the values of the calls that moved the tail, each once and in call
   * order: what `enqueue` is given is what it publishes.
   */
  lemma {:induction false} RunAccepts<V>(s: State<V>, call: Option<V>, evs: seq<Event<V>>)
    requires s.Wf() && Holds(s.prod, call)
    ensures Run(s, evs).enq == s.enq + Accepted(s, call, evs)
    ensures Holds(Run(s, evs).prod, CallIn(s, call, evs))
    decreases |evs|
  {
    hide Next, Accept, CallAfter, Holds;
    if evs == [] {
      assert s.enq + [] == s.enq;
    } else {
      var n, c := Next(s, evs[0]), CallAfter(s, call, evs[0]);
      NextKeepsWf(s, evs[0]);
      NextAccepts(s, call, evs[0]);
      RunAccepts(n, c, evs[1..]);
      assert (s.enq + Accept(s, call, evs[0])) + Accepted(n, c, evs[1..])
          == s.enq + (Accept(s, call, evs[0]) + Accepted(n, c, evs[1..]));
    }
  }

  lemma {:induction false} EnqGrows<V>(s: State<V>, evs: seq<Event<V>>)
    requires s.Wf()
    ensures s.enq <= Run(s, evs).enq
    decreases |evs|
  {
    hide Next;
    if evs != [] {
      NextKeepsWf(s, evs[0]);
      NextGains(s, evs[0]);
      EnqGrows(Next(s, evs[0]), evs[1..]);
    }
  }

  lemma NextGains<V>(s: State<V>, ev: Event<V>)
    requires s.Wf()
    ensures s.enq <= Next(s, ev).enq
  {
    hide ProdStep, ConsStep;
    match ev
    case Produce(v, ok, id) => ProdKeepsWf(s, v, ok, id);
    case Consume(t, max) => if t < |s.readers| { ConsKeepsWf(s, t, max); }
  }

  lemma {:induction false} RunDelivers<V>(s: State<V>, evs: seq<Event<V>>)
    requires Inv(s)
    ensures s.Wf() && InOrder(Places(s), s.out, Run(s, evs).enq, Run(s, evs).out, Yields(s, evs))
    decreases |evs|
  {
    hide Inv, Next, Yield, Place, InOrder, Places, Accepted;
    Pieces(s);
    if evs == [] {
      NoneDelivered(Places(s), s.out, s.enq);
    } else {
      NextKeepsInv(s, evs[0]);
      var n, rest := Next(s, evs[0]), evs[1..];
      NextKeepsWf(s, evs[0]);
      RunDelivers(n, rest);
      EnqGrows(n, rest);
      StepInOrder(s, evs[0], Run(n, rest).enq, Run(n, rest).out, Yields(n, rest));
    }
  }

  /**
   * The sub-queue is a FIFO: whatever the interleaving, what consumers are handed at index `i` is element number `i` of
   * those the enqueues that succeeded were given, no index is handed out twice, and each consumer gets its elements in
   * the order they were enqueued.
   */
  lemma Fifo<V>(B: nat, limit: Option<nat>, size: nat, pool: nat, n: nat, evs: seq<Event<V>>)
    requires B > 0 && size > 0
    ensures Init<V>(B, limit, size, pool, n).Wf()
    ensures var s := Init<V>(B, limit, size, pool, n);
      var enq, ys := Accepted(s, None, evs), Yields(s, evs);
      && (forall a :: 0 <= a < |ys| ==> ys[a].i < |enq| && ys[a].v == enq[ys[a].i])
      && (forall a, b :: 0 <= a < b < |ys| ==> ys[a].i != ys[b].i && (ys[a].t == ys[b].t ==> ys[a].i < ys[b].i))
  {
    hide Inv, Yields, Accepted, Run, Places;
    var s := Init<V>(B, limit, size, pool, n);
    InitInv<V>(B, limit, size, pool, n);
    RunDelivers(s, evs);
    RunAccepts(s, None, evs);
    assert [] + Accepted(s, None, evs) == Accepted(s, None, evs);
  }

  // ---------------------------------------------------------------- the ring and the index

  /**
   * Whenever the producer is not in the middle of starting a block, the last `used` slots of the published index before
   * its front slot list the blocks of the ring, oldest first, with consecutive bases; and the ring is linked in that
   * order, the tail block last and leading back to the oldest.
   */
  lemma RingAndIndexAgree<V>(B: nat, limit: Option<nat>, size: nat, pool: nat, n: nat, evs: seq<Event<V>>, i: nat)
    requires B > 0 && size > 0 && Settled(Reached(B, limit, size, pool, n, evs).prod)
    requires i < Reached(B, limit, size, pool, n, evs).used
    ensures var s := Reached(B, limit, size, pool, n, evs);
      && s.Wf() && |s.ring| == s.used <= |s.blockOf| && s.ring[i] < |s.blocks|
      && (var g := s.indices[s.Cur()];
          g.entries[Wrap(g.size, s.prFront - s.used + i)]
            == Entry(Base(s.B, |s.blockOf| - s.used + i), Some(s.ring[i])))
      && s.blocks[s.ring[i]].next == s.ring[if i + 1 < s.used then i + 1 else 0]
      && s.tailBlock == Some(s.ring[s.used - 1])
  {
    hide Inv, Reached, C.Inv, Lists, RingOk, Owns, Filled, Marks, ProdOk, Taken, Readers, Base, Wrap;
    ReachedInv(B, limit, size, pool, n, evs);
    var s := Reached(B, limit, size, pool, n, evs);
    Pieces(s);
    RingAt(s.blocks, s.ring, s.tailBlock, s.used, s.blockOf, i);
    ListedAt(s.B, s.indices[s.Cur()], s.prFront, s.used, s.blockOf, i);
  }

  lemma RingAt<V>(blocks: seq<Block<V>>, ring: seq<nat>, tailBlock: Option<nat>, used: nat, blockOf: seq<nat>, i: nat)
    requires RingOk(blocks, ring, tailBlock, used, blockOf) && i < used
    ensures |ring| == used <= |blockOf| && ring[i] < |blocks| && ring[i] == blockOf[|blockOf| - used + i]
    ensures blocks[ring[i]].next == ring[if i + 1 < used then i + 1 else 0] && tailBlock == Some(ring[used - 1])
  {
  }

  lemma ListedAt(B: nat, g: Index, prFront: nat, used: nat, blockOf: seq<nat>, i: nat)
    requires Lists(B, g, prFront, used, blockOf, |blockOf|, |blockOf|) && i < used
    ensures var k := |blockOf| - used + i;
      0 <= k && g.size > 0 && |g.entries| == g.size
      && g.entries[Wrap(g.size, prFront - used + i)] == Entry(Base(B, k), Some(blockOf[k]))
  {
    hide Wrap, Base, Entered;
    WrapAdd(g.size, |blockOf| + g.off, i - used);
    ListedIs(B, g, prFront, used, blockOf, |blockOf|, |blockOf|, |blockOf| - used + i);
  }

  lemma ListedIs(B: nat, g: Index, prFront: nat, used: nat, blockOf: seq<nat>, written: nat, fronted: nat, k: nat)
    requires Lists(B, g, prFront, used, blockOf, written, fronted) && |blockOf| - used <= k < written
    ensures g.size > 0 && |g.entries| == g.size && prFront == Pos(g, fronted) && k < |blockOf|
    ensures g.entries[Pos(g, k)] == Entry(Base(B, k), Some(blockOf[k]))
  {
    ListedEntry(B, g, prFront, used, blockOf, written, fronted, k);
  }

  /**
   * A consumer's lookup is right, whatever blocks the producer reused and however the index grew meanwhile: the entry
   * it is about to read lists its index's block, at the base of that block, and the block holds the element.
   */
  lemma LookupIsRight<V>(B: nat, limit: Option<nat>, size: nat, pool: nat, n: nat, evs: seq<Event<V>>, t: nat)
    requires B > 0 && size > 0
    requires t < |Reached(B, limit, size, pool, n, evs).readers|
    requires var r := Reached(B, limit, size, pool, n, evs).readers[t]; r.LoadBlock? && r.i < r.e
    ensures var s := Reached(B, limit, size, pool, n, evs);
      var r := s.readers[t];
      && s.Wf() && r.hd < |s.indices| && r.idx < |s.indices[r.hd].entries| && BlockNo(s.B, r.i) < |s.blockOf|
      && s.indices[r.hd].entries[r.idx] == Entry(Base(s.B, BlockNo(s.B, r.i)), Some(s.blockOf[BlockNo(s.B, r.i)]))
      && r.i < |s.enq| && (var b := s.blockOf[BlockNo(s.B, r.i)];
                           b < |s.blocks| && Slot(s.B, r.i) < |s.blocks[b].cells|
                           && s.blocks[b].cells[Slot(s.B, r.i)] == Some(s.enq[r.i]))
  {
    hide Inv, Reached, C.Inv, Lists, RingOk, Owns, Filled, Marks, ProdOk, Taken, Readers, Base, BlockNo, Slot, Claim,
         Reaches, Fin, Ceil;
    ReachedInv(B, limit, size, pool, n, evs);
    var s := Reached(B, limit, size, pool, n, evs);
    Pieces(s);
    ReaderIs(s, t);
    var r := s.readers[t];
    ReachesAt(s, r.hd, r.i, r.e, r.i);
    ClaimInRing(s, t, r.i, r.i, r.e, r.i);
    NothingOut(s, t, r.i, r.e);
    RingApart(s);
    FilledTake(s.B, s.blocks, s.used, s.blockOf, s.doneIn, s.c.tail, s.enq, s.out, s.prod, r.i);
  }

  lemma NothingOut<V>(s: State<V>, t: nat, i: nat, e: nat)
    requires s.B > 0 && Claim(s, t, i, i, e) && i < e
    ensures i !in s.out
  {
    hide Fin;
  }

  /**
   * No entry a consumer still needs is overwritten: for every claimed index not yet taken, the entry of its block in
   * the index the consumer holds is the same after the producer's next step.
   */
  lemma NeededEntriesStay<V>(B: nat, limit: Option<nat>, size: nat, pool: nat, n: nat, evs: seq<Event<V>>, t: nat,
      x: nat, v: V, ok: bool, id: nat)
    requires B > 0 && size > 0
    requires t < |Reached(B, limit, size, pool, n, evs).readers|
    requires var r := Reached(B, limit, size, pool, n, evs).readers[t];
      (r.LoadFront? || r.LoadBase? || r.LoadBlock?) && r.i <= x < r.e
    ensures var s := Reached(B, limit, size, pool, n, evs);
      var r := s.readers[t];
      && s.Wf() && r.hd < |s.indices| && s.indices[r.hd].size > 0
      && (var z, p := ProdStep(s, v, ok, id), Pos(s.indices[r.hd], BlockNo(s.B, x));
          && r.hd < |z.indices| && p < |z.indices[r.hd].entries| && p < |s.indices[r.hd].entries|
          && z.indices[r.hd].entries[p] == s.indices[r.hd].entries[p])
  {
    hide Inv, Reached, C.Inv, Lists, RingOk, Owns, Filled, Marks, ProdOk, Taken, Readers, Base, BlockNo, Slot, Claim,
         Reaches, Fin, Ceil, ProdStep, Wrap;
    ReachedInv(B, limit, size, pool, n, evs);
    var s := Reached(B, limit, size, pool, n, evs);
    Pieces(s);
    ProdStepKeepsInv(s, v, ok, id);
    ProdKeepsWf(s, v, ok, id);
    var z := ProdStep(s, v, ok, id);
    ReaderIs(s, t);
    ReaderIs(z, t);
    var r := s.readers[t];
    ReachesAt(s, r.hd, r.i, r.e, x);
    ReachesAt(z, r.hd, r.i, r.e, x);
    ProdGrowsOnly(s, v, ok, id);
  }

  lemma ProdGrowsOnly<V>(s: State<V>, v: V, ok: bool, id: nat)
    requires s.Wf()
    ensures var z := ProdStep(s, v, ok, id);
      && z.B == s.B && s.blockOf <= z.blockOf && |s.indices| <= |z.indices|
      && forall g :: 0 <= g < |s.indices| ==>
           z.indices[g].size == s.indices[g].size && z.indices[g].off == s.indices[g].off
  {
    hide Full, Linked, Wrap, Slot;
    if s.prod.ENext? || s.prod.EReset? || s.prod.EHead? || s.prod.EGrow? || s.prod.ETake? {
      BlockGrowsOnly(s, ok, id);
      hide BlockStep;
    }
  }

  lemma BlockGrowsOnly<V>(s: State<V>, ok: bool, id: nat)
    requires s.Wf() && (s.prod.ENext? || s.prod.EReset? || s.prod.EHead? || s.prod.EGrow? || s.prod.ETake?)
    ensures var z := BlockStep(s, ok, id);
      && z.B == s.B && s.blockOf <= z.blockOf && |s.indices| <= |z.indices|
      && forall g :: 0 <= g < |s.indices| ==>
           z.indices[g].size == s.indices[g].size && z.indices[g].off == s.indices[g].off
  {
    hide Full, Linked, Wrap, Slot;
  }

  // ---------------------------------------------------------------- blocks and what remains

  /** Every block is in the pool, or in the ring exactly once. */
  lemma OneOwner<V>(B: nat, limit: Option<nat>, size: nat, pool: nat, n: nat, evs: seq<Event<V>>, b: nat)
    requires B > 0 && size > 0 && b < |Reached(B, limit, size, pool, n, evs).blocks|
    ensures var s := Reached(B, limit, size, pool, n, evs);
      && (b in s.free <==> b !in s.ring)
      && forall i, j :: 0 <= i < j < |s.ring| && s.ring[i] == b ==> s.ring[j] != b
  {
    hide Inv, Reached, C.Inv, Lists, Filled, Marks, ProdOk, Taken, Readers;
    ReachedInv(B, limit, size, pool, n, evs);
    Pieces(Reached(B, limit, size, pool, n, evs));
  }

  /** Element `x` is in the block listed for it. */
  ghost predicate Placed<V>(s: State<V>, x: nat)
    requires s.Wf() && x < |s.enq|
  {
    var k, o := BlockNo(s.B, x), Slot(s.B, x);
    && k < |s.blockOf| && Entered(s.B, s.indices[s.Cur()], s.blockOf, k) && s.blockOf[k] in s.ring
    && s.blockOf[k] < |s.blocks| && o < |s.blocks[s.blockOf[k]].cells|
         && s.blocks[s.blockOf[k]].cells[o] == Some(s.enq[x])
  }

  ghost predicate Quiet<V>(s: State<V>) {
    && s.prod.EIdle? && (forall t :: 0 <= t < |s.readers| ==> s.readers[t].NotReading?)
    && forall t :: 0 <= t < |s.c.threads| ==> s.c.threads[t].Idle?
  }

  lemma UntakenIsPlaced<V>(s: State<V>, x: nat)
    requires Inv(s) && s.prod.EIdle? && x < s.c.tail && x !in s.out
    ensures s.Wf() && x < |s.enq| && Placed(s, x)
  {
    hide Inv, C.Inv, Lists, RingOk, Owns, Filled, Marks, Taken, Readers, Base, BlockNo, Slot, Ceil, Entered;
    Pieces(s);
    CeilSplits(s.B, s.c.tail, x);
    UntakenInRing(s.B, s.used, s.doneIn, s.out, s.enq, s.c.head, x);
    UntakenIsFilled(s, x);
    ListedEntry(s.B, s.indices[s.Cur()], s.prFront, s.used, s.blockOf, |s.blockOf|, |s.blockOf|, BlockNo(s.B, x));
  }

  lemma UntakenIsFilled<V>(s: State<V>, x: nat)
    requires Inv(s) && s.Wf() && x < s.c.tail && x !in s.out && x < |s.enq|
    requires |s.blockOf| - s.used <= BlockNo(s.B, x) < |s.blockOf|
    ensures var b := s.blockOf[BlockNo(s.B, x)];
      && b in s.ring && b < |s.blocks| && Slot(s.B, x) < |s.blocks[b].cells|
           && s.blocks[b].cells[Slot(s.B, x)] == Some(s.enq[x])
  {
    hide Inv, C.Inv, Lists, Owns, Filled, Marks, Taken, Readers, Base, BlockNo, Slot, Ceil, Order, Links, ProdOk;
    Pieces(s);
    OrderIn(s.ring, s.blockOf);
    FilledTake(s.B, s.blocks, s.used, s.blockOf, s.doneIn, s.c.tail, s.enq, s.out, s.prod, x);
  }

  lemma UntakenInRing<V>(B: nat, used: nat, doneIn: seq<set<nat>>, out: map<nat, V>, enq: seq<V>, head: nat, x: nat)
    requires B > 0 && Marks(B, used, doneIn, out, enq, head) && x !in out && BlockNo(B, x) < |doneIn|
    ensures |doneIn| - used <= BlockNo(B, x)
  {
    Join(B, x);
    var k, o := BlockNo(B, x), Slot(B, x);
    assert o in Range(0, B);
    assert o in doneIn[k] ==> Base(B, k) + o in out;
    hide Base, BlockNo, Slot;
  }

  /**
   * With no operation under way, just the indices below the head have been delivered, and the remaining elements, those
   * from the head to the tail, are each in the block the index lists for it, in enqueue order.
   */
  lemma QuietRemains<V>(B: nat, limit: Option<nat>, size: nat, pool: nat, n: nat, evs: seq<Event<V>>)
    requires B > 0 && size > 0 && Quiet(Reached(B, limit, size, pool, n, evs))
    ensures var s := Reached(B, limit, size, pool, n, evs);
      && s.Wf() && s.c.head <= s.c.tail == |s.enq|
      && (forall x :: x in s.out.Keys <==> 0 <= x < s.c.head)
      && (forall x :: 0 <= x < s.c.head ==> s.out[x] == s.enq[x])
      && forall x :: s.c.head <= x < s.c.tail ==> Placed(s, x)
  {
    hide Inv, Reached, C.Inv, Taken, Marks, Fin, Placed, Lists, RingOk, Owns, Filled, Readers, ProdOk;
    ReachedInv(B, limit, size, pool, n, evs);
    var s := Reached(B, limit, size, pool, n, evs);
    Pieces(s);
    C.NeverOverClaims(s.c);
    AllTaken(s.B, s.used, s.c, s.doneIn, s.out, s.enq);
    forall x: nat | s.c.head <= x < s.c.tail
      ensures Placed(s, x)
    {
      UntakenIsPlaced(s, x);
    }
  }

  lemma AllTaken<V>(B: nat, used: nat, c: C.State, doneIn: seq<set<nat>>, out: map<nat, V>, enq: seq<V>)
    requires Taken(B, c, doneIn) && Marks(B, used, doneIn, out, enq, c.head)
    requires forall t :: 0 <= t < |c.threads| ==> c.threads[t].Idle?
    ensures forall x :: x in out.Keys <==> 0 <= x < c.head
    ensures c.head <= |enq| ==> forall x :: 0 <= x < c.head ==> out[x] == enq[x]
  {
    forall x: nat | x < c.head
      ensures x in out
    {
      assert Fin(B, doneIn, x);
      Join(B, x);
    }
    hide Base, BlockNo, Slot;
  }

  // ---------------------------------------------------------------- the counters of a run

  /** What an event is to the counters: a dequeue's access for as many as it asks for, its end, or a publication. */
  function CounterEvents<V>(s: State<V>, ev: Event<V>): seq<C.Event>
    requires s.Wf()
  {
    var z := Next(s, ev);
    match ev
    case Produce(_, _, _) => if z.c.tail > s.c.tail then [C.Enqueue(z.c.tail - s.c.tail)] else []
    case Consume(t, max) =>
      if t >= |s.readers| then []
      else if s.readers[t].NotReading? then [C.Dequeue(t, max)]
      else if z.readers[t].NotReading? then [C.Finish(t)]
      else []
  }

  function CounterRun<V>(s: State<V>, evs: seq<Event<V>>): seq<C.Event>
    requires s.Wf()
    decreases |evs|
  {
    if evs == [] then []
    else
      assert Next(s, evs[0]).Wf() by { NextKeepsWf(s, evs[0]); }
      CounterEvents(s, evs[0]) + CounterRun(Next(s, evs[0]), evs[1..])
  }

  lemma FindCounters<V>(s: State<V>, t: nat)
    requires s.Wf() && t < |s.readers| && !s.readers[t].NotReading?
    ensures var z := FindStep(s, t);
      |z.readers| == |s.readers| && z.c == s.c && !z.readers[t].NotReading?
  {
    hide Lookup, Base, BlockNo, Wrap;
  }

  lemma TakeCounters<V>(s: State<V>, t: nat)
    requires s.Wf() && t < |s.readers| && s.readers[t].Take?
    ensures var z := TakeStep(s, t);
      |z.readers| == |s.readers| && z.c == if z.readers[t].NotReading? then C.Release(s.c, t) else s.c
  {
    hide C.Release, Base, BlockNo, Slot, Range, Wrap, MarkDone;
  }

  lemma ConsCounters<V>(s: State<V>, t: nat, max: nat)
    requires s.Wf() && t < |s.readers|
    ensures var z := ConsStep(s, t, max);
      && |z.readers| == |s.readers|
      && z.c == (if s.readers[t].NotReading? then C.Step(s.c, t, max)
                 else if z.readers[t].NotReading? then C.Release(s.c, t) else s.c)
  {
    hide C.Step, C.Release, FindStep, TakeStep;
    if s.readers[t].Take? {
      TakeCounters(s, t);
    } else if !s.readers[t].NotReading? {
      FindCounters(s, t);
    }
  }

  lemma OneEvent(c: C.State, e: C.Event)
    ensures C.Run(c, [e]) == C.Next(c, e) && C.Run(c, []) == c
  {
    assert C.Run(c, [e]) == C.Run(C.Next(c, e), [e][1..]);
  }

  lemma NextCounters<V>(s: State<V>, ev: Event<V>)
    requires Inv(s) && s.Wf()
    ensures Next(s, ev).c == C.Run(s.c, CounterEvents(s, ev))
  {
    hide Inv, ProdStep, ConsStep, C.Step, C.Run;
    match ev
    case Produce(v, ok, id) =>
      ProdCounters(s, v, ok, id);
      OneEvent(s.c, C.Enqueue(ProdStep(s, v, ok, id).c.tail - s.c.tail));
    case Consume(t, max) =>
      OneEvent(s.c, C.Dequeue(t, max));
      OneEvent(s.c, C.Finish(t));
      if t < |s.readers| {
        ConsCounters(s, t, max);
        ReaderClaims(s, t);
      }
  }

  lemma ReaderClaims<V>(s: State<V>, t: nat)
    requires Inv(s) && t < |s.readers|
    ensures t < |s.c.threads| && (!s.readers[t].NotReading? ==> s.c.threads[t].Claimed?)
  {
    hide Inv, ReaderOk, C.Inv;
    ReaderIs(s, t);
    PlaceClaims(s, t, s.readers[t]);
  }

  lemma PlaceClaims<V>(s: State<V>, t: nat, r: Reader)
    requires s.B > 0 && t < |s.c.threads| && ReaderOk(s, t, r)
    ensures !r.NotReading? ==> s.c.threads[t].Claimed?
  {
    hide Reaches, Vis, Fin, BlockNo, Base, Pos;
  }

  lemma ProdCounters<V>(s: State<V>, v: V, ok: bool, id: nat)
    requires s.Wf()
    ensures s.c.tail <= ProdStep(s, v, ok, id).c.tail
    ensures ProdStep(s, v, ok, id).c == C.Publish(s.c, ProdStep(s, v, ok, id).c.tail - s.c.tail)
  {
    hide BlockStep, Wrap, Slot;
    if s.prod.ENext? || s.prod.EReset? || s.prod.EHead? || s.prod.EGrow? || s.prod.ETake? {
      BlockKeepsWf(s, ok, id);
    }
  }

  /**
   * The counters of a run are those of the protocol, run with the same requests: what it says of every dequeue holds of
   * the dequeues of this producer.
   */
  lemma {:induction false} CountersRefine<V>(s: State<V>, evs: seq<Event<V>>)
    requires Inv(s) && s.Wf()
    ensures Run(s, evs).c == C.Run(s.c, CounterRun(s, evs))
    decreases |evs|
  {
    hide Inv, Next, CounterEvents;
    if evs != [] {
      NextKeepsInv(s, evs[0]);
      NextKeepsWf(s, evs[0]);
      NextCounters(s, evs[0]);
      CountersRefine(Next(s, evs[0]), evs[1..]);
      C.RunConcat(s.c, CounterEvents(s, evs[0]), CounterRun(Next(s, evs[0]), evs[1..]));
    }
  }
}
