/** What holds of an implicit producer and its consumers over every run, under any interleaving. */
module ImplicitRuns {
  import opened Common
  import opened Blocks
  import C = DequeueCounters
  import opened Claims
  import opened Deliveries
  import opened ImplicitQueue
  import opened ImplicitInvariant
  import opened ImplicitFrames
  import opened ImplicitProducerSteps
  import opened ImplicitFillSteps
  import opened ImplicitConsumerSteps

  /** One step: of the producer (with what the environment answers it), or of consumer `t`. */
  datatype Event<V> = Produce(vs: seq<V>, ok: bool, id: nat) | Consume(t: nat, max: nat)

  function Next<V>(s: State<V>, ev: Event<V>): State<V>
    requires s.Wf()
  {
    match ev
    case Produce(vs, ok, id) => ProdStep(s, vs, ok, id)
    case Consume(t, max) => if t < |s.readers| then ConsStep(s, t, max) else s
  }

  lemma InsertKeepsWf<V>(s: State<V>, ok: bool)
    requires s.Wf() && (s.prod.PIndex? || s.prod.PGrow? || s.prod.PKey? || s.prod.PTail?)
    ensures InsertStep(s, ok).Wf()
  {
    hide Wrap, Ceil, Base, SlotOf;
  }

  lemma FillKeepsWf<V>(s: State<V>)
    requires s.Wf() && (s.prod.PBuild? || s.prod.PPublish?)
    ensures FillStep(s).Wf()
  {
    hide Ceil, Base, Slot, Target;
  }

  lemma BlockKeepsWf<V>(s: State<V>, ok: bool, id: nat)
    requires s.Wf() && (s.prod.PBlock? || s.prod.PValue? || s.prod.PRewind? || s.prod.PClear?)
    ensures BlockStep(s, ok, id).Wf()
  {
    hide Wrap, Ceil, Base;
  }

  lemma UndoKeepsWf<V>(s: State<V>)
    requires s.Wf() && (s.prod.PUndo? || s.prod.PUndoTail? || s.prod.PGive?)
    ensures UndoStep(s).Wf()
  {
    hide Wrap, Ceil, OwnEntry;
  }

  lemma ProdKeepsWf<V>(s: State<V>, vs: seq<V>, ok: bool, id: nat)
    requires s.Wf()
    ensures ProdStep(s, vs, ok, id).Wf()
  {
    hide Ceil, Full, InsertStep, BlockStep, UndoStep, FillStep;
    var p := s.prod;
    if p.PIndex? || p.PGrow? || p.PKey? || p.PTail? { InsertKeepsWf(s, ok); }
    if p.PBlock? || p.PValue? || p.PRewind? || p.PClear? { BlockKeepsWf(s, ok, id); }
    if p.PBuild? || p.PPublish? { FillKeepsWf(s); }
    if p.PUndo? || p.PUndoTail? || p.PGive? { UndoKeepsWf(s); }
  }

  lemma ConsKeepsWf<V>(s: State<V>, t: nat, max: nat)
    requires s.Wf() && t < |s.readers|
    ensures ConsStep(s, t, max).Wf()
  {
    hide Wrap, Ceil, Base, BlockNo, Slot, Lookup, C.Decide, C.Repeat, Range;
  }

  function Run<V>(s: State<V>, evs: seq<Event<V>>): State<V>
    requires s.Wf()
    decreases |evs|
  {
    if evs == [] then s
    else
      assert Next(s, evs[0]).Wf() by { NextKeepsWf(s, evs[0]); }
      Run(Next(s, evs[0]), evs[1..])
  }

  lemma NextKeepsWf<V>(s: State<V>, ev: Event<V>)
    requires s.Wf()
    ensures Next(s, ev).Wf()
  {
    hide ProdStep, ConsStep;
    match ev
    case Produce(vs, ok, id) => ProdKeepsWf(s, vs, ok, id);
    case Consume(t, max) => if t < |s.readers| { ConsKeepsWf(s, t, max); }
  }

  /** A dequeue that begins here asks for something. */
  predicate Asks<V>(s: State<V>, ev: Event<V>) {
    ev.Consume? && ev.t < |s.c.threads| && s.c.threads[ev.t].Idle? ==> ev.max > 0
  }

  /** Every dequeue that the run begins asks for something. */
  predicate Asking<V>(s: State<V>, evs: seq<Event<V>>)
    decreases |evs|
  {
    evs == [] || (s.Wf() && Asks(s, evs[0]) && Asking(Next(s, evs[0]), evs[1..]))
  }

  lemma NextKeepsInv<V>(s: State<V>, ev: Event<V>)
    requires Inv(s) && Asks(s, ev)
    ensures Inv(Next(s, ev))
  {
    hide Inv, ProdStep, ConsStep;
    Pieces(s);
    match ev
    case Produce(vs, ok, id) => ProdStepKeepsInv(s, vs, ok, id);
    case Consume(t, max) => if t < |s.readers| { ConsStepKeepsInv(s, t, max); }
  }

  lemma {:induction false} RunKeepsInv<V>(s: State<V>, evs: seq<Event<V>>)
    requires Inv(s) && Asking(s, evs)
    ensures s.Wf() && Inv(Run(s, evs))
    decreases |evs|
  {
    hide Inv, Next;
    Pieces(s);
    if evs != [] {
      NextKeepsInv(s, evs[0]);
      RunKeepsInv(Next(s, evs[0]), evs[1..]);
    }
  }

  lemma InitInv<V>(B: nat, limit: Option<nat>, cap: nat, n: nat)
    requires B > 0 && cap > 0
    ensures Inv(Init<V>(B, limit, cap, n))
  {
    C.InitInv(n);
    WrapIs(cap, -1, -1, cap - 1);
    QuotientIs(cap, cap, 1, 0);
    PartBlock(B, 0);
    QuotientIs(B, 0, 0, 0);
    hide C.Inv;
  }

  function Reached<V>(B: nat, limit: Option<nat>, cap: nat, n: nat, evs: seq<Event<V>>): State<V>
    requires B > 0 && cap > 0
  {
    assert Init<V>(B, limit, cap, n).Wf() by { InitInv<V>(B, limit, cap, n); }
    Run(Init<V>(B, limit, cap, n), evs)
  }

  lemma ReachedInv<V>(B: nat, limit: Option<nat>, cap: nat, n: nat, evs: seq<Event<V>>)
    requires B > 0 && cap > 0 && Asking(Init<V>(B, limit, cap, n), evs)
    ensures Init<V>(B, limit, cap, n).Wf() && Inv(Reached(B, limit, cap, n, evs))
  {
    hide Inv, Init, Run, Asking;
    InitInv<V>(B, limit, cap, n);
    Pieces(Init<V>(B, limit, cap, n));
    RunKeepsInv(Init<V>(B, limit, cap, n), evs);
  }

  // ---------------------------------------------------------------- first in, first out

  /** What a step hands to a consumer, as read from the block. */
  function Yield<V>(s: State<V>, ev: Event<V>): seq<Delivery<V>>
    requires s.Wf()
  {
    if ev.Consume? && ev.t < |s.readers| && s.readers[ev.t].Take? then
      var r := s.readers[ev.t];
      var o := Slot(s.B, r.i);
      if r.i < r.e && r.i < Base(s.B, BlockNo(s.B, r.i0) + 1) && r.b < |s.blocks| && o < |s.blocks[r.b].cells|
         && s.blocks[r.b].cells[o].Some? then
        [Delivery(ev.t, r.i, s.blocks[r.b].cells[o].value)]
      else []
    else []
  }

  function Yields<V>(s: State<V>, evs: seq<Event<V>>): seq<Delivery<V>>
    requires s.Wf()
    decreases |evs|
  {
    if evs == [] then []
    else
      assert Next(s, evs[0]).Wf() by { NextKeepsWf(s, evs[0]); }
      Yield(s, evs[0]) + Yields(Next(s, evs[0]), evs[1..])
  }

  /** What a step adds to the record of values enqueued. */
  function Gain<V>(s: State<V>, ev: Event<V>): seq<V> {
    if ev.Produce? && s.prod.PPublish? then s.prod.vs else []
  }

  /** The call a step of the producer belongs to: the one it begins, or the one it is in. */
  function CallAt<V>(s: State<V>, call: Option<seq<V>>, vs: seq<V>): Option<seq<V>> {
    if s.prod.PIdle? then Some(vs) else call
  }

  /** A call is over when the producer is idle again, or has moved the tail. */
  function CallAfter<V>(s: State<V>, call: Option<seq<V>>, ev: Event<V>): Option<seq<V>>
    requires s.Wf()
  {
    if ev.Consume? then call
    else if Next(s, ev).prod.PIdle? || Next(s, ev).c.tail != s.c.tail then None
    else CallAt(s, call, ev.vs)
  }

  /** The values of the call under way after a run, from the events alone. */
  function CallIn<V>(s: State<V>, call: Option<seq<V>>, evs: seq<Event<V>>): Option<seq<V>>
    requires s.Wf()
    decreases |evs|
  {
    if evs == [] then call
    else
      assert Next(s, evs[0]).Wf() by { NextKeepsWf(s, evs[0]); }
      CallIn(Next(s, evs[0]), CallAfter(s, call, evs[0]), evs[1..])
  }

  /** What the call publishes that a step belongs to: its values if the step moves the tail. */
  function Accept<V>(s: State<V>, call: Option<seq<V>>, ev: Event<V>): seq<V>
    requires s.Wf()
  {
    if ev.Produce? && Next(s, ev).c.tail != s.c.tail && CallAt(s, call, ev.vs).Some? then
      CallAt(s, call, ev.vs).value
    else []
  }

  /** The values the calls of a run were given that moved the tail, in call order. */
  function Accepted<V>(s: State<V>, call: Option<seq<V>>, evs: seq<Event<V>>): seq<V>
    requires s.Wf()
    decreases |evs|
  {
    if evs == [] then []
    else
      assert Next(s, evs[0]).Wf() by { NextKeepsWf(s, evs[0]); }
      Accept(s, call, evs[0]) + Accepted(Next(s, evs[0]), CallAfter(s, call, evs[0]), evs[1..])
  }

  /** The producer's place holds what its call was given. */
  ghost predicate Holds<V>(p: Prod<V>, call: Option<seq<V>>) {
    if p.PIdle? then call.None? else call == Some(p.vs)
  }

  /** No index below this is delivered to consumer `t` any more. */
  function Place<V>(s: State<V>, t: nat): nat
    requires t < |s.readers|
  {
    match s.readers[t]
    case NotReading => s.c.head
    case LoadIndex(i, _) => i
    case LoadIndexTail(i, _, _) => i
    case LoadKey(i, _, _, _) => i
    case LoadValue(i, _, _, _) => i
    case Take(_, i, _, _, _, _) => i
    case ClearEntry(_, i, _, _, _, _) => i
    case GiveBack(_, i, _, _, _, _) => i
  }

  lemma TakeReads<V>(s: State<V>, t: nat)
    requires Inv(s) && t < |s.readers| && s.readers[t].Take? && s.readers[t].i < s.readers[t].e
    requires var r := s.readers[t]; r.i < Base(s.B, BlockNo(s.B, r.i0) + 1)
    ensures var r := s.readers[t];
      && r.i < |s.enq| && r.i !in s.out && r.i < s.c.head && r.i < |s.c.owner| && s.c.owner[r.i] == t
      && r.b < |s.blocks| && Slot(s.B, r.i) < |s.blocks[r.b].cells|
      && s.blocks[r.b].cells[Slot(s.B, r.i)] == Some(s.enq[r.i])
  {
    hide Inv, Heads, Window, Live, Owns, Cells, Marks, ProdOk, Filling, Taken, Ceil, Fin, Reaches, Pos, Phases, Readers,
         Base, BlockNo, Slot, Claim, Extra, Spare, C.Inv;
    Pieces(s);
    InvCounters(s);
    TakeReady(s, t);
    var r := s.readers[t];
    ClaimedIsOpen(s, t, r.i0, r.i, r.e, r.i);
    SameBlock(s.B, r.i0, r.i);
    CellsTake(s.B, |s.blocks|, s.free, Spare(s.prod), s.blocks, s.blockOf, s.phase, s.finIn, s.c.tail, s.enq, s.out,
      Extra(s.prod), r.i);
  }

  /** What the producer leaves alone unless it publishes. */
  ghost predicate Undelivered<V>(s: State<V>, z: State<V>) {
    z.out == s.out && z.readers == s.readers && z.c == s.c && z.enq == s.enq && z.tailBlock == s.tailBlock && z.B == s.B
  }

  lemma InsertUndelivered<V>(s: State<V>, ok: bool)
    requires s.Wf() && (s.prod.PIndex? || s.prod.PGrow? || s.prod.PKey? || s.prod.PTail?)
    ensures Undelivered(s, InsertStep(s, ok)) && (InsertStep(s, ok).prod.PIdle?
      || InsertStep(s, ok).prod.vs == s.prod.vs)
  {
    hide Wrap, Base, Doubled;
  }

  lemma BlockUndelivered<V>(s: State<V>, ok: bool, id: nat)
    requires s.Wf() && (s.prod.PBlock? || s.prod.PValue? || s.prod.PRewind? || s.prod.PClear?)
    ensures Undelivered(s, BlockStep(s, ok, id))
      && (BlockStep(s, ok, id).prod.PIdle? || BlockStep(s, ok, id).prod.vs == s.prod.vs)
  {
    hide Wrap;
  }

  lemma UndoUndelivered<V>(s: State<V>)
    requires s.Wf() && (s.prod.PUndo? || s.prod.PUndoTail? || s.prod.PGive?)
    ensures Undelivered(s, UndoStep(s)) && (UndoStep(s).prod.PIdle? || UndoStep(s).prod.vs == s.prod.vs)
  {
    hide Wrap, Ceil, OwnEntry;
  }

  lemma ProdUndelivered<V>(s: State<V>, vs: seq<V>, ok: bool, id: nat)
    requires s.Wf() && !s.prod.PPublish?
    ensures Undelivered(s, ProdStep(s, vs, ok, id))
    ensures var z := ProdStep(s, vs, ok, id); z.prod.PIdle? || z.prod.vs == if s.prod.PIdle? then vs else s.prod.vs
  {
    hide Ceil, Full, InsertStep, BlockStep, UndoStep, Target;
    var p := s.prod;
    if p.PIndex? || p.PGrow? || p.PKey? || p.PTail? { InsertUndelivered(s, ok); }
    if p.PBlock? || p.PValue? || p.PRewind? || p.PClear? { BlockUndelivered(s, ok, id); }
    if p.PUndo? || p.PUndoTail? || p.PGive? { UndoUndelivered(s); }
  }

  lemma ProdDelivers<V>(s: State<V>, vs: seq<V>, ok: bool, id: nat)
    requires s.Wf()
    ensures var z := ProdStep(s, vs, ok, id);
      && z.out == s.out && z.readers == s.readers && z.c.head == s.c.head && |z.readers| == |s.readers|
      && z.enq == s.enq + (if s.prod.PPublish? then s.prod.vs else [])
      && z.c.tail == s.c.tail + (if s.prod.PPublish? then |s.prod.vs| else 0) && (s.prod.PPublish? ==> z.prod.PIdle?)
      && (z.prod.PIdle? || z.prod.vs == if s.prod.PIdle? then vs else s.prod.vs)
  {
    hide InsertStep, BlockStep, UndoStep;
    assert s.enq + [] == s.enq;
    if !s.prod.PPublish? {
      ProdUndelivered(s, vs, ok, id);
      hide ProdStep;
    }
  }

  predicate Taking<V>(s: State<V>, t: nat)
    requires s.Wf() && t < |s.readers|
  {
    var r := s.readers[t];
    r.Take? && r.i < r.e && r.i < Base(s.B, BlockNo(s.B, r.i0) + 1)
  }

  lemma YieldTaking<V>(s: State<V>, t: nat, max: nat)
    requires s.Wf() && t < |s.readers| && Taking(s, t) && Inv(s)
    ensures s.readers[t].i !in s.out && s.readers[t].i < |s.enq| && Place(s, t) == s.readers[t].i
    ensures Yield(s, Consume(t, max)) == [Delivery(t, s.readers[t].i, s.enq[s.readers[t].i])]
  {
    hide Inv, Base, BlockNo, Slot;
    TakeReads(s, t);
  }

  lemma TakeTaking<V>(s: State<V>, t: nat, max: nat)
    requires s.Wf() && t < |s.readers| && Taking(s, t) && Inv(s)
    ensures s.readers[t].i < |s.enq| && ConsStep(s, t, max).out == s.out[s.readers[t].i := s.enq[s.readers[t].i]]
  {
    hide Inv, Base, BlockNo, TakeStep;
    TakeOne(s, t);
  }

  lemma YieldNothing<V>(s: State<V>, t: nat, max: nat)
    requires s.Wf() && t < |s.readers| && !Taking(s, t)
    ensures Yield(s, Consume(t, max)) == []
  {
    hide Base, BlockNo, Slot;
  }

  lemma ConsDelivers<V>(s: State<V>, t: nat, max: nat)
    requires Inv(s) && t < |s.readers|
    ensures var z, y := ConsStep(s, t, max), Yield(s, Consume(t, max));
      && z.enq == s.enq
      && (y == [] ==> z.out == s.out)
      && (y != [] ==>
            && |y| == 1 && y[0].t == t && y[0].i == Place(s, t) && y[0].i !in s.out && y[0].i < |s.enq|
            && y[0].v == s.enq[y[0].i] && z.out == s.out[y[0].i := y[0].v])
  {
    hide Inv, ConsStep, Taking, Yield, Place;
    Pieces(s);
    ConsEnq(s, t, max);
    if Taking(s, t) {
      YieldTaking(s, t, max);
      TakeTaking(s, t, max);
    } else {
      YieldNothing(s, t, max);
      TakesNothing(s, t, max);
    }
  }

  lemma ConsEnq<V>(s: State<V>, t: nat, max: nat)
    requires s.Wf() && t < |s.readers|
    ensures ConsStep(s, t, max).enq == s.enq && ConsStep(s, t, max).prod == s.prod
  {
    hide C.Step, Lookup, Base, BlockNo, Slot, Range;
  }

  lemma TakesNothing<V>(s: State<V>, t: nat, max: nat)
    requires s.Wf() && t < |s.readers| && !Taking(s, t)
    ensures ConsStep(s, t, max).out == s.out
  {
    hide C.Step, Lookup, Base, BlockNo, Slot, Range;
  }

  lemma PlaceBelowHead<V>(s: State<V>, t: nat)
    requires Inv(s) && t < |s.readers|
    ensures Place(s, t) <= s.c.head
    ensures s.readers[t].Take? ==> s.readers[t].e <= s.c.head
    ensures s.readers[t].GiveBack? ==> s.readers[t].e <= s.c.head
  {
    hide Inv, C.Inv, Heads, Window, Live, Owns, Cells, Marks, ProdOk, Filling, Taken, Fin, Reaches, Pos, Phases,
         Readers, Vis;
    Pieces(s);
    InvCounters(s);
    ReaderIs(s, t);
    ClaimUnderHead(s.c, t);
  }

  lemma ConsFrame<V>(s: State<V>, j: nat, max: nat)
    requires s.Wf() && j < |s.readers| && |s.c.owner| == s.c.head
    ensures var z := ConsStep(s, j, max);
      |z.readers| == |s.readers| && s.c.head <= z.c.head && forall t :: 0 <= t < |s.readers| && t != j ==>
        z.readers[t] == s.readers[t]
  {
    hide C.Step, Lookup, Base, BlockNo, Slot, Range, Wrap;
    CounterFrame(s.c, j, max);
  }

  lemma PlaceStep<V>(s: State<V>, t: nat, max: nat)
    requires s.Wf() && t < |s.readers| && |s.c.owner| == s.c.head
    requires s.readers[t].NotReading? ==> !s.c.threads[t].Claimed?
    requires s.readers[t].GiveBack? ==> s.readers[t].e <= s.c.head
    requires s.readers[t].Take? ==>
      s.readers[t].e <= s.c.head && s.readers[t].hd < |s.headers| && BlockNo(s.B, s.readers[t].i0) < |s.phase|
    ensures var z := ConsStep(s, t, max);
      t < |z.readers| && Place(s, t) <= Place(z, t) && (Yield(s, Consume(t, max)) != [] ==> Place(s, t) < Place(z, t))
  {
    hide C.Step, Lookup, Base, BlockNo, Slot, Range, Wrap;
    CounterFrame(s.c, t, max);
  }

  /** A consumer's place only moves up, and past whatever it is handed. */
  lemma PlaceGrows<V>(s: State<V>, ev: Event<V>, t: nat)
    requires Inv(s) && t < |s.readers| && |Next(s, ev).readers| == |s.readers|
    ensures Place(s, t) <= Place(Next(s, ev), t)
    ensures Yield(s, ev) != [] && ev.t == t ==> Place(s, t) < Place(Next(s, ev), t)
  {
    hide Inv, C.Inv, ProdStep, ConsStep, Taken;
    Pieces(s);
    InvCounters(s);
    PlaceBelowHead(s, t);
    if s.readers[t].NotReading? { IdleReader(s, t); }
    if s.readers[t].Take? { TakePlace(s, t); }
    match ev
    case Produce(vs, ok, id) => ProdDelivers(s, vs, ok, id);
    case Consume(j, max) =>
      if j == t {
        PlaceStep(s, t, max);
      } else if j < |s.readers| {
        ConsFrame(s, j, max);
      }
  }

  function Places<V>(s: State<V>): (p: seq<nat>)
    ensures |p| == |s.readers|
    ensures forall t :: 0 <= t < |p| ==> p[t] == Place(s, t)
  {
    seq(|s.readers|, t requires 0 <= t < |s.readers| => Place(s, t))
  }

  lemma StepDelivers<V>(s: State<V>, ev: Event<V>)
    requires Inv(s)
    ensures var z, y := Next(s, ev), Yield(s, ev);
      && |z.readers| == |s.readers|
      && z.enq == s.enq + Gain(s, ev)
      && (y == [] ==> z.out == s.out)
      && (y != [] ==>
            && |y| == 1 && ev.Consume? && y[0].t == ev.t < |s.readers| && y[0].i == Place(s, ev.t) && y[0].i !in s.out
            && y[0].i < |s.enq| && y[0].v == s.enq[y[0].i] && z.out == s.out[y[0].i := y[0].v])
  {
    hide Inv, ProdStep, ConsStep;
    Pieces(s);
    InvCounters(s);
    match ev
    case Produce(vs, ok, id) => ProdDelivers(s, vs, ok, id);
    case Consume(t, max) =>
      assert s.enq + [] == s.enq;
      if t < |s.readers| {
        ConsFrame(s, t, max);
        ConsDelivers(s, t, max);
      }
  }

  lemma PlacesGrow<V>(s: State<V>, ev: Event<V>)
    requires Inv(s) && |Next(s, ev).readers| == |s.readers|
    ensures forall t :: 0 <= t < |s.readers| ==> Places(s)[t] <= Places(Next(s, ev))[t]
    ensures Yield(s, ev) != [] && ev.t < |s.readers| ==> Places(s)[ev.t] < Places(Next(s, ev))[ev.t]
  {
    hide Inv, Next, Place, Places;
    Pieces(s);
    forall t: nat | t < |s.readers|
      ensures Places(s)[t] <= Places(Next(s, ev))[t]
      ensures Yield(s, ev) != [] && ev.t == t ==> Places(s)[t] < Places(Next(s, ev))[t]
    {
      PlaceGrows(s, ev, t);
    }
  }

  lemma StepInOrder<V>(s: State<V>, ev: Event<V>, zenq: seq<V>, zout: map<nat, V>, ys: seq<Delivery<V>>)
    requires Inv(s) && Inv(Next(s, ev)) && Next(s, ev).enq <= zenq
    requires InOrder(Places(Next(s, ev)), Next(s, ev).out, zenq, zout, ys)
    ensures InOrder(Places(s), s.out, zenq, zout, Yield(s, ev) + ys)
  {
    hide Inv, Next, Yield, Place, InOrder, Places;
    Pieces(s);
    var n := Next(s, ev);
    StepDelivers(s, ev);
    PlacesGrow(s, ev);
    if Yield(s, ev) == [] {
      assert [] + ys == ys;
      PlacesLower(Places(s), Places(n), n.out, zenq, zout, ys);
    } else {
      PlaceAt(s, ev.t);
      var y := Yield(s, ev)[0];
      DeliverOne(Places(s), Places(n), s.out, n.out, s.enq, zenq, zout, y, ys);
      assert Yield(s, ev) == [y];
    }
  }

  lemma NextGains<V>(s: State<V>, ev: Event<V>)
    requires s.Wf()
    ensures Next(s, ev).enq == s.enq + Gain(s, ev)
  {
    hide ProdStep, ConsStep;
    match ev
    case Produce(vs, ok, id) => ProdDelivers(s, vs, ok, id);
    case Consume(t, max) =>
      assert s.enq + [] == s.enq;
      if t < |s.readers| { ConsEnq(s, t, max); }
  }

  lemma NextAccepts<V>(s: State<V>, call: Option<seq<V>>, ev: Event<V>)
    requires s.Wf() && Holds(s.prod, call)
    ensures Holds(Next(s, ev).prod, CallAfter(s, call, ev)) && Next(s, ev).enq == s.enq + Accept(s, call, ev)
  {
    hide ProdStep, ConsStep;
    assert s.enq + [] == s.enq;
    match ev
    case Produce(vs, ok, id) => ProdDelivers(s, vs, ok, id);
    case Consume(t, max) => if t < |s.readers| { ConsEnq(s, t, max); }
  }

  /**
   * The record of values enqueued gains exactly the values of the calls that moved the tail, each call once and in call
   * order: what `enqueue_bulk` is given is what it publishes.
   */
  lemma {:induction false} RunAccepts<V>(s: State<V>, call: Option<seq<V>>, evs: seq<Event<V>>)
    requires s.Wf() && Holds(s.prod, call)
    ensures Run(s, evs).enq == s.enq + Accepted(s, call, evs)
    ensures Holds(Run(s, evs).prod, CallIn(s, call, evs))
    decreases |evs|
  {
    hide Next, Accept, CallAfter, Holds;
    if evs == [] {
      assert s.enq + [] == s.enq;
    } else {
      var n, c := Next(s, evs[0]), CallAfter(s, call, evs[0]);
      NextKeepsWf(s, evs[0]);
      NextAccepts(s, call, evs[0]);
      RunAccepts(n, c, evs[1..]);
      assert (s.enq + Accept(s, call, evs[0])) + Accepted(n, c, evs[1..])
          == s.enq + (Accept(s, call, evs[0]) + Accepted(n, c, evs[1..]));
    }
  }

  lemma {:induction false} EnqGrows<V>(s: State<V>, evs: seq<Event<V>>)
    requires s.Wf()
    ensures s.enq <= Run(s, evs).enq
    decreases |evs|
  {
    hide Next;
    if evs != [] {
      NextKeepsWf(s, evs[0]);
      NextGains(s, evs[0]);
      EnqGrows(Next(s, evs[0]), evs[1..]);
    }
  }

  lemma {:induction false} RunDelivers<V>(s: State<V>, evs: seq<Event<V>>)
    requires Inv(s) && Asking(s, evs)
    ensures s.Wf() && InOrder(Places(s), s.out, Run(s, evs).enq, Run(s, evs).out, Yields(s, evs))
    decreases |evs|
  {
    hide Inv, Next, Yield, Place, InOrder, Places, Accepted;
    Pieces(s);
    if evs == [] {
      NoneDelivered(Places(s), s.out, s.enq);
    } else {
      NextKeepsInv(s, evs[0]);
      NextKeepsWf(s, evs[0]);
      var n, rest := Next(s, evs[0]), evs[1..];
      RunDelivers(n, rest);
      EnqGrows(n, rest);
      StepInOrder(s, evs[0], Run(n, rest).enq, Run(n, rest).out, Yields(n, rest));
    }
  }

  lemma PlaceAt<V>(s: State<V>, t: nat)
    requires t < |s.readers|
    ensures Places(s)[t] == Place(s, t)
  {
  }

  /**
   * The sub-queue is a FIFO: whatever the interleaving, what consumers are handed at index `i` is element number `i` of
   * those the enqueues that succeeded were given, no index is handed out twice, and each consumer gets its elements in
   * the order they were enqueued.
   */
  lemma Fifo<V>(B: nat, limit: Option<nat>, cap: nat, n: nat, evs: seq<Event<V>>)
    requires B > 0 && cap > 0 && Asking(Init<V>(B, limit, cap, n), evs)
    ensures Init<V>(B, limit, cap, n).Wf()
    ensures var s := Init<V>(B, limit, cap, n);
      var enq, ys := Accepted(s, None, evs), Yields(s, evs);
      && (forall a :: 0 <= a < |ys| ==> ys[a].i < |enq| && ys[a].v == enq[ys[a].i])
      && (forall a, b :: 0 <= a < b < |ys| ==> ys[a].i != ys[b].i && (ys[a].t == ys[b].t ==> ys[a].i < ys[b].i))
  {
    hide Inv, Yields, Accepted, Run, Places, Asking;
    var s := Init<V>(B, limit, cap, n);
    InitInv<V>(B, limit, cap, n);
    RunDelivers(s, evs);
    RunAccepts(s, None, evs);
    assert [] + Accepted(s, None, evs) == Accepted(s, None, evs);
  }

  // ---------------------------------------------------------------- the counters of a run

  /** What an event is to the counters: a dequeue's access for as many as it asks for, its end, or a publication. */
  function CounterEvents<V>(s: State<V>, ev: Event<V>): seq<C.Event>
    requires s.Wf()
  {
    var z := Next(s, ev);
    match ev
    case Produce(_, _, _) => if z.c.tail > s.c.tail then [C.Enqueue(z.c.tail - s.c.tail)] else []
    case Consume(t, max) =>
      if t >= |s.readers| then []
      else if s.readers[t].NotReading? then [C.Dequeue(t, max)]
      else if z.readers[t].NotReading? then [C.Finish(t)]
      else []
  }

  function CounterRun<V>(s: State<V>, evs: seq<Event<V>>): seq<C.Event>
    requires s.Wf()
    decreases |evs|
  {
    if evs == [] then []
    else
      assert Next(s, evs[0]).Wf() by { NextKeepsWf(s, evs[0]); }
      CounterEvents(s, evs[0]) + CounterRun(Next(s, evs[0]), evs[1..])
  }

  lemma FindCounters<V>(s: State<V>, t: nat)
    requires s.Wf() && t < |s.readers| && !s.readers[t].NotReading?
    ensures var z := FindStep(s, t);
      |z.readers| == |s.readers| && z.c == s.c && !z.readers[t].NotReading?
  {
    hide Lookup, Base, BlockNo, Wrap;
  }

  lemma TakeCounters<V>(s: State<V>, t: nat)
    requires s.Wf() && t < |s.readers| && (s.readers[t].Take? || s.readers[t].ClearEntry? || s.readers[t].GiveBack?)
    ensures var z := TakeStep(s, t);
      |z.readers| == |s.readers| && z.c == if z.readers[t].NotReading? then C.Release(s.c, t) else s.c
  {
    hide C.Release, Base, BlockNo, Slot, Range, Wrap, MarkDone, Mark;
  }

  lemma ConsCounters<V>(s: State<V>, t: nat, max: nat)
    requires s.Wf() && t < |s.readers|
    ensures var z := ConsStep(s, t, max);
      && |z.readers| == |s.readers|
      && z.c == (if s.readers[t].NotReading? then C.Step(s.c, t, max)
                 else if z.readers[t].NotReading? then C.Release(s.c, t) else s.c)
  {
    hide C.Step, C.Release, FindStep, TakeStep;
    if !s.readers[t].NotReading? && (s.readers[t].Take? || s.readers[t].ClearEntry? || s.readers[t].GiveBack?) {
      TakeCounters(s, t);
    } else if !s.readers[t].NotReading? {
      FindCounters(s, t);
    }
  }

  lemma OneEvent(c: C.State, e: C.Event)
    ensures C.Run(c, [e]) == C.Next(c, e) && C.Run(c, []) == c
  {
    assert C.Run(c, [e]) == C.Run(C.Next(c, e), [e][1..]);
  }

  lemma NextCounters<V>(s: State<V>, ev: Event<V>)
    requires Inv(s) && s.Wf()
    ensures Next(s, ev).c == C.Run(s.c, CounterEvents(s, ev))
  {
    hide Inv, ProdStep, ConsStep, C.Step, C.Run;
    match ev
    case Produce(v, ok, id) =>
      ProdDelivers(s, v, ok, id);
      ProdCounters(s, v, ok, id);
      OneEvent(s.c, C.Enqueue(ProdStep(s, v, ok, id).c.tail - s.c.tail));
    case Consume(t, max) =>
      OneEvent(s.c, C.Dequeue(t, max));
      OneEvent(s.c, C.Finish(t));
      if t < |s.readers| {
        ConsCounters(s, t, max);
        ReaderClaims(s, t);
      }
  }

  lemma ReaderClaims<V>(s: State<V>, t: nat)
    requires Inv(s) && t < |s.readers|
    ensures t < |s.c.threads| && (!s.readers[t].NotReading? ==> s.c.threads[t].Claimed?)
  {
    hide Inv, ReaderOk, Readers, Taken, Heads, Window, Live, Owns, Cells, Marks, Phases, ProdOk, Filling, C.Inv;
    Pieces(s);
    ReaderIs(s, t);
    PlaceClaims(s, t, s.readers[t]);
  }

  lemma PlaceClaims<V>(s: State<V>, t: nat, r: Reader)
    requires s.B > 0 && t < |s.c.threads| && ReaderOk(s, t, r)
    ensures !r.NotReading? ==> s.c.threads[t].Claimed?
  {
    hide Reaches, Vis, Fin, BlockNo, Base, Pos;
  }

  lemma ProdCounters<V>(s: State<V>, vs: seq<V>, ok: bool, id: nat)
    requires s.Wf()
    ensures ProdStep(s, vs, ok, id).c == C.Publish(s.c, ProdStep(s, vs, ok, id).c.tail - s.c.tail)
  {
    if !s.prod.PPublish? {
      ProdUndelivered(s, vs, ok, id);
      hide ProdStep;
    }
  }

  /**
   * The counters of a run are those of the protocol, run with the same requests: what it says of every dequeue holds of
   * the dequeues of this producer.
   */
  lemma {:induction false} CountersRefine<V>(s: State<V>, evs: seq<Event<V>>)
    requires Inv(s) && s.Wf() && Asking(s, evs)
    ensures Run(s, evs).c == C.Run(s.c, CounterRun(s, evs))
    decreases |evs|
  {
    hide Inv, Next, CounterEvents, Asks;
    if evs != [] {
      NextKeepsInv(s, evs[0]);
      NextKeepsWf(s, evs[0]);
      NextCounters(s, evs[0]);
      CountersRefine(Next(s, evs[0]), evs[1..]);
      C.RunConcat(s.c, CounterEvents(s, evs[0]), CounterRun(Next(s, evs[0]), evs[1..]));
    }
  }
}
