/** The size limit of an implicit producer's sub-queue, enforced when a block is started. */
module ImplicitLimit {
  import opened Common
  import opened Blocks
  import C = DequeueCounters
  import opened Claims
  import opened ImplicitQueue
  import opened ImplicitRuns

  /** With every block number below `k` full, the elements from the head on would be within the limit. */
  predicate Fits<V>(s: State<V>, k: nat) {
    s.limit.Some? ==> Base(s.B, k) <= s.c.head + s.limit.value
  }

  /** The block numbers of the published elements and of the chain taken so far. */
  function Begun<V>(s: State<V>): nat
    requires s.B > 0
  {
    s.K0() + if s.prod.PIdle? then 0 else |s.prod.got|
  }

  predicate Starting<V>(p: Prod<V>) {
    p.PIndex? || p.PGrow? || p.PKey? || p.PTail? || p.PBlock? || p.PValue?
  }

  ghost predicate Within<V>(s: State<V>) {
    && s.Wf() && Fits(s, Begun(s)) && (Starting(s.prod) ==> Fits(s, Begun(s) + 1))
    && (s.prod.PBuild? || s.prod.PPublish? ==> Ceil(s.B, s.c.tail + |s.prod.vs|) <= Begun(s))
  }

  /** What a step that does not publish does to the blocks begun: one more only behind the check. */
  ghost predicate Started<V>(s: State<V>, z: State<V>)
    requires s.B > 0
  {
    && z.B == s.B && z.limit == s.limit && z.c == s.c
    && (Begun(z) <= Begun(s) || (s.prod.PValue? && Begun(z) == Begun(s) + 1))
    && (Starting(z.prod) ==> Starting(s.prod) && Begun(z) == Begun(s))
    && (z.prod.PBuild? || z.prod.PPublish? ==>
          (s.prod.PBuild? || s.prod.PPublish?) && z.prod.vs == s.prod.vs && Begun(z) == Begun(s))
  }

  lemma InsertStarted<V>(s: State<V>, ok: bool)
    requires s.Wf() && (s.prod.PIndex? || s.prod.PGrow? || s.prod.PKey? || s.prod.PTail?)
    ensures Started(s, InsertStep(s, ok))
  {
    hide Wrap, Base, Ceil, Doubled;
  }

  lemma BlockStarted<V>(s: State<V>, ok: bool, id: nat)
    requires s.Wf() && (s.prod.PBlock? || s.prod.PValue? || s.prod.PRewind? || s.prod.PClear?)
    ensures Started(s, BlockStep(s, ok, id))
  {
    hide Wrap, Ceil;
  }

  lemma UndoStarted<V>(s: State<V>)
    requires s.Wf() && (s.prod.PUndo? || s.prod.PUndoTail? || s.prod.PGive?)
    ensures Started(s, UndoStep(s))
  {
    hide Wrap, Ceil, OwnEntry;
  }

  lemma BuildStarted<V>(s: State<V>)
    requires s.Wf() && s.prod.PBuild?
    ensures Started(s, FillStep(s))
  {
    hide Ceil, Slot, Target;
  }

  /** A block is begun only behind the check: its whole extent is within the limit. */
  lemma CheckedFits<V>(s: State<V>, vs: seq<V>, ok: bool, id: nat)
    requires Within(s) && (s.prod.PIdle? || s.prod.PNext?)
    ensures Within(ProdStep(s, vs, ok, id)) && ProdStep(s, vs, ok, id).limit == s.limit
  {
    hide Ceil, Base;
    BlockOf(s.B, Begun(s), 0);
  }

  lemma PublishFits<V>(s: State<V>)
    requires Within(s) && s.prod.PPublish?
    ensures Within(FillStep(s)) && FillStep(s).limit == s.limit
  {
    hide Ceil, Base;
    BaseMonotone(s.B, Ceil(s.B, s.c.tail + |s.prod.vs|), Begun(s));
  }

  lemma ProdStaysWithin<V>(s: State<V>, vs: seq<V>, ok: bool, id: nat)
    requires Within(s)
    ensures Within(ProdStep(s, vs, ok, id)) && ProdStep(s, vs, ok, id).limit == s.limit
  {
    hide InsertStep, BlockStep, UndoStep, FillStep, Full, Base, Ceil;
    ProdKeepsWf(s, vs, ok, id);
    var p, z := s.prod, ProdStep(s, vs, ok, id);
    if p.PIdle? || p.PNext? {
      CheckedFits(s, vs, ok, id);
    } else if p.PPublish? {
      PublishFits(s);
    } else {
      assert Started(s, z) by {
        if p.PIndex? || p.PGrow? || p.PKey? || p.PTail? { InsertStarted(s, ok); }
        if p.PBlock? || p.PValue? || p.PRewind? || p.PClear? { BlockStarted(s, ok, id); }
        if p.PBuild? { BuildStarted(s); }
        if p.PUndo? || p.PUndoTail? || p.PGive? { UndoStarted(s); }
      }
      hide ProdStep;
      if Begun(z) <= Begun(s) {
        BaseMonotone(s.B, Begun(z), Begun(s));
      }
    }
  }

  lemma BaseMonotone(B: nat, a: nat, b: nat)
    requires a <= b
    ensures Base(B, a) <= Base(B, b)
  {
    MulDiff(B, a, b);
  }

  lemma HeadGrows(c: C.State, t: nat, max: nat)
    requires t < |c.threads|
    ensures c.head <= C.Step(c, t, max).head && C.Step(c, t, max).tail == c.tail
  {
  }

  lemma ConsKeeps<V>(s: State<V>, t: nat, max: nat)
    requires s.Wf() && t < |s.readers|
    ensures var z := ConsStep(s, t, max);
      z.B == s.B && z.limit == s.limit && z.prod == s.prod && z.c.tail == s.c.tail && s.c.head <= z.c.head
  {
    HeadGrows(s.c, t, max);
    hide C.Step, Lookup, Base, BlockNo, Slot, Range, Wrap, C.State.With;
  }

  lemma NextStaysWithin<V>(s: State<V>, ev: Event<V>)
    requires Within(s)
    ensures Within(Next(s, ev)) && Next(s, ev).limit == s.limit
  {
    hide ProdStep, ConsStep, Base, Ceil;
    match ev
    case Produce(vs, ok, id) => ProdStaysWithin(s, vs, ok, id);
    case Consume(t, max) =>
      if t < |s.readers| {
        ConsKeepsWf(s, t, max);
        ConsKeeps(s, t, max);
      }
  }

  lemma {:induction false} RunStaysWithin<V>(s: State<V>, evs: seq<Event<V>>)
    requires Within(s) && s.Wf()
    ensures Within(Run(s, evs)) && Run(s, evs).limit == s.limit
    decreases |evs|
  {
    hide Next, Within;
    if evs != [] {
      NextKeepsWf(s, evs[0]);
      NextStaysWithin(s, evs[0]);
      RunStaysWithin(Next(s, evs[0]), evs[1..]);
    }
  }

  /**
   * The limit holds: over every run there are never more elements from the head to the tail than the limit says,
   * however many enqueues, single or in bulk, are tried, and whatever the dequeues ask for.
   */
  lemma SizeWithinLimit<V>(B: nat, limit: Option<nat>, cap: nat, n: nat, evs: seq<Event<V>>)
    requires B > 0 && cap > 0 && limit.Some?
    ensures var s := Reached(B, limit, cap, n, evs);
      s.c.tail <= s.c.head + limit.value
  {
    hide Run, Base, Ceil;
    InitWithin<V>(B, limit, cap, n);
    RunStaysWithin(Init<V>(B, limit, cap, n), evs);
    var s := Reached(B, limit, cap, n, evs);
    CeilBounds(s.B, s.c.tail);
    BaseMonotone(s.B, s.K0(), Begun(s));
  }

  lemma InitWithin<V>(B: nat, limit: Option<nat>, cap: nat, n: nat)
    requires B > 0 && cap > 0
    ensures Within(Init<V>(B, limit, cap, n))
  {
    PartBlock(B, 0);
    QuotientIs(B, 0, 0, 0);
  }

  /**
   * And it is all that is held to: a block a bulk enqueue needs is refused at the check exactly if it would not fit.
   */
  lemma RefusedIffOver<V>(s: State<V>, vs: seq<V>, ok: bool, id: nat)
    requires s.Wf() && s.c.head <= s.c.tail && s.prod.PNext? && Begun(s) < Ceil(s.B, s.c.tail + |s.prod.vs|)
    ensures ProdStep(s, vs, ok, id).prod.PUndo? <==> !Fits(s, Begun(s) + 1)
  {
    hide Ceil, Base;
    CeilBounds(s.B, s.c.tail);
    BaseMonotone(s.B, s.K0(), Begun(s));
    BlockOf(s.B, Begun(s), 0);
  }
}
