/** Consumers of an explicit producer finish, whatever the producer and the other consumers do. */
module ExplicitProgress {
  import opened Common
  import opened Blocks
  import C = DequeueCounters
  import opened Claims
  import opened ExplicitQueue
  import opened ExplicitInvariant
  import opened ExplicitReads
  import opened ExplicitRuns
  import opened ExplicitProducer

  /** Four steps for each index still to be taken. */
  function Span(i: nat, e: nat): nat {
    if i < e then 4 * (e - i) else 0
  }

  /** A bound on the steps a consumer still has to make, whatever the others do. */
  function Left(r: Reader): nat {
    match r
    case NotReading => 0
    case LoadIndex(i, e) => Span(i, e) + 5
    case LoadFront(i, e, _) => Span(i, e) + 4
    case LoadBase(i, e, _, _) => Span(i, e) + 3
    case LoadBlock(i, e, _, _) => Span(i, e) + 2
    case Take(i0, i, e, _, _, _) => Span(i, e) + if i0 < i then 3 else 1
  }

  /** The consumer has claimed something and has not finished with it. */
  predicate AtWork(r: Reader) {
    !r.NotReading? && !EmptyHanded(r)
  }

  /**
   * No consumer that has claimed something ever meets an unset entry, a null block or an empty slot: each of its steps
   * brings it nearer to its end.
   */
  lemma ConsumersGoOn<V>(s: State<V>, t: nat, max: nat)
    requires Inv(s) && t < |s.readers| && AtWork(s.readers[t])
    ensures s.Wf() && t < |ConsStep(s, t, max).readers|
    ensures Left(ConsStep(s, t, max).readers[t]) < Left(s.readers[t])
    ensures !EmptyHanded(ConsStep(s, t, max).readers[t])
  {
    hide Inv, TakeStep, FindStep, Left;
    ReaderIs(s, t);
    if s.readers[t].Take? {
      TakeGoesOn(s, t);
    } else {
      FindGoesOn(s, t);
    }
  }

  lemma FindGoesOn<V>(s: State<V>, t: nat)
    requires Inv(s) && t < |s.readers| && Finding(s.readers[t]) && AtWork(s.readers[t])
    ensures s.Wf() && t < |FindStep(s, t).readers| && Left(FindStep(s, t).readers[t]) < Left(s.readers[t])
    ensures AtWork(FindStep(s, t).readers[t])
  {
    hide Inv, ReaderOk, Lookup, Span;
    ReaderIs(s, t);
    FoundOk(s, t);
  }

  lemma TakeGoesOn<V>(s: State<V>, t: nat)
    requires Inv(s) && t < |s.readers| && s.readers[t].Take? && AtWork(s.readers[t])
    ensures s.Wf() && t < |TakeStep(s, t).readers| && Left(TakeStep(s, t).readers[t]) < Left(s.readers[t])
    ensures !EmptyHanded(TakeStep(s, t).readers[t])
  {
    hide Inv, C.Inv, Base, BlockNo, Slot, Range, Wrap, Claim, Reaches, Pos, Ceil;
    ConsumerReady(s, t);
    TakeReady(s, t);
    PastStart(s.B, s.readers[t].i0, BlockNo(s.B, s.readers[t].i0));
  }

  /** How often consumer `t` steps in a run. */
  function StepsOf<V>(evs: seq<Event<V>>, t: nat): nat {
    if evs == [] then 0 else (if evs[0].Consume? && evs[0].t == t then 1 else 0) + StepsOf(evs[1..], t)
  }

  /** Consumer `t` is not reading, and all it ever claimed has been delivered. */
  ghost predicate Finished<V>(s: State<V>, t: nat) {
    && t < |s.readers| && s.readers[t].NotReading?
    && forall x :: 0 <= x < |s.c.owner| && s.c.owner[x] == t ==> x in s.out.Keys
  }

  lemma DoneIsDelivered<V>(s: State<V>, t: nat)
    requires Inv(s) && t < |s.readers| && s.readers[t].NotReading?
    ensures Finished(s, t)
  {
    hide Inv, C.Inv, Lists, RingOk, Owns, Filled, Readers, ProdOk;
    Pieces(s);
    IdleReader(s, t);
    forall x: nat | x < |s.c.owner| && s.c.owner[x] == t
      ensures x in s.out.Keys
    {
      assert Fin(s.B, s.doneIn, x);
      Join(s.B, x);
    }
    hide Base, BlockNo, Slot;
  }

  lemma NextNearer<V>(s: State<V>, ev: Event<V>, t: nat)
    requires Inv(s) && t < |s.readers| && AtWork(s.readers[t])
    ensures s.Wf() && t < |Next(s, ev).readers| && !EmptyHanded(Next(s, ev).readers[t])
    ensures Left(Next(s, ev).readers[t]) + (if ev.Consume? && ev.t == t then 1 else 0) <= Left(s.readers[t])
  {
    hide Inv, C.Inv, ProdStep, ConsStep, Left, Taken, EmptyHanded;
    Pieces(s);
    match ev
    case Produce(v, ok, id) => ProdKeepsWf(s, v, ok, id);
    case Consume(j, max) =>
      if j == t {
        ConsumersGoOn(s, t, max);
      } else if j < |s.readers| {
        ConsFrame(s, j, max);
      }
  }

  lemma {:induction false} RunFinishes<V>(s: State<V>, evs: seq<Event<V>>, t: nat) returns (n: nat)
    requires Inv(s) && s.Wf() && t < |s.readers| && !EmptyHanded(s.readers[t]) && Left(s.readers[t]) <= StepsOf(evs, t)
    ensures n <= |evs| && Finished(Run(s, evs[..n]), t)
    decreases |evs|
  {
    hide Inv, Next, Finished, Left, EmptyHanded;
    if s.readers[t].NotReading? {
      n := 0;
      DoneIsDelivered(s, t);
    } else {
      assert Left(s.readers[t]) > 0 by { LeftPositive(s.readers[t]); }
      var z := Next(s, evs[0]);
      NextKeepsInv(s, evs[0]);
      NextKeepsWf(s, evs[0]);
      NextNearer(s, evs[0], t);
      var m := RunFinishes(z, evs[1..], t);
      n := m + 1;
      assert evs[..n][1..] == evs[1..][..m] && evs[..n][0] == evs[0];
    }
  }

  lemma LeftPositive(r: Reader)
    ensures !r.NotReading? ==> Left(r) > 0
  {
  }

  /**
   * Once it has claimed something, a dequeue is wait-free: within a number of its own steps fixed by how much it
   * claimed, and whatever the producer and the other consumers do between them, it has delivered all it claimed.
   */
  lemma DequeueIsWaitFree<V>(B: nat, limit: Option<nat>, size: nat, pool: nat, n: nat, evs: seq<Event<V>>,
      more: seq<Event<V>>, t: nat)
    requires B > 0 && size > 0 && t < |Reached(B, limit, size, pool, n, evs).readers|
    requires var r := Reached(B, limit, size, pool, n, evs).readers[t];
      !EmptyHanded(r) && Left(r) <= StepsOf(more, t)
    ensures Reached(B, limit, size, pool, n, evs).Wf()
    ensures exists m :: 0 <= m <= |more| && Finished(Run(Reached(B, limit, size, pool, n, evs), more[..m]), t)
  {
    hide Inv, Reached, Finished, Left, StepsOf, Run, EmptyHanded;
    ReachedInv(B, limit, size, pool, n, evs);
    Pieces(Reached(B, limit, size, pool, n, evs));
    var m := RunFinishes(Reached(B, limit, size, pool, n, evs), more, t);
  }
}
