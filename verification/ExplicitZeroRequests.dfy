/**
 * Dequeues that ask for no elements, from an explicit producer. They claim none, and still enter the block loop once.
 * That takes nothing and marks nothing, and can be at an index past the last block: a run in which consumer 0 asks for
 * none while consumer 1 claims both elements of block 0.
 */
module ExplicitZeroRequests {
  import opened Common
  import opened Blocks
  import C = DequeueCounters
  import opened Claims
  import opened ExplicitQueue
  import opened ExplicitInvariant
  import opened ExplicitReads
  import opened ExplicitRuns
  import opened ExplicitOverflow

  /** Consumer 0 passed its check with no elements, and consumer 1 stands at `pc`. */
  function ZeroPassed(pc: C.Pc): S {
    FirstFull().(c := C.State(2, 0, 0, 0, [C.Advance(0), pc], [], []))
  }

  /** Consumer 1 has claimed both elements since. */
  function BothClaimed(): S {
    FirstFull().(c := C.State(2, 2, 2, 0, [C.Advance(0), C.Claimed(0, 2)], [C.Won, C.Won], [1, 1]),
      readers := [NotReading, LoadIndex(0, 2)])
  }

  /** Consumer 0 has claimed none, from index 2 on, and stands at `r`. */
  function ZeroAt(r: Reader): S {
    FirstFull().(c := C.State(2, 2, 2, 0, [C.Claimed(2, 0), C.Claimed(0, 2)], [C.Won, C.Won], [1, 1]),
      readers := [r, LoadIndex(0, 2)])
  }

  lemma AskForNone() returns (evs: seq<Event<nat>>)
    ensures Leads(evs, ZeroPassed(C.Idle)) && ZeroPassed(C.Idle).Wf()
  {
    hide Leads;
    evs := FillFirst();
    var s := FirstFull();
    evs, s := Counting(evs, s, 0, 0, C.State(2, 0, 0, 0, [C.LoadTail(0), C.Idle], [], []));
    evs, s := Counting(evs, s, 0, 0, C.State(2, 0, 0, 0, [C.LoadOver(0, 2), C.Idle], [], []));
    evs, s := Counting(evs, s, 0, 0, C.State(2, 0, 0, 0, [C.LoadCount(0, 2, 0), C.Idle], [], []));
    evs, s := Counting(evs, s, 0, 0, C.State(2, 0, 0, 0, [C.Bump(0, 0), C.Idle], [], []));
    assert [] + C.Repeat(0, C.Pending) == [];
    evs, s := Counting(evs, s, 0, 0, C.State(2, 0, 0, 0, [C.Recheck(0, 0, 0), C.Idle], [], []));
    assert C.Decide([], 0, 0, 0) == [];
    evs, s := Counting(evs, s, 0, 0, C.State(2, 0, 0, 0, [C.Advance(0), C.Idle], [], []));
  }

  lemma ClaimBoth() returns (evs: seq<Event<nat>>)
    ensures Leads(evs, BothClaimed()) && BothClaimed().Wf()
  {
    hide Leads;
    evs := AskForNone();
    var s, z := ZeroPassed(C.Idle), C.Advance(0);
    evs, s := Counting(evs, s, 1, 2, C.State(2, 0, 0, 0, [z, C.LoadTail(2)], [], []));
    evs, s := Counting(evs, s, 1, 2, C.State(2, 0, 0, 0, [z, C.LoadOver(2, 2)], [], []));
    evs, s := Counting(evs, s, 1, 2, C.State(2, 0, 0, 0, [z, C.LoadCount(2, 2, 0)], [], []));
    evs, s := Counting(evs, s, 1, 2, C.State(2, 0, 0, 0, [z, C.Bump(2, 0)], [], []));
    assert [] + C.Repeat(2, C.Pending) == [C.Pending, C.Pending];
    evs, s := Counting(evs, s, 1, 2, C.State(2, 0, 2, 0, [z, C.Recheck(2, 0, 0)], [C.Pending, C.Pending], []));
    assert C.Decide([C.Pending, C.Pending], 0, 2, 2) == [C.Won, C.Won];
    evs, s := Counting(evs, s, 1, 2, C.State(2, 0, 2, 0, [z, C.Advance(2)], [C.Won, C.Won], []));
    assert C.Step(s.c, 1, 2) == BothClaimed().c by {
      assert [] + C.Repeat(2, 1) == [1, 1];
    }
    evs := Step(evs, s, Consume(1, 2), BothClaimed());
  }

  /** Consumer 0 is left with an index no block has been started for, and looks it up. */
  lemma LookUp() returns (evs: seq<Event<nat>>)
    ensures Leads(evs, ZeroAt(LoadBlock(2, 2, 0, 1))) && ZeroAt(LoadBlock(2, 2, 0, 1)).Wf()
  {
    hide Leads;
    evs := ClaimBoth();
    var c: Event<nat> := Consume(0, 0);
    assert [1, 1] + C.Repeat(0, 0) == [1, 1];
    evs := Step(evs, BothClaimed(), c, ZeroAt(LoadIndex(2, 2)));
    evs := Step(evs, ZeroAt(LoadIndex(2, 2)), c, ZeroAt(LoadFront(2, 2, 0)));
    evs := Step(evs, ZeroAt(LoadFront(2, 2, 0)), c, ZeroAt(LoadBase(2, 2, 0, 0)));
    evs := Step(evs, ZeroAt(LoadBase(2, 2, 0, 0)), c, ZeroAt(LoadBlock(2, 2, 0, 1)));
  }

  /** Consumer `t` is about to load the block of an entry that was never set. */
  ghost predicate AtUnset<V>(s: State<V>, t: nat) {
    && t < |s.readers| && s.readers[t].LoadBlock?
    && var r := s.readers[t];
    && r.hd < |s.indices| && r.idx < |s.indices[r.hd].entries| && s.indices[r.hd].entries[r.idx].block.None?
  }

  lemma MeetsUnset() returns (evs: seq<Event<nat>>)
    ensures AtUnset(Reached<nat>(2, Some(2), 2, 0, 2, evs), 0)
  {
    evs := LookUp();
    assert Reached<nat>(2, Some(2), 2, 0, 2, evs) == ZeroAt(LoadBlock(2, 2, 0, 1));
  }

  // ---------------------------------------------------------------- the condition

  /** Each request of the run is for at least `m` elements. */
  predicate AtLeast<V>(evs: seq<Event<V>>, m: nat) {
    forall k :: 0 <= k < |evs| && evs[k].Consume? ==> evs[k].max >= m
  }

  lemma NextAsks<V>(s: State<V>, ev: Event<V>)
    requires s.Wf() && C.AllAsk(s.c) && (ev.Consume? ==> ev.max > 0)
    ensures C.AllAsk(Next(s, ev).c)
  {
    hide C.Step, C.Asks, Lookup, Base, BlockNo, Slot, Range, Wrap, Full, Linked;
    if ev.Consume? && ev.t < |s.readers| {
      C.StepAsks(s.c, ev.t, ev.max);
    }
    assert C.Asks(C.Idle) by { IdleAsks(); }
  }

  lemma IdleAsks()
    ensures C.Asks(C.Idle)
  {
  }

  lemma {:induction false} RunAsks<V>(s: State<V>, evs: seq<Event<V>>, m: nat)
    requires s.Wf() && C.AllAsk(s.c) && AtLeast(evs, m) && m > 0
    ensures C.AllAsk(Run(s, evs).c)
    decreases |evs|
  {
    hide Next, C.AllAsk;
    if evs != [] {
      NextKeepsWf(s, evs[0]);
      NextAsks(s, evs[0]);
      RunAsks(Next(s, evs[0]), evs[1..], m);
    }
  }

  /** In a run whose requests ask for something no consumer meets an unset entry, whatever the sizes. */
  lemma AskingIsSound<V>(B: nat, limit: Option<nat>, size: nat, pool: nat, n: nat, evs: seq<Event<V>>, m: nat, t: nat)
    requires B > 0 && size > 0 && AtLeast(evs, m) && m > 0
    ensures !AtUnset(Reached(B, limit, size, pool, n, evs), t)
  {
    hide Reached, Inv, Run, AtLeast;
    var s := Reached(B, limit, size, pool, n, evs);
    if t < |s.readers| && s.readers[t].LoadBlock? {
      ReachedInv(B, limit, size, pool, n, evs);
      ReachedAsks(B, limit, size, pool, n, evs, m);
      HoldsSome(s, t);
      LookupIsRight(B, limit, size, pool, n, evs, t);
    }
  }

  lemma ReachedAsks<V>(B: nat, limit: Option<nat>, size: nat, pool: nat, n: nat, evs: seq<Event<V>>, m: nat)
    requires B > 0 && size > 0 && AtLeast(evs, m) && m > 0
    ensures C.AllAsk(Reached(B, limit, size, pool, n, evs).c)
  {
    hide Run, AtLeast, Inv;
    InitInv<V>(B, limit, size, pool, n);
    RunAsks(Init<V>(B, limit, size, pool, n), evs, m);
  }

  lemma HoldsSome<V>(s: State<V>, t: nat)
    requires Inv(s) && C.AllAsk(s.c) && t < |s.readers| && s.readers[t].LoadBlock?
    ensures s.readers[t].i < s.readers[t].e
  {
    hide Inv, Claim, Reaches;
    ReaderIs(s, t);
    assert C.Asks(s.c.threads[t]);
  }

  /** That requests are for at least `m` elements keeps every run from unset entries if and only if `m` is not zero. */
  lemma SoundIffAsking(m: nat)
    ensures (forall evs: seq<Event<nat>>, t: nat :: AtLeast(evs, m) ==>
      !AtUnset(Reached<nat>(2, Some(2), 2, 0, 2, evs), t)) <==> m > 0
  {
    hide Reached, AtUnset;
    if m > 0 {
      forall evs: seq<Event<nat>>, t: nat | AtLeast(evs, m)
        ensures !AtUnset(Reached<nat>(2, Some(2), 2, 0, 2, evs), t)
      {
        AskingIsSound<nat>(2, Some(2), 2, 0, 2, evs, m, t);
      }
    } else {
      var evs := MeetsUnset();
      assert AtLeast(evs, 0);
    }
  }
}
