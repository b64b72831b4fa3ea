/**
 * Dequeues that ask for no elements. They claim none, and still enter the block loop once: a run with two elements,
 * blocks of two and two consumers, 0 asking for none and 1 for both.
 */
module ImplicitZeroRequests {
  import opened Common
  import opened Blocks
  import C = DequeueCounters
  import opened ImplicitQueue
  import opened ImplicitInvariant
  import opened ImplicitRuns
  import opened ImplicitGuarantees

  type S = State<nat>

  function Start(): S {
    Init(2, None, 2, 2)
  }

  ghost predicate Leads(evs: seq<Event<nat>>, z: S) {
    Start().Wf() && Run(Start(), evs) == z
  }

  lemma {:induction false} RunConcat(s: S, a: seq<Event<nat>>, b: seq<Event<nat>>)
    requires s.Wf()
    ensures Run(s, a).Wf() && Run(s, a + b) == Run(Run(s, a), b)
    decreases |a|
  {
    hide Next;
    if a == [] {
      assert a + b == b;
    } else {
      NextKeepsWf(s, a[0]);
      RunConcat(Next(s, a[0]), a[1..], b);
      assert (a + b)[1..] == a[1..] + b;
    }
  }

  lemma Step(evs: seq<Event<nat>>, s: S, ev: Event<nat>, z: S) returns (more: seq<Event<nat>>)
    requires Leads(evs, s) && s.Wf() && Next(s, ev) == z
    ensures Leads(more, z) && z.Wf()
  {
    hide Next;
    NextKeepsWf(s, ev);
    more := evs + [ev];
    RunConcat(Start(), evs, [ev]);
    assert Run(s, [ev]) == Run(z, [ev][1..]);
  }

  // ---------------------------------------------------------------- the stages of the run

  /** Elements 1 and 2 are enqueued, in block 0. */
  function Full(): S {
    State(2, None, C.State(2, 0, 0, 0, [C.Idle, C.Idle], [], []), [Header(2, 0, [0, 1], 0)],
          [Entry(Some(0), Some(0)), Entry(None, None)], [Block([Some(1), Some(2)], 0)], {}, Some(0), PIdle,
          [NotReading, NotReading], [1, 2], map[], 1, [0], 0, [0], [Open], [{}])
  }

  /** Consumer 0 has claimed no elements, and stands at `r`. */
  function ZeroAt(r: Reader): S {
    Full().(c := Full().c.(threads := [C.Claimed(0, 0), C.Idle]), readers := [r, NotReading])
  }

  /** Consumer 1 has claimed both elements meanwhile. */
  function BothClaimed(r: Reader, q: Reader): S {
    ZeroAt(r).(c := C.State(2, 2, 2, 0, [C.Claimed(0, 0), C.Claimed(0, 2)], [C.Won, C.Won], [1, 1]), readers := [r, q])
  }

  /** Consumer 1 has taken them, and has freed block 0. */
  function BlockFreed(r: Reader): S {
    BothClaimed(r, NotReading).(
      c := BothClaimed(r, NotReading).c.(threads := [C.Claimed(0, 0), C.Idle]),
      entries := [Entry(Some(0), None), Entry(None, None)], blocks := [Block([None, None], 2)], free := {0},
      out := map[0 := 1, 1 := 2], phase := [Gone], finIn := [{0, 1}])
  }

  // ---------------------------------------------------------------- from stage to stage

  lemma Enter() returns (evs: seq<Event<nat>>, z: S)
    ensures z == Start().(prod := PBlock([1, 2], [], 0), headers := [Header(2, 0, [0, 1], 0)],
                          entries := [Entry(Some(0), None), Entry(None, None)], entryOf := [0], ins := 1)
    ensures Leads(evs, z) && z.Wf()
  {
    var p: Event<nat> := Produce([1, 2], true, 0);
    var s0 := Start();
    assert seq(2, (p: nat) => p) == [0, 1];
    assert s0.entries == [Entry(None, None), Entry(None, None)];
    assert Run(s0, []) == s0;
    var s1 := s0.(prod := PNext([1, 2], []));
    evs := Step([], s0, p, s1);
    var s2 := s0.(prod := PIndex([1, 2], []));
    evs := Step(evs, s1, p, s2);
    var s3 := s0.(prod := PKey([1, 2], [], 0, 0));
    evs := Step(evs, s2, p, s3);
    evs, z := Key(evs, s3);
  }

  lemma Key(before: seq<Event<nat>>, s3: S) returns (evs: seq<Event<nat>>, z: S)
    requires Leads(before, s3) && s3.Wf() && s3 == Start().(prod := PKey([1, 2], [], 0, 0))
    ensures z == Start().(prod := PBlock([1, 2], [], 0), headers := [Header(2, 0, [0, 1], 0)],
                          entries := [Entry(Some(0), None), Entry(None, None)], entryOf := [0], ins := 1)
    ensures Leads(evs, z) && z.Wf()
  {
    hide BlockStep, UndoStep, FillStep, ConsStep;
    var p: Event<nat> := Produce([1, 2], true, 0);
    assert seq(2, (p: nat) => p) == [0, 1];
    assert Start().entries == [Entry(None, None), Entry(None, None)];
    var s4 := s3.(prod := PTail([1, 2], [], 0, 0), entries := [Entry(Some(0), None), Entry(None, None)]);
    evs := Step(before, s3, p, s4);
    z := s4.(prod := PBlock([1, 2], [], 0), headers := [Header(2, 0, [0, 1], 0)], entryOf := [0], ins := 1);
    evs := Step(evs, s4, p, z);
  }

  lemma Place() returns (evs: seq<Event<nat>>, z: S)
    ensures z == Full().(prod := PBuild([1, 2], [0], 0), c := Start().c, enq := [], tailBlock := None,
                         blocks := [Block([None, None], 0)])
    ensures Leads(evs, z) && z.Wf()
  {
    hide Leads;
    var s: S;
    evs, s := Enter();
    var p: Event<nat> := Produce([1, 2], true, 0);
    assert Empty<nat>(2) == [None, None];
    var s1 := s.(prod := PValue([1, 2], [], 0, 0), blocks := [Block([None, None], 0)]);
    evs := Step(evs, s, p, s1);
    var s2 := s1.(prod := PNext([1, 2], [0]), entries := [Entry(Some(0), Some(0)), Entry(None, None)],
                  blockOf := [0], phase := [Open], finIn := [{}]);
    assert Next(s1, p).prod == PNext([1, 2], [0]) && Next(s1, p).entries == s2.entries;
    assert Next(s1, p).blockOf == [0] && Next(s1, p).phase == [Open] && Next(s1, p).finIn == [{}];
    evs := Step(evs, s1, p, s2);
    z := s2.(prod := PBuild([1, 2], [0], 0));
    evs := Step(evs, s2, p, z);
    assert z.readers == [NotReading, NotReading];
  }

  /** Constructing element `i` of the bulk in block 0 makes its cells `cells`. */
  lemma Build(before: seq<Event<nat>>, s: S, i: nat, cells: seq<Option<nat>>) returns (evs: seq<Event<nat>>, z: S)
    requires Leads(before, s) && s.Wf() && s.prod == PBuild([1, 2], [0], i) && i < 2 == s.B && s.c.tail == 0
    requires |s.blocks| == 1 && |s.blocks[0].cells| == 2 && cells == s.blocks[0].cells[i := Some([1, 2][i])]
    ensures z == s.(prod := PBuild([1, 2], [0], i + 1), blocks := s.blocks[0 := s.blocks[0].(cells := cells)])
    ensures Leads(evs, z) && z.Wf()
  {
    z := s.(prod := PBuild([1, 2], [0], i + 1), blocks := s.blocks[0 := s.blocks[0].(cells := cells)]);
    evs := Step(before, s, Produce([1, 2], true, 0), z);
  }

  lemma Fill() returns (evs: seq<Event<nat>>)
    ensures Leads(evs, Full()) && Full().Wf()
  {
    hide Leads, InsertStep, BlockStep, UndoStep, ConsStep;
    var s: S;
    evs, s := Place();
    var p: Event<nat> := Produce([1, 2], true, 0);
    evs, s := Build(evs, s, 0, [Some(1), None]);
    evs, s := Build(evs, s, 1, [Some(1), Some(2)]);
    var built := Full().(prod := PPublish([1, 2], [0]), c := Start().c, enq := [], tailBlock := None);
    assert s == built.(prod := PBuild([1, 2], [0], 2));
    evs := Step(evs, s, p, built);
    assert [] + [1, 2] == [1, 2];
    assert Start().c.threads == [C.Idle, C.Idle];
    evs := Step(evs, built, p, Full());
  }

  /** Consumer `t` steps its counters to `c`. */
  lemma Counting(before: seq<Event<nat>>, s: S, t: nat, max: nat, c: C.State) returns (evs: seq<Event<nat>>, z: S)
    requires Leads(before, s) && s.Wf() && t < |s.readers| && s.readers[t].NotReading? && |s.c.threads| == |s.readers|
    requires c == C.Step(s.c, t, max) && |c.threads| == |s.readers| && !c.threads[t].Claimed?
    ensures z == s.(c := c) && Leads(evs, z) && z.Wf()
  {
    hide C.Step;
    z := s.(c := c);
    evs := Step(before, s, Consume(t, max), z);
  }

  /** Asking for none: the counters are gone through, and none are claimed. */
  lemma AskForNone() returns (evs: seq<Event<nat>>)
    ensures Leads(evs, ZeroAt(LoadIndex(0, 0))) && ZeroAt(LoadIndex(0, 0)).Wf()
  {
    hide Leads, ProdStep, FindStep, TakeStep;
    evs := Fill();
    var s := Full();
    evs, s := Counting(evs, s, 0, 0, C.State(2, 0, 0, 0, [C.LoadTail(0), C.Idle], [], []));
    evs, s := Counting(evs, s, 0, 0, C.State(2, 0, 0, 0, [C.LoadOver(0, 2), C.Idle], [], []));
    evs, s := Counting(evs, s, 0, 0, C.State(2, 0, 0, 0, [C.LoadCount(0, 2, 0), C.Idle], [], []));
    evs, s := Counting(evs, s, 0, 0, C.State(2, 0, 0, 0, [C.Bump(0, 0), C.Idle], [], []));
    assert [] + C.Repeat(0, C.Pending) == [];
    evs, s := Counting(evs, s, 0, 0, C.State(2, 0, 0, 0, [C.Recheck(0, 0, 0), C.Idle], [], []));
    assert C.Decide([], 0, 0, 0) == [];
    evs, s := Counting(evs, s, 0, 0, C.State(2, 0, 0, 0, [C.Advance(0), C.Idle], [], []));
    assert [] + C.Repeat(0, 0) == [];
    evs := Step(evs, s, Consume(0, 0), ZeroAt(LoadIndex(0, 0)));
  }

  /** It looks index 0 up, as if it had claimed it. */
  lemma LookUp() returns (evs: seq<Event<nat>>)
    ensures Leads(evs, ZeroAt(LoadValue(0, 0, 0, 0))) && ZeroAt(LoadValue(0, 0, 0, 0)).Wf()
  {
    hide Leads;
    evs := AskForNone();
    var c: Event<nat> := Consume(0, 0);
    evs := Step(evs, ZeroAt(LoadIndex(0, 0)), c, ZeroAt(LoadIndexTail(0, 0, 0)));
    evs := Step(evs, ZeroAt(LoadIndexTail(0, 0, 0)), c, ZeroAt(LoadKey(0, 0, 0, 0)));
    evs := Step(evs, ZeroAt(LoadKey(0, 0, 0, 0)), c, ZeroAt(LoadValue(0, 0, 0, 0)));
  }

  /** Wherever consumer 0 stands meanwhile, consumer 1 claims both elements. */
  lemma ClaimBoth(before: seq<Event<nat>>, r: Reader) returns (evs: seq<Event<nat>>)
    requires Leads(before, ZeroAt(r)) && ZeroAt(r).Wf()
    ensures Leads(evs, BothClaimed(r, LoadIndex(0, 2))) && BothClaimed(r, LoadIndex(0, 2)).Wf()
  {
    hide Leads;
    evs := before;
    var s, z := ZeroAt(r), C.Claimed(0, 0);
    evs, s := Counting(evs, s, 1, 2, C.State(2, 0, 0, 0, [z, C.LoadTail(2)], [], []));
    evs, s := Counting(evs, s, 1, 2, C.State(2, 0, 0, 0, [z, C.LoadOver(2, 2)], [], []));
    evs, s := Counting(evs, s, 1, 2, C.State(2, 0, 0, 0, [z, C.LoadCount(2, 2, 0)], [], []));
    evs, s := Counting(evs, s, 1, 2, C.State(2, 0, 0, 0, [z, C.Bump(2, 0)], [], []));
    assert [] + C.Repeat(2, C.Pending) == [C.Pending, C.Pending];
    evs, s := Counting(evs, s, 1, 2, C.State(2, 0, 2, 0, [z, C.Recheck(2, 0, 0)], [C.Pending, C.Pending], []));
    assert C.Decide([C.Pending, C.Pending], 0, 2, 2) == [C.Won, C.Won];
    evs, s := Counting(evs, s, 1, 2, C.State(2, 0, 2, 0, [z, C.Advance(2)], [C.Won, C.Won], []));
    assert C.Step(s.c, 1, 2) == BothClaimed(r, NotReading).c by {
      assert [] + C.Repeat(2, 1) == [1, 1];
    }
    evs := Step(evs, s, Consume(1, 2), BothClaimed(r, LoadIndex(0, 2)));
  }

  lemma FindBoth(before: seq<Event<nat>>, r: Reader) returns (evs: seq<Event<nat>>)
    requires Leads(before, ZeroAt(r)) && ZeroAt(r).Wf()
    ensures Leads(evs, BothClaimed(r, Take(0, 0, 2, 0, 0, 0))) && BothClaimed(r, Take(0, 0, 2, 0, 0, 0)).Wf()
  {
    hide Leads, ProdStep, TakeStep;
    evs := ClaimBoth(before, r);
    var c: Event<nat> := Consume(1, 2);
    evs := Step(evs, BothClaimed(r, LoadIndex(0, 2)), c, BothClaimed(r, LoadIndexTail(0, 2, 0)));
    evs := Step(evs, BothClaimed(r, LoadIndexTail(0, 2, 0)), c, BothClaimed(r, LoadKey(0, 2, 0, 0)));
    evs := Step(evs, BothClaimed(r, LoadKey(0, 2, 0, 0)), c, BothClaimed(r, LoadValue(0, 2, 0, 0)));
    evs := Step(evs, BothClaimed(r, LoadValue(0, 2, 0, 0)), c, BothClaimed(r, Take(0, 0, 2, 0, 0, 0)));
  }

  lemma MoveBoth(before: seq<Event<nat>>, r: Reader) returns (evs: seq<Event<nat>>, z: S)
    requires Leads(before, ZeroAt(r)) && ZeroAt(r).Wf()
    ensures z == BothClaimed(r, Take(0, 2, 2, 0, 0, 0)).(
      blocks := [Block([None, None], 0)], out := map[0 := 1, 1 := 2])
    ensures Leads(evs, z) && z.Wf()
  {
    hide Leads, ProdStep, FindStep;
    evs := FindBoth(before, r);
    var c: Event<nat> := Consume(1, 2);
    var s := BothClaimed(r, Take(0, 0, 2, 0, 0, 0));
    assert [Some(1), Some(2)][0 := None] == [None, Some(2)];
    var s1 := s.(readers := [r, Take(0, 1, 2, 0, 0, 0)], blocks := [Block([None, Some(2)], 0)], out := map[0 := 1]);
    evs := Step(evs, s, c, s1);
    assert [None, Some(2)][1 := None] == [None, None];
    z := s.(readers := [r, Take(0, 2, 2, 0, 0, 0)], blocks := [Block([None, None], 0)], out := map[0 := 1, 1 := 2]);
    evs := Step(evs, s1, c, z);
  }

  lemma TakeBoth(before: seq<Event<nat>>, r: Reader) returns (evs: seq<Event<nat>>, z: S)
    requires Leads(before, ZeroAt(r)) && ZeroAt(r).Wf()
    ensures z == BothClaimed(r, ClearEntry(0, 2, 2, 0, 0, 0)).(
      blocks := [Block([None, None], 2)], out := map[0 := 1, 1 := 2], phase := [Closing(1)], finIn := [{0, 1}])
    ensures Leads(evs, z) && z.Wf()
  {
    hide Leads, ProdStep, FindStep;
    var s: S;
    evs, s := MoveBoth(before, r);
    assert Range(0, 2) == {0, 1};
    z := s.(readers := [r, ClearEntry(0, 2, 2, 0, 0, 0)], blocks := [Block([None, None], 2)], phase := [Closing(1)],
            finIn := [{0, 1}]);
    evs := Step(evs, s, Consume(1, 2), z);
  }

  /** And consumer 1 takes both, and frees the block they were in. */
  lemma FreeBlock(before: seq<Event<nat>>, r: Reader) returns (evs: seq<Event<nat>>)
    requires Leads(before, ZeroAt(r)) && ZeroAt(r).Wf()
    ensures Leads(evs, BlockFreed(r)) && BlockFreed(r).Wf()
  {
    hide Leads;
    var s: S;
    evs, s := TakeBoth(before, r);
    var c: Event<nat> := Consume(1, 2);
    var s1 := s.(readers := [r, GiveBack(0, 2, 2, 0, 0, 0)], entries := [Entry(Some(0), None), Entry(None, None)],
                 phase := [Closed(1)]);
    evs := Step(evs, s, c, s1);
    evs := Step(evs, s1, c, BlockFreed(r));
  }

  /** With the block loaded before: its count is complete, and consumer 0 goes on to free it a second time. */
  lemma FreesAgain() returns (evs: seq<Event<nat>>)
    ensures var z := Reached<nat>(2, None, 2, 2, evs);
      && |z.readers| == 2 && z.readers[0].GiveBack? && z.readers[0].b in z.free
  {
    hide Leads;
    evs := LookUp();
    evs := Step(evs, ZeroAt(LoadValue(0, 0, 0, 0)), Consume(0, 0), ZeroAt(Take(0, 0, 0, 0, 0, 0)));
    evs := FreeBlock(evs, Take(0, 0, 0, 0, 0, 0));
    evs := CompletesAgain(evs);
  }

  lemma CompletesAgain(before: seq<Event<nat>>) returns (evs: seq<Event<nat>>)
    requires Leads(before, BlockFreed(Take(0, 0, 0, 0, 0, 0))) && BlockFreed(Take(0, 0, 0, 0, 0, 0)).Wf()
    ensures var z := Reached<nat>(2, None, 2, 2, evs);
      && |z.readers| == 2 && z.readers[0].GiveBack? && z.readers[0].b in z.free
  {
    var c: Event<nat> := Consume(0, 0);
    var s := BlockFreed(Take(0, 0, 0, 0, 0, 0));
    var s1 := s.(readers := [ClearEntry(0, 0, 0, 0, 0, 0), NotReading], phase := [Closing(0)]);
    assert {0, 1} + Range(0, 0) == {0, 1};
    evs := Step(before, s, c, s1);
    var z := s1.(readers := [GiveBack(0, 0, 0, 0, 0, 0), NotReading], phase := [Closed(0)]);
    evs := Step(evs, s1, c, z);
    assert Reached<nat>(2, None, 2, 2, evs) == z;
  }

  /** With the block not yet loaded: there is none any more, and consumer 0 is at a null block. */
  lemma MeetsNull() returns (evs: seq<Event<nat>>)
    ensures var z := Reached<nat>(2, None, 2, 2, evs);
      && |z.readers| == 2 && z.readers[0] == LoadValue(0, 0, 0, 0) && AtNull(z, 0)
  {
    hide Leads;
    evs := LookUp();
    evs := FreeBlock(evs, LoadValue(0, 0, 0, 0));
    StandsAt(evs, LoadValue(0, 0, 0, 0));
  }

  lemma StandsAt(evs: seq<Event<nat>>, r: Reader)
    requires Leads(evs, BlockFreed(r))
    ensures Reached<nat>(2, None, 2, 2, evs) == BlockFreed(r)
  {
  }

  // ---------------------------------------------------------------- the condition

  /** Consumer `t` is about to load the block of an entry that has none. */
  ghost predicate AtNull<V>(s: State<V>, t: nat) {
    && t < |s.readers| && s.readers[t].LoadValue?
    && var r := s.readers[t];
    && r.hd < |s.headers| && r.idx < |s.headers[r.hd].index| && s.headers[r.hd].index[r.idx] < |s.entries|
    && s.entries[s.headers[r.hd].index[r.idx]].value.None?
  }

  /** Consumer `t` is about to free a block that is free. */
  ghost predicate AtFree<V>(s: State<V>, t: nat) {
    t < |s.readers| && Ending(s.readers[t]) && s.readers[t].b in s.free
  }

  /** No consumer is about to free a block again, or to use a null one. */
  ghost predicate Sound<V>(s: State<V>) {
    forall t :: 0 <= t < |s.readers| ==> !AtNull(s, t) && !AtFree(s, t)
  }

  /** Runs that only ask for something are sound, whatever the sizes. */
  lemma AskingIsSound<V>(B: nat, limit: Option<nat>, cap: nat, n: nat, evs: seq<Event<V>>)
    requires B > 0 && cap > 0 && Asking(Init<V>(B, limit, cap, n), evs)
    ensures Sound(Reached(B, limit, cap, n, evs))
  {
    hide Reached, Asking, Init;
    var s := Reached(B, limit, cap, n, evs);
    forall t: nat | t < |s.readers|
      ensures !AtNull(s, t) && !AtFree(s, t)
    {
      if s.readers[t].LoadValue? { LookupIsRight(B, limit, cap, n, evs, t); }
      if Ending(s.readers[t]) { FreedOnce(B, limit, cap, n, evs, t); }
    }
  }

  /** Each request of the run is for at least `m` elements. */
  predicate AtLeast<V>(evs: seq<Event<V>>, m: nat) {
    forall k :: 0 <= k < |evs| && evs[k].Consume? ==> evs[k].max >= m
  }

  lemma {:induction false} AtLeastAsking<V>(s: State<V>, evs: seq<Event<V>>, m: nat)
    requires s.Wf() && AtLeast(evs, m) && m > 0
    ensures Asking(s, evs)
    decreases |evs|
  {
    hide Next;
    if evs != [] {
      NextKeepsWf(s, evs[0]);
      AtLeastAsking(Next(s, evs[0]), evs[1..], m);
    }
  }

  /** That requests are for at least `m` elements makes every run sound if and only if `m` is not zero. */
  lemma SoundIffAsking(m: nat)
    ensures (forall evs: seq<Event<nat>> :: AtLeast(evs, m) ==> Sound(Reached<nat>(2, None, 2, 2, evs))) <==> m > 0
  {
    hide Reached, Leads;
    if m > 0 {
      forall evs: seq<Event<nat>> | AtLeast(evs, m)
        ensures Sound(Reached<nat>(2, None, 2, 2, evs))
      {
        InitInv<nat>(2, None, 2, 2);
        AtLeastAsking(Start(), evs, m);
        AskingIsSound<nat>(2, None, 2, 2, evs);
      }
    } else {
      var evs := FreesAgain();
      assert AtLeast(evs, 0);
      assert AtFree(Reached<nat>(2, None, 2, 2, evs), 0);
      assert !Sound(Reached<nat>(2, None, 2, 2, evs));
    }
  }
}
