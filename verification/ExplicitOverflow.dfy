/**
 * A run in which an explicit producer's sub-queue comes to hold twice its limit: blocks of two, a limit of two
 * elements, two consumers of which one stays idle.
 */
module ExplicitOverflow {
  import opened Common
  import opened Blocks
  import C = DequeueCounters
  import opened ExplicitQueue
  import opened ExplicitInvariant
  import opened ExplicitRuns
  import opened ExplicitLimit

  type S = State<nat>

  function Start(): S {
    Init(2, Some(2), 2, 0, 2)
  }

  ghost predicate Leads(evs: seq<Event<nat>>, z: S) {
    Start().Wf() && Run(Start(), evs) == z
  }

  lemma {:induction false} RunConcat(s: S, a: seq<Event<nat>>, b: seq<Event<nat>>)
    requires s.Wf()
    ensures Run(s, a).Wf() && Run(s, a + b) == Run(Run(s, a), b)
    decreases |a|
  {
    hide Next;
    if a == [] {
      assert a + b == b;
    } else {
      NextKeepsWf(s, a[0]);
      RunConcat(Next(s, a[0]), a[1..], b);
      assert (a + b)[1..] == a[1..] + b;
    }
  }

  lemma Step(evs: seq<Event<nat>>, s: S, ev: Event<nat>, z: S) returns (more: seq<Event<nat>>)
    requires Leads(evs, s) && s.Wf() && Next(s, ev) == z
    ensures Leads(more, z) && z.Wf()
  {
    hide Next;
    NextKeepsWf(s, ev);
    more := evs + [ev];
    RunConcat(Start(), evs, [ev]);
    assert Run(s, [ev]) == Run(z, [ev][1..]);
  }

  // ---------------------------------------------------------------- the stages of the run

  /** Elements 1 and 2 are enqueued, in block 0. */
  function FirstFull(): S {
    State(2, Some(2), C.State(2, 0, 0, 0, [C.Idle, C.Idle], [], []),
          [Index(2, 0, [Entry(0, Some(0)), Entry(0, None)], 0)], 1, 1, [Block([Some(1), Some(2)], {}, 0)], {}, Some(0),
          EIdle, [NotReading, NotReading], [1, 2], map[], [0], [0], [{}])
  }

  /** The consumer has claimed both, and has yet to take them. */
  function FirstClaimed(): S {
    FirstFull().(c := C.State(2, 2, 2, 0, [C.Claimed(0, 2), C.Idle], [C.Won, C.Won], [0, 0]),
      readers := [LoadIndex(0, 2), NotReading])
  }

  /** Block 0 is not empty, so elements 3 and 4 are in a second block from the pool: no claimed element counts. */
  function SecondFull(): S {
    FirstClaimed().(
      c := FirstClaimed().c.(tail := 4), indices := [Index(2, 1, [Entry(0, Some(0)), Entry(2, Some(1))], 0)],
      prFront := 0, used := 2, blocks := [Block([Some(1), Some(2)], {}, 1), Block([Some(3), Some(4)], {}, 0)],
      tailBlock := Some(1), enq := [1, 2, 3, 4], ring := [0, 1], blockOf := [0, 1], doneIn := [{}, {}])
  }

  /** Elements 1 and 2 are taken, and block 0 is empty. */
  function FirstTaken(): S {
    SecondFull().(
      c := SecondFull().c.(threads := [C.Idle, C.Idle]), readers := [NotReading, NotReading],
      blocks := [Block([None, None], {0, 1}, 1), Block([Some(3), Some(4)], {}, 0)],
      out := map[0 := 1, 1 := 2], doneIn := [{0, 1}, {}])
  }

  // ---------------------------------------------------------------- from stage to stage

  /** Listing the tail block in slot `f` of the only index, and exposing it. */
  lemma List(before: seq<Event<nat>>, s: S, v: nat, f: nat, g: Index) returns (evs: seq<Event<nat>>, z: S)
    requires Leads(before, s) && s.Wf() && s.prod == EWrite(v) && |s.indices| == 1 && s.prFront == f < s.indices[0].size
    requires g == s.indices[0].(front := f, entries := s.indices[0].entries[f := Entry(s.c.tail, s.tailBlock)])
    ensures z == s.(prod := EBuild(v), indices := [g], prFront := Wrap(g.size, f + 1)) && Leads(evs, z) && z.Wf()
  {
    hide Wrap;
    var p: Event<nat> := Produce(v, true, 0);
    var listed := s.(prod := EFront(v), indices := [g.(front := s.indices[0].front)]);
    evs := Step(before, s, p, listed);
    z := s.(prod := EBuild(v), indices := [g], prFront := Wrap(g.size, f + 1));
    evs := Step(evs, listed, p, z);
  }

  /** Constructing element `v` in the tail block, which makes the blocks `bs`, and publishing it. */
  lemma Build(before: seq<Event<nat>>, s: S, v: nat, bs: seq<Block<nat>>) returns (evs: seq<Event<nat>>, z: S)
    requires Leads(before, s) && s.Wf() && s.prod == EBuild(v) && s.tailBlock.Some? && s.tailBlock.value < |s.blocks|
    requires var b, o := s.tailBlock.value, Slot(s.B, s.c.tail);
      o < |s.blocks[b].cells| && bs == s.blocks[b := s.blocks[b].(cells := s.blocks[b].cells[o := Some(v)])]
    ensures z == s.(prod := EIdle, blocks := bs, c := s.c.(tail := s.c.tail + 1), enq := s.enq + [v])
    ensures Leads(evs, z) && z.Wf()
  {
    hide Slot;
    var p: Event<nat> := Produce(v, true, 0);
    var built := s.(prod := EPublish(v), blocks := bs);
    evs := Step(before, s, p, built);
    z := s.(prod := EIdle, blocks := bs, c := s.c.(tail := s.c.tail + 1), enq := s.enq + [v]);
    evs := Step(evs, built, p, z);
  }

  lemma BuildNext(before: seq<Event<nat>>, s: S, v: nat, bs: seq<Block<nat>>) returns (evs: seq<Event<nat>>, z: S)
    requires Leads(before, s) && s.Wf() && s.prod == EIdle && s.tailBlock.Some? && s.tailBlock.value < |s.blocks|
    requires var b, o := s.tailBlock.value, Slot(s.B, s.c.tail);
      0 < o < |s.blocks[b].cells| && bs == s.blocks[b := s.blocks[b].(cells := s.blocks[b].cells[o := Some(v)])]
    ensures z == s.(prod := EIdle, blocks := bs, c := s.c.(tail := s.c.tail + 1), enq := s.enq + [v])
    ensures Leads(evs, z) && z.Wf()
  {
    hide Slot;
    var begun := s.(prod := EBuild(v));
    evs := Step(before, s, Produce(v, true, 0), begun);
    evs, z := Build(evs, begun, v, bs);
  }

  lemma StartFirst() returns (evs: seq<Event<nat>>, z: S)
    ensures z == Start().(prod := EWrite(1), used := 1, blocks := [Block([None, None], {}, 0)], tailBlock := Some(0),
                          ring := [0], blockOf := [0], doneIn := [{}])
    ensures Leads(evs, z) && z.Wf()
  {
    var p: Event<nat> := Produce(1, true, 0);
    var s0 := Start();
    assert Run(s0, []) == s0;
    var s1 := s0.(prod := ENext(1));
    evs := Step([], s0, p, s1);
    var s2 := s1.(prod := EHead(1));
    evs := Step(evs, s1, p, s2);
    var s3 := s2.(prod := ETake(1));
    evs := Step(evs, s2, p, s3);
    z := s3.(prod := EWrite(1), used := 1, blocks := [Block([None, None], {}, 0)], tailBlock := Some(0),
             ring := [0], blockOf := [0], doneIn := [{}]);
    assert Cells<nat>(2) == [None, None];
    assert z.blocks == Next(s3, p).blocks;
    evs := Step(evs, s3, p, z);
  }

  lemma FillFirst() returns (evs: seq<Event<nat>>)
    ensures Leads(evs, FirstFull()) && FirstFull().Wf()
  {
    hide Leads;
    var s: S;
    evs, s := StartFirst();
    assert Unset(2)[0 := Entry(0, Some(0))] == [Entry(0, Some(0)), Entry(0, None)];
    evs, s := List(evs, s, 1, 0, Index(2, 0, [Entry(0, Some(0)), Entry(0, None)], 0));
    var cells: seq<Option<nat>> := [None, None];
    assert cells[0 := Some(1)] == [Some(1), None];
    evs, s := Build(evs, s, 1, [Block([Some(1), None], {}, 0)]);
    assert [Some(1), None][1 := Some(2)] == [Some(1), Some(2)];
    evs, s := BuildNext(evs, s, 2, [Block([Some(1), Some(2)], {}, 0)]);
    assert s.enq == [1, 2];
    assert s.c == FirstFull().c && s.readers == [NotReading, NotReading];
  }

  /** Consumer `t` steps its counters to `c`. */
  lemma Counting(before: seq<Event<nat>>, s: S, t: nat, max: nat, c: C.State) returns (evs: seq<Event<nat>>, z: S)
    requires Leads(before, s) && s.Wf() && t < |s.readers| && s.readers[t].NotReading? && |s.c.threads| == |s.readers|
    requires c == C.Step(s.c, t, max) && |c.threads| == |s.readers| && !c.threads[t].Claimed?
    ensures z == s.(c := c) && Leads(evs, z) && z.Wf()
  {
    hide C.Step;
    z := s.(c := c);
    evs := Step(before, s, Consume(t, max), z);
  }

  lemma ClaimFirst() returns (evs: seq<Event<nat>>)
    ensures Leads(evs, FirstClaimed()) && FirstClaimed().Wf()
  {
    evs := FillFirst();
    var s := FirstFull();
    evs, s := Counting(evs, s, 0, 2, C.State(2, 0, 0, 0, [C.LoadTail(2), C.Idle], [], []));
    evs, s := Counting(evs, s, 0, 2, C.State(2, 0, 0, 0, [C.LoadOver(2, 2), C.Idle], [], []));
    evs, s := Counting(evs, s, 0, 2, C.State(2, 0, 0, 0, [C.LoadCount(2, 2, 0), C.Idle], [], []));
    evs, s := Counting(evs, s, 0, 2, C.State(2, 0, 0, 0, [C.Bump(2, 0), C.Idle], [], []));
    assert [] + C.Repeat(2, C.Pending) == [C.Pending, C.Pending];
    evs, s := Counting(evs, s, 0, 2, C.State(2, 0, 2, 0, [C.Recheck(2, 0, 0), C.Idle], [C.Pending, C.Pending], []));
    assert C.Decide([C.Pending, C.Pending], 0, 2, 2) == [C.Won, C.Won];
    evs, s := Counting(evs, s, 0, 2, C.State(2, 0, 2, 0, [C.Advance(2), C.Idle], [C.Won, C.Won], []));
    assert C.Step(s.c, 0, 2) == FirstClaimed().c by {
      assert [] + C.Repeat(2, 0) == [0, 0];
    }
    evs := Step(evs, s, Consume(0, 2), FirstClaimed());
  }

  /** The check lets another block be taken: the elements claimed and not taken do not count. */
  lemma CheckSecond() returns (evs: seq<Event<nat>>, s: S)
    ensures s == FirstClaimed().(prod := ETake(3)) && Leads(evs, s) && s.Wf()
  {
    evs := ClaimFirst();
    var p: Event<nat> := Produce(3, true, 1);
    var s0 := FirstClaimed();
    var s1 := s0.(prod := ENext(3));
    evs := Step(evs, s0, p, s1);
    var s2 := s1.(prod := EHead(3));
    evs := Step(evs, s1, p, s2);
    s := s2.(prod := ETake(3));
    evs := Step(evs, s2, p, s);
  }

  lemma StartSecond() returns (evs: seq<Event<nat>>, z: S)
    ensures z == FirstClaimed().(
      prod := EWrite(3), used := 2, blocks := [Block([Some(1), Some(2)], {}, 1), Block([None, None], {}, 0)],
      tailBlock := Some(1), ring := [0, 1], blockOf := [0, 1], doneIn := [{}, {}])
    ensures Leads(evs, z) && z.Wf()
  {
    hide Leads;
    var p: Event<nat> := Produce(3, true, 1);
    var s: S;
    evs, s := CheckSecond();
    z := s.(prod := EWrite(3), used := 2, tailBlock := Some(1), ring := [0, 1], blockOf := [0, 1],
            blocks := [Block([Some(1), Some(2)], {}, 1), Block([None, None], {}, 0)], doneIn := [{}, {}]);
    assert Cells<nat>(2) == [None, None];
    assert z.blocks == Next(s, p).blocks;
    evs := Step(evs, s, p, z);
  }

  lemma FillSecond() returns (evs: seq<Event<nat>>)
    ensures Leads(evs, SecondFull()) && SecondFull().Wf()
  {
    hide Leads;
    var s: S;
    evs, s := StartSecond();
    var b := Block([Some(1), Some(2)], {}, 1);
    assert [Entry(0, Some(0)), Entry(0, None)][1 := Entry(2, Some(1))] == [Entry(0, Some(0)), Entry(2, Some(1))];
    evs, s := List(evs, s, 3, 1, Index(2, 1, [Entry(0, Some(0)), Entry(2, Some(1))], 0));
    var cells: seq<Option<nat>> := [None, None];
    assert cells[0 := Some(3)] == [Some(3), None];
    evs, s := Build(evs, s, 3, [b, Block([Some(3), None], {}, 0)]);
    assert [Some(3), None][1 := Some(4)] == [Some(3), Some(4)];
    evs, s := BuildNext(evs, s, 4, [b, Block([Some(3), Some(4)], {}, 0)]);
    assert s.enq == [1, 2, 3, 4];
  }

  /** Finding the block of index 0. */
  lemma FindFirst() returns (evs: seq<Event<nat>>, s: S)
    ensures s == SecondFull().(readers := [Take(0, 0, 2, 0, 0, 0), NotReading]) && Leads(evs, s) && s.Wf()
  {
    evs := FillSecond();
    var c: Event<nat> := Consume(0, 2);
    var s0 := SecondFull();
    var s1 := s0.(readers := [LoadFront(0, 2, 0), NotReading]);
    evs := Step(evs, s0, c, s1);
    var s2 := s1.(readers := [LoadBase(0, 2, 0, 1), NotReading]);
    evs := Step(evs, s1, c, s2);
    var s3 := s2.(readers := [LoadBlock(0, 2, 0, 0), NotReading]);
    evs := Step(evs, s2, c, s3);
    s := s3.(readers := [Take(0, 0, 2, 0, 0, 0), NotReading]);
    evs := Step(evs, s3, c, s);
  }

  /** Moving element `v` out of slot `i` of block 0 leaves its cells `cells`. */
  lemma MoveOut(before: seq<Event<nat>>, s: S, i: nat, v: nat, cells: seq<Option<nat>>)
    returns (evs: seq<Event<nat>>, z: S)
    requires Leads(before, s) && s.Wf() && s.readers == [Take(0, i, 2, 0, 0, 0), NotReading] && i < 2 == s.B
    requires |s.blocks| > 0 && |s.indices| > 0 && |s.doneIn| > 0
    requires |s.blocks[0].cells| == 2 && s.blocks[0].cells[i] == Some(v) && cells == s.blocks[0].cells[i := None]
    ensures z == s.(readers := [Take(0, i + 1, 2, 0, 0, 0), NotReading],
      blocks := s.blocks[0 := s.blocks[0].(cells := cells)],
                    out := s.out[i := v])
    ensures Leads(evs, z) && z.Wf()
  {
    z := s.(readers := [Take(0, i + 1, 2, 0, 0, 0), NotReading], blocks := s.blocks[0 := s.blocks[0].(cells := cells)],
            out := s.out[i := v]);
    evs := Step(before, s, Consume(0, 2), z);
  }

  lemma TakeFirst() returns (evs: seq<Event<nat>>)
    ensures Leads(evs, FirstTaken()) && FirstTaken().Wf()
  {
    hide Leads;
    var s: S;
    evs, s := FindFirst();
    evs, s := MoveOut(evs, s, 0, 1, [None, Some(2)]);
    evs, s := MoveOut(evs, s, 1, 2, [None, None]);
    var c: Event<nat> := Consume(0, 2);
    assert s.out == map[0 := 1, 1 := 2];
    assert Range(0, 2) == {0, 1};
    assert FirstTaken().blocks == Next(s, c).blocks;
    assert FirstTaken().doneIn == Next(s, c).doneIn;
    evs := Step(evs, s, c, FirstTaken());
  }

  /** The producer turns to block 0 for element 5. */
  lemma ReuseFirst() returns (evs: seq<Event<nat>>, s: S)
    ensures s == FirstTaken().(prod := ENext(5)) && Leads(evs, s) && s.Wf() && Reusing(s)
  {
    evs := TakeFirst();
    s := FirstTaken().(prod := ENext(5));
    evs := Step(evs, FirstTaken(), Produce(5, true, 0), s);
    assert |{0, 1}| == 2;
  }

  /**
   * The limit is not kept: here the elements from the head to the tail come to be four, twice the limit, because block
   * 0 is reused without a check while elements 3 and 4 are still in block 1.
   */
  lemma LimitIsExceeded()
    ensures exists evs :: var s := Reached<nat>(2, Some(2), 2, 0, 2, evs); s.c.tail == s.c.head + 4
  {
    hide Inv, Next, Reusing;
    var evs, s := ReuseFirst();
    InitInv<nat>(2, Some(2), 2, 0, 2);
    RunKeepsInv(Start(), evs);
    var more := ReuseKeepsLimitIffFits(s, 5);
    RunConcat(Start(), evs, more);
    assert Reached<nat>(2, Some(2), 2, 0, 2, evs + more) == Run(s, more);
  }
}
