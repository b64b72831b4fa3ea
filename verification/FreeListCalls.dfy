/** What each requisition comes to, by what its own accesses found, over every run. */
module FreeListCalls {
  import opened Common
  import opened FreeList

  /**
   * A thread's call as the schedule began it, whether one of its own accesses found the initial pool exhausted, and
   * whether after that one found the list's head null.
   */
  datatype Trace = NoCall | InCall(call: Call, dry: bool, bare: bool)

  /** The trace of thread `t` with its access to `s`. */
  function During(s: State, tr: Trace, t: nat, c: Call): Trace
    requires t < |s.threads|
  {
    var b := if s.threads[t].Idle? then InCall(c, false, false) else tr;
    if b.NoCall? then b
    else b.(dry := b.dry || s.poolIndex >= s.poolSize, bare := b.bare || (b.dry && s.head.None?))
  }

  /** A call ends when its thread is idle again. */
  function TraceAfter(s: State, tr: Trace, t: nat, m: Move): Trace
    requires s.Shape()
  {
    if m.t != t || t >= |s.threads| then tr
    else if Step(s, t, m.c, m.mallocOk).threads[t].Idle? then NoCall
    else During(s, tr, t, m.c)
  }

  function TraceIn(s: State, tr: Trace, t: nat, schedule: seq<Move>): Trace
    requires s.Shape()
    decreases |schedule|
  {
    if schedule == [] then tr
    else
      var m := schedule[0];
      TraceIn(if m.t < |s.threads| then Step(s, m.t, m.c, m.mallocOk) else s, TraceAfter(s, tr, t, m), t, schedule[1..])
  }

  /** A requisition that goes to the list has found the pool exhausted, and one at a null head the list empty. */
  predicate Sought(tr: Trace, alloc: bool, cur: Option<nat>) {
    tr.InCall? && tr.call == Requisition(alloc) && tr.dry && (cur.None? ==> tr.bare)
  }

  predicate Within(tr: Trace, k: Cont) {
    match k
    case AddReturns => tr.InCall? && tr.call.Release?
    case GetResumes(cur, alloc) => Sought(tr, alloc, cur)
  }

  predicate Traced(pc: Pc, tr: Trace) {
    match pc
    case Idle => tr.NoCall?
    case PoolCheck(alloc) => tr.InCall? && tr.call == Requisition(alloc)
    case PoolTake(alloc) => tr.InCall? && tr.call == Requisition(alloc)
    case GetLoad(alloc) => Sought(tr, alloc, Some(0))
    case GetRefs(h, alloc) => Sought(tr, alloc, Some(h))
    case GetCas(h, _, alloc) => Sought(tr, alloc, Some(h))
    case GetNext(h, alloc) => Sought(tr, alloc, Some(h))
    case GetSwing(h, _, alloc) => Sought(tr, alloc, Some(h))
    case GetTake(_) => tr.InCall? && tr.call.Requisition? && tr.dry
    case GetDrop(_, cur, alloc) => Sought(tr, alloc, cur)
    case GetEmpty(alloc) => Sought(tr, alloc, None)
    case AddFlag(_) => tr.InCall? && tr.call.Release?
    case PutLoad(_, k) => Within(tr, k)
    case PutNext(_, _, k) => Within(tr, k)
    case PutRefs(_, _, k) => Within(tr, k)
    case PutSwing(_, _, k) => Within(tr, k)
    case PutFail(_, _, k) => Within(tr, k)
  }

  lemma ReadTraced(s: State, tr: Trace, t: nat, c: Call)
    requires s.Shape() && t < |s.threads| && Traced(s.threads[t], tr)
    requires s.threads[t].GetLoad? || s.threads[t].GetRefs? || s.threads[t].GetCas? || s.threads[t].GetNext?
    ensures Traced(Get(s, t).threads[t], During(s, tr, t, c))
  {
    hide WordAdd, WordSub;
  }

  lemma TakeTraced(s: State, tr: Trace, t: nat, c: Call)
    requires s.Shape() && t < |s.threads| && Traced(s.threads[t], tr)
    requires s.threads[t].GetSwing? || s.threads[t].GetTake? || s.threads[t].GetDrop?
    ensures Get(s, t).threads[t].Idle? || Traced(Get(s, t).threads[t], During(s, tr, t, c))
  {
    hide WordAdd, WordSub;
  }

  lemma LinkTraced(s: State, tr: Trace, t: nat, c: Call)
    requires s.Shape() && t < |s.threads| && Traced(s.threads[t], tr)
    requires s.threads[t].AddFlag? || s.threads[t].PutLoad? || s.threads[t].PutNext? || s.threads[t].PutRefs?
    ensures Put(s, t).threads[t].Idle? || Traced(Put(s, t).threads[t], During(s, tr, t, c))
  {
    hide WordAdd, WordSub;
  }

  lemma PublishTraced(s: State, tr: Trace, t: nat, c: Call)
    requires s.Shape() && t < |s.threads| && Traced(s.threads[t], tr)
    requires s.threads[t].PutSwing? || s.threads[t].PutFail?
    ensures Put(s, t).threads[t].Idle? || Traced(Put(s, t).threads[t], During(s, tr, t, c))
  {
    hide WordAdd, WordSub;
  }

  lemma AcquireTraced(s: State, tr: Trace, t: nat, c: Call, mallocOk: bool)
    requires s.Shape() && t < |s.threads| && Traced(s.threads[t], tr)
    requires s.threads[t].PoolCheck? || s.threads[t].PoolTake? || s.threads[t].GetEmpty?
    ensures var z := Acquire(s, t, mallocOk); z.threads[t].Idle? || Traced(z.threads[t], During(s, tr, t, c))
  {
  }

  lemma BeginTraced(s: State, tr: Trace, t: nat, c: Call)
    requires s.Shape() && t < |s.threads| && s.threads[t].Idle?
    ensures Begin(s, t, c).threads[t].Idle? || Traced(Begin(s, t, c).threads[t], During(s, tr, t, c))
  {
  }

  lemma StepTraced(s: State, tr: Trace, t: nat, c: Call, mallocOk: bool)
    requires s.Shape() && t < |s.threads| && Traced(s.threads[t], tr)
    ensures Traced(Step(s, t, c, mallocOk).threads[t], TraceAfter(s, tr, t, Move(t, c, mallocOk)))
  {
    var pc := s.threads[t];
    IdleTraced();
    hide Traced, During, Get, Put, Acquire, Begin;
    if pc.Idle? {
      BeginTraced(s, tr, t, c);
    } else if pc.PoolCheck? || pc.PoolTake? || pc.GetEmpty? {
      AcquireTraced(s, tr, t, c, mallocOk);
    } else if pc.AddFlag? || pc.PutLoad? || pc.PutNext? || pc.PutRefs? {
      LinkTraced(s, tr, t, c);
    } else if pc.PutSwing? || pc.PutFail? {
      PublishTraced(s, tr, t, c);
    } else if pc.GetSwing? || pc.GetTake? || pc.GetDrop? {
      TakeTraced(s, tr, t, c);
    } else {
      ReadTraced(s, tr, t, c);
    }
  }

  lemma IdleTraced()
    ensures Traced(Idle, NoCall)
  {
  }

  lemma OthersStay(s: State, j: nat, c: Call, mallocOk: bool, t: nat)
    requires s.Shape() && j < |s.threads| && t < |s.threads| && j != t
    ensures Step(s, j, c, mallocOk).threads[t] == s.threads[t]
  {
    GetStays(s, j, t);
    PutStays(s, j, t);
    hide Get, Put;
  }

  lemma GetStays(s: State, j: nat, t: nat)
    requires s.Shape() && j < |s.threads| && t < |s.threads| && j != t
    ensures Get(s, j).threads[t] == s.threads[t]
  {
    hide WordAdd, WordSub;
  }

  lemma PutStays(s: State, j: nat, t: nat)
    requires s.Shape() && j < |s.threads| && t < |s.threads| && j != t
    ensures Put(s, j).threads[t] == s.threads[t]
  {
    hide WordAdd, WordSub;
  }

  lemma {:induction false} RunTraced(s: State, tr: Trace, t: nat, schedule: seq<Move>)
    requires s.Shape() && t < |s.threads| && Traced(s.threads[t], tr)
    ensures Traced(Run(s, schedule).threads[t], TraceIn(s, tr, t, schedule))
    decreases |schedule|
  {
    hide Step, Traced, During;
    if schedule != [] {
      var m := schedule[0];
      if m.t == t {
        StepTraced(s, tr, t, m.c, m.mallocOk);
      } else if m.t < |s.threads| {
        OthersStay(s, m.t, m.c, m.mallocOk, t);
      }
      var z := if m.t < |s.threads| then Step(s, m.t, m.c, m.mallocOk) else s;
      RunTraced(z, TraceAfter(s, tr, t, m), t, schedule[1..]);
    }
  }

  /** Thread `t` has been handed a block, or goes without one, as its call's accesses entitle it to. */
  ghost predicate Ended(s: State, z: State, t: nat, d: Trace, mallocOk: bool)
    requires d.InCall? && d.call.Requisition?
  {
    || (s.poolIndex < s.poolSize && z.log == s.log + [HandOut(s.poolIndex)])
    || (d.dry && exists n :: 0 <= n < |s.phase| && s.phase[n] == Taken(t) && z.log == s.log + [HandOut(n)])
    || (d.dry && d.bare && d.call.alloc && mallocOk && z.log == s.log + [HandOut(|s.heap|)]
      && z.heap == s.heap + [true])
    || (d.dry && d.bare && !(d.call.alloc && mallocOk) && z.log == s.log)
  }

  /**
   * How a requisition may end, under any contention: with the next block of the initial pool; with a block off the
   * list, once the pool is exhausted; or with a new block, or none if there may be none, once one of its own accesses
   * has found the pool exhausted and a later one the list empty.
   */
  lemma RequisitionEnds(recycle: bool, poolSize: nat, threads: nat, schedule: seq<Move>, t: nat, c: Call,
      mallocOk: bool)
    requires threads + 1 < FLAG && t < threads
    ensures var s := Reached(recycle, poolSize, threads, schedule);
      var z := Step(s, t, c, mallocOk);
      var d := During(s, TraceIn(Init(recycle, poolSize, threads), NoCall, t, schedule), t, c);
      d.InCall? && (z.threads[t].Idle? && d.call.Requisition? ==> Ended(s, z, t, d, mallocOk))
  {
    hide TraceIn, Run;
    var i := Init(recycle, poolSize, threads);
    RunTraced(i, NoCall, t, schedule);
    ReachedInv(recycle, poolSize, threads, schedule);
    EndsHow(Reached(recycle, poolSize, threads, schedule), TraceIn(i, NoCall, t, schedule), t, c, mallocOk);
  }

  lemma EndsHow(s: State, tr: Trace, t: nat, c: Call, mallocOk: bool)
    requires Inv(s) && t < |s.threads| && Traced(s.threads[t], tr)
    ensures var z, d := Step(s, t, c, mallocOk), During(s, tr, t, c);
      d.InCall? && (z.threads[t].Idle? && d.call.Requisition? ==> Ended(s, z, t, d, mallocOk))
  {
    hide WordAdd, WordSub, Chain, Nodes, Threads;
    ThreadAt(s, t);
    var pc := s.threads[t];
    if pc.GetTake? {
      assert s.phase[pc.h] == Taken(t);
    } else if !(pc.PoolCheck? || pc.PoolTake? || pc.GetEmpty?) {
      OnlyTakesEnd(s, tr, t, c, mallocOk);
      hide Step;
    }
  }

  lemma OnlyTakesEnd(s: State, tr: Trace, t: nat, c: Call, mallocOk: bool)
    requires s.Shape() && t < |s.threads| && Traced(s.threads[t], tr)
    requires !(s.threads[t].PoolCheck? || s.threads[t].PoolTake? || s.threads[t].GetEmpty? || s.threads[t].GetTake?)
    ensures var d := During(s, tr, t, c);
      d.InCall? && (d.call.Requisition? ==> !Step(s, t, c, mallocOk).threads[t].Idle?)
  {
    hide WordAdd, WordSub;
  }

  // ---------------------------------------------------------------- the initial pool's index

  /** The threads that have found the pool not exhausted and have yet to move its index. */
  ghost function Takers(s: State): (ts: set<nat>)
    ensures |ts| <= |s.threads|
  {
    var ts := set t | 0 <= t < |s.threads| && s.threads[t].PoolTake?;
    SubsetSize(ts, Range(0, |s.threads|));
    ts
  }

  lemma StepTakers(s: State, t: nat, c: Call, mallocOk: bool)
    requires s.Shape() && t < |s.threads|
    ensures var z := Step(s, t, c, mallocOk);
      && |z.threads| == |s.threads| && z.poolSize == s.poolSize
      && z.poolIndex == s.poolIndex + (if t in Takers(s) then 1 else 0)
      && Takers(z) - {t} == Takers(s) - {t} && (t in Takers(z) ==> t !in Takers(s) && s.poolIndex < s.poolSize)
  {
    var z := Step(s, t, c, mallocOk);
    PoolMoves(s, t, c, mallocOk);
    hide Step;
    forall j | 0 <= j < |s.threads| && j != t
      ensures z.threads[j] == s.threads[j]
    {
      OthersStay(s, t, c, mallocOk, j);
    }
  }

  lemma PoolMoves(s: State, t: nat, c: Call, mallocOk: bool)
    requires s.Shape() && t < |s.threads|
    ensures var z := Step(s, t, c, mallocOk);
      && z.poolSize == s.poolSize && z.poolIndex == s.poolIndex + (if s.threads[t].PoolTake? then 1 else 0)
      && (z.threads[t].PoolTake? ==> !s.threads[t].PoolTake? && s.poolIndex < s.poolSize)
  {
    GetMovesNot(s, t);
    PutMovesNot(s, t);
    hide Get, Put;
  }

  lemma GetMovesNot(s: State, t: nat)
    requires s.Shape() && t < |s.threads|
    ensures var z := Get(s, t);
      && z.poolSize == s.poolSize && z.poolIndex == s.poolIndex
      && (z.threads[t].PoolTake? ==> s.threads[t].PoolTake?)
  {
    hide WordAdd, WordSub;
  }

  lemma PutMovesNot(s: State, t: nat)
    requires s.Shape() && t < |s.threads|
    ensures var z := Put(s, t);
      && z.poolSize == s.poolSize && z.poolIndex == s.poolIndex
      && (z.threads[t].PoolTake? ==> s.threads[t].PoolTake?)
  {
    hide WordAdd, WordSub;
  }

  lemma TakersCount(a: set<nat>, b: set<nat>, t: nat)
    requires a - {t} == b - {t}
    ensures |a| - (if t in a then 1 else 0) == |b| - (if t in b then 1 else 0)
  {
    assert a == (a - {t}) + if t in a then {t} else {};
    assert b == (b - {t}) + if t in b then {t} else {};
  }

  lemma {:induction false} RunTakers(s: State, schedule: seq<Move>)
    requires s.Shape() && s.poolIndex + |Takers(s)| <= s.poolSize + |s.threads|
    ensures var z := Run(s, schedule); z.poolIndex + |Takers(z)| <= s.poolSize + |s.threads|
    decreases |schedule|
  {
    hide Step, Takers;
    if schedule != [] {
      var m := schedule[0];
      var z := if m.t < |s.threads| then Step(s, m.t, m.c, m.mallocOk) else s;
      if m.t < |s.threads| {
        StepTakers(s, m.t, m.c, m.mallocOk);
        TakersCount(Takers(z), Takers(s), m.t);
        assert |Takers(z)| <= |z.threads|;
      }
      RunTakers(z, schedule[1..]);
    }
  }

  /** Over every run the pool's index, however often it is asked, passes the pool by at most one for each thread. */
  lemma PoolIndexBounded(recycle: bool, poolSize: nat, threads: nat, schedule: seq<Move>)
    ensures Reached(recycle, poolSize, threads, schedule).poolIndex <= poolSize + threads
  {
    RunTakers(Init(recycle, poolSize, threads), schedule);
  }
}
