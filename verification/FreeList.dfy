/**
 * The block pool of the concurrent queue: the initial pool, the reference-counted lock-free free list, and the heap.
 * Every atomic access to a free-list word is one step of one thread.
 */
module FreeList {
  import opened Common

  const FLAG: nat := 0x8000_0000   // SHOULD_BE_ON_FREELIST
  const WORD: nat := 0x1_0000_0000 // freeListRefs is a 32-bit word

  /** What `add_knowing_refcount_is_zero` returns to. */
  datatype Cont = AddReturns | GetResumes(cur: Option<nat>, alloc: bool)

  datatype Pc =
    | Idle
    | PoolCheck(alloc: bool)
    | PoolTake(alloc: bool)
    | GetLoad(alloc: bool)
    | GetRefs(h: nat, alloc: bool)
    | GetCas(h: nat, r: nat, alloc: bool)
    | GetNext(h: nat, alloc: bool)
    | GetSwing(h: nat, nx: Option<nat>, alloc: bool)
    | GetTake(h: nat)
    | GetDrop(h: nat, cur: Option<nat>, alloc: bool)
    | GetEmpty(alloc: bool)
    | AddFlag(n: nat)
    | PutLoad(n: nat, k: Cont)
    | PutNext(n: nat, to: Option<nat>, k: Cont)
    | PutRefs(n: nat, to: Option<nat>, k: Cont)
    | PutSwing(n: nat, to: Option<nat>, k: Cont)
    | PutFail(n: nat, to: Option<nat>, k: Cont)
  {
    /** The thread owns one unit of `m`'s reference count. */
    predicate Holds(m: nat) {
      (GetNext? || GetSwing? || GetTake? || GetDrop?) && h == m
    }

    /** The thread alone may write `m`'s next pointer. */
    predicate Claims(m: nat) {
      (PutLoad? || PutNext? || PutRefs?) && n == m
    }

    predicate Pushes(m: nat) {
      (PutSwing? || PutFail?) && n == m
    }

    predicate Touches(m: nat) {
      Holds(m) || Claims(m) || Pushes(m) || this == AddFlag(m)
    }
  }

  /** Where a block is, for the proofs. */
  datatype Phase =
    | Unissued         // still in the initial pool
    | Out              // in the hands of a producer
    | Adding(t: nat)   // thread `t` is about to flag it
    | Flagged          // flagged, and some thread still holds a reference
    | Claimed(t: nat)  // thread `t` is linking it; the count is zero
    | Pushing(t: nat)  // thread `t` has given it the list's reference and is swinging the head
    | Listed
    | Taken(t: nat)    // thread `t` has unlinked it and still holds two references
    | Destroyed

  datatype Event = HandOut(n: nat) | GiveBack(n: nat)

  datatype State = State(
    recycle: bool, poolSize: nat, poolIndex: nat, head: Option<nat>,
    refs: seq<nat>, next: seq<Option<nat>>, heap: seq<bool>, threads: seq<Pc>,
    list: seq<nat>, phase: seq<Phase>, log: seq<Event>)
  {
    predicate Block(n: nat) {
      n < |refs|
    }

    predicate Shape() {
      |next| == |heap| == |phase| == |refs| && poolSize <= |refs|
    }

    /** Blocks that may ever be put on the list. */
    predicate Listable(n: nat)
      requires Shape()
    {
      Block(n) && (recycle || !heap[n])
    }

    function With(t: nat, pc: Pc): State
      requires t < |threads|
    {
      this.(threads := threads[t := pc])
    }

    function SetRefs(n: nat, r: nat, p: Phase): State
      requires Shape() && Block(n)
    {
      this.(refs := refs[n := r], phase := phase[n := p])
    }
  }

  datatype Call = Requisition(alloc: bool) | Release(n: nat)

  function Init(recycle: bool, poolSize: nat, threads: nat): State {
    State(recycle, poolSize, 0, None, seq(poolSize, _ => 0), seq(poolSize, _ => None), seq(poolSize, _ => false),
          seq(threads, _ => Idle), [], seq(poolSize, _ => Unissued), [])
  }

  function Resume(cur: Option<nat>, alloc: bool): Pc {
    match cur
    case None => GetEmpty(alloc)
    case Some(h) => GetRefs(h, alloc)
  }

  function After(k: Cont): Pc {
    match k
    case AddReturns => Idle
    case GetResumes(cur, alloc) => Resume(cur, alloc)
  }

  function WordAdd(a: nat, b: nat): nat {
    (a + b) % WORD
  }

  function WordSub(a: nat, b: nat): nat
    requires b <= WORD
  {
    (a + WORD - b) % WORD
  }

  /** An idle thread begins call `c`; a release of a block it does not have is not a call. */
  function Begin(s: State, t: nat, c: Call): (z: State)
    requires s.Shape() && t < |s.threads|
    ensures z.Shape() && |z.threads| == |s.threads|
  {
    match c
    case Requisition(alloc) => s.With(t, PoolCheck(alloc))
    case Release(n) =>
      if !(s.Block(n) && s.phase[n] == Out) then s
      else if !s.recycle && s.heap[n] then s.(phase := s.phase[n := Destroyed], log := s.log + [GiveBack(n)])
      else s.(phase := s.phase[n := Adding(t)], log := s.log + [GiveBack(n)]).With(t, AddFlag(n))
  }

  /** Taking a block from the initial pool, or from the heap when list and pool are empty. */
  function Acquire(s: State, t: nat, mallocOk: bool): (z: State)
    requires s.Shape() && t < |s.threads|
    ensures z.Shape() && |z.threads| == |s.threads|
    requires var pc := s.threads[t]; pc.PoolCheck? || pc.PoolTake? || pc.GetEmpty?
  {
    match s.threads[t]
    case PoolCheck(alloc) => s.With(t, if s.poolIndex >= s.poolSize then GetLoad(alloc) else PoolTake(alloc))
    case PoolTake(alloc) =>
      var n := s.poolIndex;
      if n < s.poolSize then
        s.(poolIndex := n + 1, phase := s.phase[n := Out], log := s.log + [HandOut(n)]).With(t, Idle)
      else s.(poolIndex := n + 1).With(t, GetLoad(alloc))
    case GetEmpty(alloc) =>
      if alloc && mallocOk then
        s.(refs := s.refs + [0], next := s.next + [None], heap := s.heap + [true], phase := s.phase + [Out],
           log := s.log + [HandOut(|s.refs|)]).With(t, Idle)
      else s.With(t, Idle)
    case _ => assert false; s
  }

  /** `try_get` on the free list. */
  function Get(s: State, t: nat): (z: State)
    requires s.Shape() && t < |s.threads|
    ensures z.Shape() && |z.threads| == |s.threads|
  {
    match s.threads[t]
    case GetLoad(alloc) => s.With(t, Resume(s.head, alloc))
    case GetRefs(h, alloc) =>
      if !s.Block(h) then s
      else s.With(t, if s.refs[h] % FLAG == 0 then GetLoad(alloc) else GetCas(h, s.refs[h], alloc))
    case GetCas(h, r, alloc) =>
      if !s.Block(h) then s
      else if s.refs[h] == r then s.(refs := s.refs[h := WordAdd(r, 1)]).With(t, GetNext(h, alloc))
      else s.With(t, GetLoad(alloc))
    case GetNext(h, alloc) => if !s.Block(h) then s else s.With(t, GetSwing(h, s.next[h], alloc))
    case GetSwing(h, nx, alloc) =>
      if !s.Block(h) then s
      else if s.head == Some(h) && |s.list| > 0 then
        s.(head := nx, list := s.list[1..], phase := s.phase[h := Taken(t)]).With(t, GetTake(h))
      else s.With(t, GetDrop(h, s.head, alloc))
    case GetTake(h) =>
      if !s.Block(h) then s
      else s.SetRefs(h, WordSub(s.refs[h], 2), Out).(log := s.log + [HandOut(h)]).With(t, Idle)
    case GetDrop(h, cur, alloc) =>
      if !s.Block(h) then s
      else if s.refs[h] == FLAG + 1 then
        s.SetRefs(h, WordSub(s.refs[h], 1), Claimed(t)).With(t, PutLoad(h, GetResumes(cur, alloc)))
      else s.SetRefs(h, WordSub(s.refs[h], 1), s.phase[h]).With(t, Resume(cur, alloc))
    case _ => s
  }

  /** `add` and `add_knowing_refcount_is_zero`. */
  function Put(s: State, t: nat): (z: State)
    requires s.Shape() && t < |s.threads|
    ensures z.Shape() && |z.threads| == |s.threads|
  {
    match s.threads[t]
    case AddFlag(n) =>
      if !s.Block(n) then s
      else if s.refs[n] == 0 then
        s.SetRefs(n, WordAdd(s.refs[n], FLAG), Claimed(t)).With(t, PutLoad(n, AddReturns))
      else s.SetRefs(n, WordAdd(s.refs[n], FLAG), Flagged).With(t, Idle)
    case PutLoad(n, k) => s.With(t, PutNext(n, s.head, k))
    case PutNext(n, to, k) =>
      if !s.Block(n) then s else s.(next := s.next[n := to]).With(t, PutRefs(n, to, k))
    case PutRefs(n, to, k) => if !s.Block(n) then s else s.SetRefs(n, 1, Pushing(t)).With(t, PutSwing(n, to, k))
    case PutSwing(n, to, k) =>
      if !s.Block(n) then s
      else if s.head == to then
        s.(head := Some(n), list := [n] + s.list, phase := s.phase[n := Listed]).With(t, After(k))
      else s.With(t, PutFail(n, s.head, k))
    case PutFail(n, to, k) =>
      if !s.Block(n) then s
      else if s.refs[n] == 1 then
        s.SetRefs(n, WordAdd(s.refs[n], FLAG - 1), Claimed(t)).With(t, PutNext(n, to, k))
      else s.SetRefs(n, WordAdd(s.refs[n], FLAG - 1), Flagged).With(t, After(k))
    case _ => s
  }

  lemma NoWrap(a: nat, b: nat)
    ensures a + b < WORD ==> WordAdd(a, b) == a + b
    ensures b <= a < WORD ==> WordSub(a, b) == a - b
  {
  }

  /** One atomic step of thread `t`. */
  function Step(s: State, t: nat, c: Call, mallocOk: bool): (z: State)
    requires s.Shape() && t < |s.threads|
    ensures z.Shape() && |z.threads| == |s.threads|
  {
    var pc := s.threads[t];
    if pc.Idle? then Begin(s, t, c)
    else if pc.PoolCheck? || pc.PoolTake? || pc.GetEmpty? then Acquire(s, t, mallocOk)
    else if pc.AddFlag? || pc.PutLoad? || pc.PutNext? || pc.PutRefs? || pc.PutSwing? || pc.PutFail? then Put(s, t)
    else Get(s, t)
  }

  // ---------------------------------------------------------------- invariant

  ghost function Holders(s: State, n: nat): set<nat> {
    set t | 0 <= t < |s.threads| && s.threads[t].Holds(n)
  }

  predicate HasFlag(p: Phase) {
    p.Flagged? || p.Claimed?
  }

  /** The list's own reference. */
  predicate HasListRef(p: Phase) {
    p.Listed? || p.Taken? || p.Pushing?
  }

  ghost predicate NodeOk(s: State, n: nat)
    requires s.Shape() && s.Block(n)
  {
    var p := s.phase[n];
    && s.refs[n] == (if HasFlag(p) then FLAG else 0) + (if HasListRef(p) then 1 else 0) + |Holders(s, n)|
    && (p.Claimed? ==> Holders(s, n) == {})
    && (p.Flagged? ==> Holders(s, n) != {})
    && (p.Listed? <==> n in s.list)
    && (p.Adding? ==> p.t < |s.threads| && s.threads[p.t] == AddFlag(n))
    && (p.Claimed? ==> p.t < |s.threads| && s.threads[p.t].Claims(n))
    && (p.Pushing? ==> p.t < |s.threads| && s.threads[p.t].Pushes(n))
    && (p.Taken? ==> p.t < |s.threads| && s.threads[p.t] == GetTake(n))
    && (p.Unissued? <==> s.poolIndex <= n < s.poolSize)
    && (p.Destroyed? || !s.Listable(n) ==> Holders(s, n) == {})
    && (!s.Listable(n) ==> p.Out? || p.Destroyed?)
    && (p.Destroyed? ==> !s.Listable(n))
  }

  ghost predicate LinkOk(s: State, to: Option<nat>)
    requires s.Shape()
  {
    to.Some? ==> s.Listable(to.value)
  }

  ghost predicate ContOk(s: State, k: Cont)
    requires s.Shape()
  {
    k.GetResumes? ==> LinkOk(s, k.cur)
  }

  ghost predicate ThreadOk(s: State, t: nat, pc: Pc)
    requires s.Shape()
  {
    match pc
    case GetRefs(h, _) => s.Listable(h)
    case GetCas(h, r, _) => s.Listable(h) && r % FLAG != 0
    case GetNext(h, _) => s.Listable(h)
    case GetSwing(h, nx, _) => s.Listable(h) && nx == s.next[h]
    case GetTake(h) => s.Listable(h) && s.phase[h] == Taken(t)
    case GetDrop(h, cur, _) => s.Listable(h) && LinkOk(s, cur)
    case AddFlag(n) => s.Listable(n) && s.phase[n] == Adding(t)
    case PutLoad(n, k) => s.Listable(n) && s.phase[n] == Claimed(t) && ContOk(s, k)
    case PutNext(n, to, k) => s.Listable(n) && s.phase[n] == Claimed(t) && ContOk(s, k) && LinkOk(s, to)
    case PutRefs(n, to, k) =>
      s.Listable(n) && s.phase[n] == Claimed(t) && ContOk(s, k) && LinkOk(s, to) && s.next[n] == to
    case PutSwing(n, to, k) =>
      s.Listable(n) && s.phase[n] == Pushing(t) && ContOk(s, k) && LinkOk(s, to) && s.next[n] == to
    case PutFail(n, to, k) => s.Listable(n) && s.phase[n] == Pushing(t) && ContOk(s, k) && LinkOk(s, to)
    case _ => true
  }

  function Head(list: seq<nat>): Option<nat> {
    if list == [] then None else Some(list[0])
  }

  /** From the head, the next pointers run through `list`, each block once, and end. */
  ghost predicate Chain(s: State)
    requires s.Shape()
  {
    && s.head == Head(s.list)
    && (forall i :: 0 <= i < |s.list| ==> s.Listable(s.list[i]) && s.next[s.list[i]] == Head(s.list[i + 1..]))
    && (forall i, j :: 0 <= i < j < |s.list| ==> s.list[i] != s.list[j])
  }

  ghost predicate Nodes(s: State)
    requires s.Shape()
  {
    forall n :: 0 <= n < |s.refs| ==> NodeOk(s, n)
  }

  ghost predicate Threads(s: State)
    requires s.Shape()
  {
    forall t :: 0 <= t < |s.threads| ==> ThreadOk(s, t, s.threads[t])
  }

  /** Hand-outs and returns of one block alternate. */
  ghost predicate Alternates(s: State)
    requires s.Shape()
  {
    && (forall i :: 0 <= i < |s.log| ==> s.Block(s.log[i].n))
    && (forall i :: 0 <= i < |s.log| && s.log[i].HandOut? && s.phase[s.log[i].n] != Out ==>
          exists k :: i < k < |s.log| && s.log[k] == GiveBack(s.log[i].n))
    && (forall i, j :: 0 <= i < j < |s.log| && s.log[i].HandOut? && s.log[j] == s.log[i] ==>
          exists k :: i < k < j && s.log[k] == GiveBack(s.log[i].n))
  }

  /** The count of references and threads never reaches the flag bit. */
  ghost predicate Inv(s: State) {
    s.Shape() && |s.threads| + 1 < FLAG && Chain(s) && Nodes(s) && Threads(s)
  }

  // ---------------------------------------------------------------- reference counts and threads

  lemma HoldersAfter(s: State, z: State, t: nat, n: nat)
    requires t < |s.threads| && |z.threads| == |s.threads| && z.threads == s.threads[t := z.threads[t]]
    ensures z.threads[t].Holds(n) && !s.threads[t].Holds(n) ==>
      Holders(z, n) == Holders(s, n) + {t} && |Holders(z, n)| == |Holders(s, n)| + 1
    ensures !z.threads[t].Holds(n) && s.threads[t].Holds(n) ==>
      Holders(z, n) == Holders(s, n) - {t} && |Holders(z, n)| == |Holders(s, n)| - 1
    ensures z.threads[t].Holds(n) == s.threads[t].Holds(n) ==> Holders(z, n) == Holders(s, n)
  {
    if z.threads[t].Holds(n) && !s.threads[t].Holds(n) {
      assert Holders(z, n) == Holders(s, n) + {t};
    } else if !z.threads[t].Holds(n) && s.threads[t].Holds(n) {
      assert t in Holders(s, n);
      assert Holders(z, n) == Holders(s, n) - {t};
    } else {
      assert Holders(z, n) == Holders(s, n);
    }
  }

  lemma FewHolders(s: State, n: nat)
    ensures |Holders(s, n)| <= |s.threads|
  {
    SubsetSize(Holders(s, n), Range(0, |s.threads|));
  }

  /** The phase names thread `j`. */
  predicate Tied(p: Phase, j: nat) {
    p == Adding(j) || p == Claimed(j) || p == Pushing(j) || p == Taken(j)
  }

  lemma HolderIn(s: State, t: nat, n: nat)
    requires t < |s.threads|
    ensures t in Holders(s, n) <==> s.threads[t].Holds(n)
  {
  }

  /** A block the step leaves alone stays well kept. */
  lemma SameNode(s: State, z: State, t: nat, m: nat)
    requires s.Shape() && z.Shape() && s.Block(m) && z.Block(m) && NodeOk(s, m)
    requires t < |s.threads| && |z.threads| == |s.threads| && z.threads == s.threads[t := z.threads[t]]
    requires z.refs[m] == s.refs[m] && z.phase[m] == s.phase[m]
    requires z.heap[m] == s.heap[m] && z.recycle == s.recycle
    requires m in z.list <==> m in s.list
    requires z.poolIndex <= m < z.poolSize <==> s.poolIndex <= m < s.poolSize
    requires z.threads[t].Holds(m) == s.threads[t].Holds(m)
    requires s.phase[m] == Adding(t) ==> z.threads[t] == AddFlag(m)
    requires s.phase[m] == Claimed(t) ==> z.threads[t].Claims(m)
    requires s.phase[m] == Pushing(t) ==> z.threads[t].Pushes(m)
    requires s.phase[m] == Taken(t) ==> z.threads[t] == GetTake(m)
    ensures NodeOk(z, m)
  {
    HoldersAfter(s, z, t, m);
  }

  /** A thread the step leaves alone stays well kept. */
  lemma SameThread(s: State, z: State, j: nat, pc: Pc)
    requires s.Shape() && z.Shape() && ThreadOk(s, j, pc)
    requires |s.refs| <= |z.refs| && z.recycle == s.recycle
    requires forall m :: 0 <= m < |s.refs| ==> z.heap[m] == s.heap[m]
    requires forall m :: 0 <= m < |s.refs| && Tied(s.phase[m], j) ==> z.phase[m] == s.phase[m]
    requires forall m :: 0 <= m < |s.refs| && (pc.Holds(m) || pc.Claims(m) || pc.Pushes(m)) ==> z.next[m] == s.next[m]
    ensures ThreadOk(z, j, pc)
  {
  }

  /** A step that only moves thread `t` between places that hold nothing new. */
  lemma MoveStep(s: State, t: nat, pc: Pc)
    requires Inv(s) && t < |s.threads| && ThreadOk(s, t, pc)
    requires forall m :: pc.Holds(m) == s.threads[t].Holds(m)
    requires forall m :: pc.Claims(m) == s.threads[t].Claims(m)
    requires forall m :: pc.Pushes(m) == s.threads[t].Pushes(m)
    requires !s.threads[t].GetTake? && !s.threads[t].AddFlag?
    ensures Inv(s.With(t, pc))
  {
    var z := s.With(t, pc);
    forall m | 0 <= m < |z.refs|
      ensures NodeOk(z, m)
    {
      assert NodeOk(s, m);
      SameNode(s, z, t, m);
    }
    forall j | 0 <= j < |z.threads|
      ensures ThreadOk(z, j, z.threads[j])
    {
      if j != t {
        SameThread(s, z, j, s.threads[j]);
      }
    }
  }

  lemma ThreadAt(s: State, t: nat)
    requires Inv(s) && t < |s.threads|
    ensures ThreadOk(s, t, s.threads[t])
    ensures LinkOk(s, s.head) && s.head == Head(s.list)
  {
    if s.head.Some? {
      assert s.Listable(s.list[0]);
    }
  }

  lemma NodeAt(s: State, n: nat)
    requires Inv(s) && s.Block(n)
    ensures NodeOk(s, n)
  {
    hide NodeOk, Chain, Threads;
    assert NodeOk(s, n);
  }

  /** A step that touches only block `n` needs its proof only there. */
  lemma OneBlockStep(s: State, z: State, t: nat, n: nat)
    requires Inv(s) && t < |s.threads| && s.Block(n)
    requires |z.threads| == |s.threads| && |z.refs| == |s.refs| && z.Shape()
    requires z == s.(refs := z.refs, phase := z.phase, log := z.log, threads := s.threads[t := z.threads[t]])
    requires z.refs == s.refs[n := z.refs[n]] && z.phase == s.phase[n := z.phase[n]]
    requires forall m :: m != n ==> !s.threads[t].Touches(m) && !z.threads[t].Touches(m)
    requires z.phase[n] == s.phase[n] || forall j :: Tied(s.phase[n], j) ==> j == t
    requires NodeOk(z, n) && ThreadOk(z, t, z.threads[t])
    ensures Inv(z)
  {
    forall m | 0 <= m < |z.refs|
      ensures NodeOk(z, m)
    {
      assert NodeOk(s, m);
      if m != n {
        assert !s.threads[t].Touches(m) && !z.threads[t].Touches(m);
        SameNode(s, z, t, m);
      }
    }
    forall j | 0 <= j < |z.threads|
      ensures ThreadOk(z, j, z.threads[j])
    {
      if j != t {
        SameThread(s, z, j, s.threads[j]);
      }
    }
  }

  /** The same for a step that puts block `n` on the list or takes it off. */
  lemma ListStep(s: State, z: State, t: nat, n: nat)
    requires Inv(s) && t < |s.threads| && s.Block(n)
    requires |z.threads| == |s.threads| && |z.refs| == |s.refs| && z.Shape()
    requires z == s.(head := z.head, list := z.list, phase := z.phase, threads := s.threads[t := z.threads[t]])
    requires Tied(s.phase[n], t) || s.phase[n] == Listed
    requires z.phase == s.phase[n := z.phase[n]]
    requires forall m :: m != n ==>
      !s.threads[t].Touches(m) && !z.threads[t].Touches(m) && (m in z.list <==> m in s.list)
    requires Chain(z) && NodeOk(z, n) && ThreadOk(z, t, z.threads[t])
    ensures Inv(z)
  {
    hide Chain, Holders;
    forall m | 0 <= m < |z.refs|
      ensures NodeOk(z, m)
    {
      NodeAt(s, m);
      if m != n {
        assert !s.threads[t].Touches(m) && !z.threads[t].Touches(m);
        SameNode(s, z, t, m);
      }
    }
    forall j | 0 <= j < |z.threads|
      ensures ThreadOk(z, j, z.threads[j])
    {
      if j != t {
        SameThread(s, z, j, s.threads[j]);
      }
    }
  }

  // ---------------------------------------------------------------- try_get

  lemma JoinNode(s: State, z: State, t: nat, n: nat)
    requires s.Shape() && |s.threads| + 1 < FLAG && s.Block(n) && NodeOk(s, n)
    requires t < |s.threads| && s.threads[t].GetCas? && s.threads[t].h == n && s.Listable(n)
    requires s.refs[n] % FLAG != 0
    requires z == s.(refs := s.refs[n := WordAdd(s.refs[n], 1)]).With(t, GetNext(n, s.threads[t].alloc))
    ensures NodeOk(z, n)
  {
    hide WordAdd;
    FewHolders(s, n);
    NoWrap(s.refs[n], 1);
    HoldersAfter(s, z, t, n);
  }

  /** A reader joins: the count was not zero, so neither the flag nor the claim is disturbed. */
  lemma JoinStep(s: State, t: nat)
    requires Inv(s) && t < |s.threads| && s.threads[t].GetCas?
    requires s.refs[s.threads[t].h] == s.threads[t].r
    ensures Inv(s.(refs := s.refs[s.threads[t].h := WordAdd(s.threads[t].r, 1)])
                 .With(t, GetNext(s.threads[t].h, s.threads[t].alloc)))
  {
    hide WordAdd, WordSub, Holders, NodeOk, Chain, Nodes, Threads;
    ThreadAt(s, t);
    var n := s.threads[t].h;
    var z := s.(refs := s.refs[n := WordAdd(s.threads[t].r, 1)]).With(t, GetNext(n, s.threads[t].alloc));
    NodeAt(s, n);
    JoinNode(s, z, t, n);
    OneBlockStep(s, z, t, n);
  }

  lemma HeadListed(s: State)
    requires Inv(s) && s.head.Some?
    ensures s.Block(s.head.value) && s.phase[s.head.value] == Listed && s.list != [] && s.list[0] == s.head.value
  {
    assert s.Listable(s.list[0]);
    assert NodeOk(s, s.list[0]);
  }

  lemma UnlinkNode(s: State, z: State, t: nat, n: nat)
    requires s.Shape() && s.Block(n) && NodeOk(s, n) && s.phase[n] == Listed && s.Listable(n)
    requires t < |s.threads| && s.threads[t].GetSwing? && s.threads[t].h == n && n !in z.list
    requires z == s.(head := z.head, list := z.list, phase := s.phase[n := Taken(t)]).With(t, GetTake(n))
    ensures NodeOk(z, n)
  {
    hide Holders;
    HoldersAfter(s, z, t, n);
  }

  lemma ChainTail(s: State, z: State)
    requires s.Shape() && z.Shape() && Chain(s) && s.list != []
    requires z.list == s.list[1..] && z.head == s.next[s.list[0]] && z.next == s.next
    requires z.heap == s.heap && z.recycle == s.recycle && |z.refs| == |s.refs|
    ensures Chain(z)
    ensures forall m :: m != s.list[0] ==> (m in z.list <==> m in s.list)
    ensures s.list[0] !in z.list
  {
    assert s.list == [s.list[0]] + z.list;
    forall i | 0 <= i < |z.list|
      ensures z.Listable(z.list[i]) && z.next[z.list[i]] == Head(z.list[i + 1..])
    {
      assert z.list[i] == s.list[i + 1] && z.list[i + 1..] == s.list[i + 2..];
    }
  }

  /** Unlinking the head: the next pointer read before is still the head's, because the reader's reference froze it. */
  lemma UnlinkStep(s: State, t: nat)
    requires Inv(s) && t < |s.threads| && s.threads[t].GetSwing? && s.head == Some(s.threads[t].h)
    ensures |s.list| > 0 && s.list[0] == s.threads[t].h
    ensures Inv(s.(head := s.threads[t].nx, list := s.list[1..], phase := s.phase[s.threads[t].h := Taken(t)])
                 .With(t, GetTake(s.threads[t].h)))
  {
    hide WordAdd, WordSub, Holders, NodeOk, Chain, Nodes, Threads;
    var n := s.threads[t].h;
    ThreadAt(s, t);
    NodeAt(s, n);
    HeadListed(s);
    var z := s.(head := s.threads[t].nx, list := s.list[1..], phase := s.phase[n := Taken(t)]).With(t, GetTake(n));
    ChainTail(s, z);
    UnlinkNode(s, z, t, n);
    ListStep(s, z, t, n);
  }

  lemma TakeNode(s: State, z: State, t: nat, n: nat)
    requires s.Shape() && |s.threads| + 1 < FLAG && s.Block(n) && NodeOk(s, n)
    requires t < |s.threads| && s.threads[t] == GetTake(n) && s.phase[n] == Taken(t) && s.Listable(n)
    requires z == s.SetRefs(n, WordSub(s.refs[n], 2), Out).(log := s.log + [HandOut(n)]).With(t, Idle)
    ensures NodeOk(z, n) && s.refs[n] < FLAG
  {
    hide WordSub, Holders;
    FewHolders(s, n);
    HolderIn(s, t, n);
    HoldersAfter(s, z, t, n);
    NoWrap(s.refs[n], 2);
  }

  /** The block leaves with the reader: both the reader's and the list's references go. */
  lemma TakeStep(s: State, t: nat)
    requires Inv(s) && t < |s.threads| && s.threads[t].GetTake?
    ensures var n := s.threads[t].h;
      && s.phase[n] == Taken(t) && s.refs[n] < FLAG
      && Inv(s.SetRefs(n, WordSub(s.refs[n], 2), Out).(log := s.log + [HandOut(n)]).With(t, Idle))
  {
    hide WordAdd, WordSub, Holders, NodeOk, Chain, Nodes, Threads;
    ThreadAt(s, t);
    var n := s.threads[t].h;
    var z := s.SetRefs(n, WordSub(s.refs[n], 2), Out).(log := s.log + [HandOut(n)]).With(t, Idle);
    NodeAt(s, n);
    TakeNode(s, z, t, n);
    OneBlockStep(s, z, t, n);
  }

  lemma DropNode(s: State, z: State, t: nat, n: nat)
    requires s.Shape() && |s.threads| + 1 < FLAG && s.Block(n) && NodeOk(s, n) && s.Listable(n)
    requires t < |s.threads| && s.threads[t].GetDrop? && s.threads[t].h == n
    requires z == Get(s, t)
    ensures NodeOk(z, n)
    ensures s.refs[n] == FLAG + 1 <==> s.phase[n].Flagged? && Holders(s, n) == {t}
    ensures s.refs[n] == FLAG + 1 || z.phase[n] == s.phase[n]
  {
    hide WordSub, WordAdd, Holders;
    FewHolders(s, n);
    NoWrap(s.refs[n], 1);
    HolderIn(s, t, n);
    HoldersAfter(s, z, t, n);
    SubsetSize({t}, Holders(s, n));
    if |Holders(s, n)| == 1 {
      assert |Holders(s, n) - {t}| == 0;
    }
  }

  /** A reader that lost the race lets go; the last one out of a flagged block becomes the one that links it. */
  lemma DropStep(s: State, t: nat)
    requires Inv(s) && t < |s.threads| && s.threads[t].GetDrop?
    ensures Inv(Get(s, t))
    ensures var n := s.threads[t].h;
      s.refs[n] == FLAG + 1 <==> s.phase[n].Flagged? && Holders(s, n) == {t}
  {
    hide WordAdd, WordSub, Holders, NodeOk, Chain, Nodes, Threads;
    var n := s.threads[t].h;
    var z := Get(s, t);
    ThreadAt(s, t);
    NodeAt(s, n);
    DropNode(s, z, t, n);
    OneBlockStep(s, z, t, n);
  }

  // ---------------------------------------------------------------- add

  lemma FlagNode(s: State, z: State, t: nat, n: nat, pc: Pc)
    requires s.Shape() && |s.threads| + 1 < FLAG && s.Block(n) && NodeOk(s, n)
    requires t < |s.threads| && s.threads[t] == AddFlag(n) && s.phase[n] == Adding(t) && s.Listable(n)
    requires pc == if s.refs[n] == 0 then PutLoad(n, AddReturns) else Idle
    requires z == s.SetRefs(n, WordAdd(s.refs[n], FLAG), if s.refs[n] == 0 then Claimed(t) else Flagged).With(t, pc)
    ensures NodeOk(z, n)
  {
    hide WordAdd, Holders;
    FewHolders(s, n);
    NoWrap(s.refs[n], FLAG);
    HoldersAfter(s, z, t, n);
  }

  lemma FlagStep(s: State, t: nat)
    requires Inv(s) && t < |s.threads| && s.threads[t].AddFlag?
    ensures Inv(Put(s, t))
  {
    hide WordAdd, WordSub, Holders, NodeOk, Chain, Nodes, Threads;
    var n := s.threads[t].n;
    var z := Put(s, t);
    ThreadAt(s, t);
    NodeAt(s, n);
    FlagNode(s, z, t, n, z.threads[t]);
    OneBlockStep(s, z, t, n);
  }

  lemma ChainSkips(s: State, z: State, n: nat)
    requires s.Shape() && z.Shape() && Chain(s) && n !in s.list && s.Block(n)
    requires z.heap == s.heap && z.recycle == s.recycle && |z.refs| == |s.refs|
    requires z.list == s.list && z.head == s.head && z.next == s.next[n := z.next[n]]
    ensures Chain(z)
  {
  }

  /** Writing the next pointer disturbs no reader: the block has none. */
  lemma LinkStep(s: State, t: nat)
    requires Inv(s) && t < |s.threads| && s.threads[t].PutNext?
    ensures Holders(s, s.threads[t].n) == {}
    ensures Inv(Put(s, t))
  {
    hide WordAdd, WordSub, Holders, Chain, Nodes;
    var n := s.threads[t].n;
    var z := Put(s, t);
    ThreadAt(s, t);
    NodeAt(s, n);
    ChainSkips(s, z, n);
    LinkNodes(s, z, t);
    forall j | 0 <= j < |z.threads|
      ensures ThreadOk(z, j, z.threads[j])
    {
      if j != t {
        HolderIn(s, j, n);
        SameThread(s, z, j, s.threads[j]);
      }
    }
  }

  lemma LinkNodes(s: State, z: State, t: nat)
    requires Inv(s) && t < |s.threads| && s.threads[t].PutNext? && z == Put(s, t)
    ensures Nodes(z)
  {
    hide WordAdd, WordSub, Holders, Chain, Threads;
    ThreadAt(s, t);
    forall m | 0 <= m < |z.refs|
      ensures NodeOk(z, m)
    {
      NodeAt(s, m);
      SameNode(s, z, t, m);
    }
  }

  lemma PublishNode(s: State, z: State, t: nat, n: nat)
    requires s.Shape() && s.Block(n) && NodeOk(s, n)
    requires t < |s.threads| && s.threads[t].PutRefs? && s.threads[t].n == n && s.phase[n] == Claimed(t)
      && s.Listable(n)
    requires z == s.SetRefs(n, 1, Pushing(t)).With(t, PutSwing(n, s.threads[t].to, s.threads[t].k))
    ensures NodeOk(z, n)
  {
    hide Holders;
    HoldersAfter(s, z, t, n);
  }

  /** Setting the count to one publishes the list's reference. */
  lemma PublishStep(s: State, t: nat)
    requires Inv(s) && t < |s.threads| && s.threads[t].PutRefs?
    ensures Inv(Put(s, t))
  {
    hide WordAdd, WordSub, Holders, NodeOk, Chain, Nodes, Threads;
    var n := s.threads[t].n;
    var z := Put(s, t);
    ThreadAt(s, t);
    NodeAt(s, n);
    PublishNode(s, z, t, n);
    OneBlockStep(s, z, t, n);
  }

  lemma SwingNode(s: State, z: State, t: nat, n: nat, pc: Pc)
    requires s.Shape() && s.Block(n) && NodeOk(s, n) && s.phase[n] == Pushing(t) && s.Listable(n)
    requires t < |s.threads| && s.threads[t].PutSwing? && s.threads[t].n == n && n in z.list && !pc.Touches(n)
    requires z == s.(head := z.head, list := z.list, phase := s.phase[n := Listed]).With(t, pc)
    ensures NodeOk(z, n)
  {
    hide Holders;
    HoldersAfter(s, z, t, n);
  }

  lemma ChainCons(s: State, z: State, n: nat)
    requires s.Shape() && z.Shape() && Chain(s) && s.Listable(n) && n !in s.list
    requires z.list == [n] + s.list && z.head == Some(n) && z.next == s.next && s.next[n] == s.head
    requires z.heap == s.heap && z.recycle == s.recycle && |z.refs| == |s.refs|
    ensures Chain(z)
    ensures forall m :: m != n ==> (m in z.list <==> m in s.list)
  {
    forall i | 0 <= i < |z.list|
      ensures z.Listable(z.list[i]) && z.next[z.list[i]] == Head(z.list[i + 1..])
    {
      if i == 0 {
        assert z.list[1..] == s.list;
      } else {
        assert z.list[i] == s.list[i - 1] && z.list[i + 1..] == s.list[i..];
      }
    }
  }

  lemma SwingStep(s: State, t: nat)
    requires Inv(s) && t < |s.threads| && s.threads[t].PutSwing? && s.head == s.threads[t].to
    ensures Inv(Put(s, t))
  {
    hide WordAdd, WordSub, Holders, Chain, Nodes, Threads;
    var n := s.threads[t].n;
    var z := Put(s, t);
    ThreadAt(s, t);
    NodeAt(s, n);
    ChainCons(s, z, n);
    SwingNode(s, z, t, n, z.threads[t]);
    ListStep(s, z, t, n);
  }

  lemma FailNode(s: State, z: State, t: nat, n: nat, pc: Pc)
    requires s.Shape() && |s.threads| + 1 < FLAG && s.Block(n) && NodeOk(s, n)
    requires t < |s.threads| && s.threads[t].PutFail? && s.threads[t].n == n
    requires s.phase[n] == Pushing(t) && s.Listable(n)
    requires s.refs[n] == 1 ==> pc.PutNext? && pc.n == n
    requires s.refs[n] != 1 ==> !pc.Touches(n)
    requires z == s.SetRefs(n, WordAdd(s.refs[n], FLAG - 1), if s.refs[n] == 1 then Claimed(t) else Flagged).With(t, pc)
    ensures NodeOk(z, n)
    ensures s.refs[n] == 1 <==> Holders(s, n) == {}
  {
    hide WordAdd, Holders;
    FewHolders(s, n);
    NoWrap(s.refs[n], FLAG - 1);
    HoldersAfter(s, z, t, n);
  }

  /** The head moved: the block is flagged again, and linked again at once iff no reader is left on it. */
  lemma FailStep(s: State, t: nat)
    requires Inv(s) && t < |s.threads| && s.threads[t].PutFail?
    ensures Inv(Put(s, t))
  {
    hide WordAdd, WordSub, Holders, NodeOk, Chain, Nodes, Threads;
    var n := s.threads[t].n;
    var z := Put(s, t);
    ThreadAt(s, t);
    NodeAt(s, n);
    FailNode(s, z, t, n, z.threads[t]);
    OneBlockStep(s, z, t, n);
  }

  // ---------------------------------------------------------------- pool, heap, and calls

  lemma IssueNode(s: State, z: State, t: nat)
    requires s.Shape() && s.poolIndex < s.poolSize && NodeOk(s, s.poolIndex)
    requires t < |s.threads| && s.threads[t].PoolTake? && z.Shape()
    requires z == s.(poolIndex := s.poolIndex + 1, phase := s.phase[s.poolIndex := Out], log := z.log).With(t, Idle)
    ensures NodeOk(z, s.poolIndex)
  {
    hide Holders;
    HoldersAfter(s, z, t, s.poolIndex);
  }

  lemma PoolTakeNode(s: State, z: State, t: nat, m: nat, mallocOk: bool)
    requires s.Shape() && s.Block(m) && NodeOk(s, m)
    requires t < |s.threads| && s.threads[t].PoolTake? && z == Acquire(s, t, mallocOk)
    ensures NodeOk(z, m)
  {
    hide Holders;
    if m == s.poolIndex && m < s.poolSize {
      IssueNode(s, z, t);
    } else {
      SameNode(s, z, t, m);
    }
  }

  lemma PoolTakeStep(s: State, t: nat, mallocOk: bool)
    requires Inv(s) && t < |s.threads| && s.threads[t].PoolTake?
    ensures Inv(Acquire(s, t, mallocOk))
    ensures s.poolIndex < s.poolSize ==> s.phase[s.poolIndex] == Unissued
  {
    hide Holders;
    var z := Acquire(s, t, mallocOk);
    if s.poolIndex < s.poolSize {
      NodeAt(s, s.poolIndex);
    }
    assert Nodes(z) by {
      hide NodeOk, Chain, Threads, Acquire;
      forall m | 0 <= m < |z.refs|
        ensures NodeOk(z, m)
      {
        NodeAt(s, m);
        PoolTakeNode(s, z, t, m, mallocOk);
      }
    }
    assert Threads(z) by {
      hide NodeOk, Chain;
      forall j | 0 <= j < |z.threads|
        ensures ThreadOk(z, j, z.threads[j])
      {
        if j != t {
          SameThread(s, z, j, s.threads[j]);
        }
      }
    }
  }

  lemma CreateThreads(s: State, z: State, t: nat, j: nat)
    requires Inv(s) && t < |s.threads| && s.threads[t].GetEmpty? && s.threads[t].alloc && j < |s.threads|
    requires z == Acquire(s, t, true)
    ensures ThreadOk(z, j, z.threads[j]) && !z.threads[j].Touches(|s.refs|)
  {
    hide Chain, Nodes, Holders;
    if j != t {
      assert ThreadOk(s, j, s.threads[j]);
      SameThread(s, z, j, s.threads[j]);
    }
  }

  lemma CreateStep(s: State, t: nat)
    requires Inv(s) && t < |s.threads| && s.threads[t].GetEmpty? && s.threads[t].alloc
    ensures Inv(Acquire(s, t, true))
  {
    hide Nodes, Threads, ThreadOk;
    var n := |s.refs|;
    var z := Acquire(s, t, true);
    forall j | 0 <= j < |z.threads|
      ensures ThreadOk(z, j, z.threads[j]) && !z.threads[j].Touches(n)
    {
      CreateThreads(s, z, t, j);
    }
    NewBlock(s, z, t);
    assert Chain(z) by {
      forall i | 0 <= i < |z.list|
        ensures z.Listable(z.list[i]) && z.next[z.list[i]] == Head(z.list[i + 1..])
      {
        assert s.Listable(s.list[i]);
      }
    }
    ThreadsFrom(z);
  }

  lemma ThreadsFrom(z: State)
    requires z.Shape()
    requires forall j :: 0 <= j < |z.threads| ==> ThreadOk(z, j, z.threads[j])
    ensures Threads(z)
  {
    hide ThreadOk;
  }

  lemma NewBlock(s: State, z: State, t: nat)
    requires Inv(s) && t < |s.threads| && s.threads[t].GetEmpty? && s.threads[t].alloc
    requires z == Acquire(s, t, true)
    requires forall j :: 0 <= j < |z.threads| ==> !z.threads[j].Touches(|s.refs|)
    ensures Nodes(z)
  {
    hide Threads;
    var n := |s.refs|;
    forall m | 0 <= m < |z.refs|
      ensures NodeOk(z, m)
    {
      if m < n {
        NodeAt(s, m);
        SameNode(s, z, t, m);
      } else {
        assert Holders(z, n) == {};
      }
    }
  }

  lemma ReleaseNode(s: State, z: State, t: nat, n: nat)
    requires s.Shape() && s.Block(n) && NodeOk(s, n)
    requires t < |s.threads| && s.threads[t].Idle? && s.phase[n] == Out
    requires z == Begin(s, t, Release(n))
    ensures NodeOk(z, n) && z.phase[n] != Out
    ensures z == s.(phase := s.phase[n := z.phase[n]], log := s.log + [GiveBack(n)],
      threads := s.threads[t := z.threads[t]])
    ensures if s.Listable(n) then z.threads[t] == AddFlag(n) && z.phase[n] == Adding(t) else z.threads[t] == Idle
  {
    hide Holders;
    HoldersAfter(s, z, t, n);
  }

  lemma BeginStep(s: State, t: nat, c: Call)
    requires Inv(s) && t < |s.threads| && s.threads[t].Idle?
    ensures Inv(Begin(s, t, c))
  {
    hide WordAdd, WordSub, Holders, NodeOk, Chain, Nodes, Threads;
    match c
    case Requisition(alloc) => MoveStep(s, t, PoolCheck(alloc));
    case Release(n) =>
      if s.Block(n) && s.phase[n] == Out {
        NodeAt(s, n);
        ReleaseNode(s, Begin(s, t, c), t, n);
        OneBlockStep(s, Begin(s, t, c), t, n);
      }
  }

  lemma GetKeepsInv(s: State, t: nat)
    requires Inv(s) && t < |s.threads|
    ensures Inv(Get(s, t))
  {
    hide Chain, Nodes, Threads, WordAdd, WordSub;
    ThreadAt(s, t);
    match s.threads[t]
    case GetLoad(alloc) => MoveStep(s, t, Resume(s.head, alloc));
    case GetRefs(h, alloc) =>
      MoveStep(s, t, if s.refs[h] % FLAG == 0 then GetLoad(alloc) else GetCas(h, s.refs[h], alloc));
    case GetCas(h, r, alloc) => if s.refs[h] == r { JoinStep(s, t); } else { MoveStep(s, t, GetLoad(alloc)); }
    case GetNext(h, alloc) => MoveStep(s, t, GetSwing(h, s.next[h], alloc));
    case GetSwing(h, nx, alloc) =>
      if s.head == Some(h) { UnlinkStep(s, t); } else { MoveStep(s, t, GetDrop(h, s.head, alloc)); }
    case GetTake(h) => TakeStep(s, t);
    case GetDrop(h, cur, alloc) => DropStep(s, t);
    case _ =>
  }

  lemma PutKeepsInv(s: State, t: nat)
    requires Inv(s) && t < |s.threads|
    ensures Inv(Put(s, t))
  {
    hide Chain, Nodes, Threads, WordAdd, WordSub;
    ThreadAt(s, t);
    match s.threads[t]
    case AddFlag(n) => FlagStep(s, t);
    case PutLoad(n, k) => MoveStep(s, t, PutNext(n, s.head, k));
    case PutNext(n, to, k) => LinkStep(s, t);
    case PutRefs(n, to, k) => PublishStep(s, t);
    case PutSwing(n, to, k) =>
      if s.head == to { SwingStep(s, t); } else { MoveStep(s, t, PutFail(n, s.head, k)); }
    case PutFail(n, to, k) => FailStep(s, t);
    case _ =>
  }

  lemma StepKeepsInv(s: State, t: nat, c: Call, mallocOk: bool)
    requires Inv(s) && t < |s.threads|
    ensures Inv(Step(s, t, c, mallocOk))
  {
    hide Chain, Nodes, Threads, Begin, Get, Put;
    match s.threads[t]
    case Idle => BeginStep(s, t, c);
    case PoolCheck(alloc) => MoveStep(s, t, if s.poolIndex >= s.poolSize then GetLoad(alloc) else PoolTake(alloc));
    case PoolTake(alloc) => PoolTakeStep(s, t, mallocOk);
    case GetEmpty(alloc) => if alloc && mallocOk { CreateStep(s, t); } else { MoveStep(s, t, Idle); }
    case _ =>
      GetKeepsInv(s, t);
      PutKeepsInv(s, t);
  }

  // ---------------------------------------------------------------- the log

  /** How one step may extend the log: a hand-out of a block that was not out, or a return of one that was. */
  ghost predicate LogStep(s: State, z: State)
    requires s.Shape() && z.Shape()
  {
    && |s.refs| <= |z.refs|
    && (if z.log == s.log then forall m :: 0 <= m < |s.refs| ==> (z.phase[m] == Out <==> s.phase[m] == Out)
        else
          && |z.log| == |s.log| + 1 && z.log[..|s.log|] == s.log
          && var n := z.log[|s.log|].n;
             && z.Block(n)
             && (if z.log[|s.log|].HandOut? then z.phase[n] == Out && (n < |s.refs| ==> s.phase[n] != Out)
                 else s.Block(n) && s.phase[n] == Out && z.phase[n] != Out)
             && forall m :: 0 <= m < |s.refs| && m != n ==> (z.phase[m] == Out <==> s.phase[m] == Out))
  }

  lemma AcquireLogs(s: State, t: nat, mallocOk: bool)
    requires Inv(s) && t < |s.threads|
    requires var pc := s.threads[t]; pc.PoolCheck? || pc.PoolTake? || pc.GetEmpty?
    ensures LogStep(s, Acquire(s, t, mallocOk))
  {
    if s.threads[t].PoolTake? && s.poolIndex < s.poolSize {
      assert NodeOk(s, s.poolIndex);
    }
  }

  lemma GetLogs(s: State, t: nat)
    requires Inv(s) && t < |s.threads|
    ensures LogStep(s, Get(s, t))
  {
    hide WordAdd, WordSub, Chain, Nodes, Threads;
    ThreadAt(s, t);
    if s.threads[t].GetSwing? && s.head == Some(s.threads[t].h) {
      HeadListed(s);
    }
    if s.threads[t].GetDrop? {
      DropPhase(s, t);
    }
  }

  lemma DropPhase(s: State, t: nat)
    requires Inv(s) && t < |s.threads| && s.threads[t].GetDrop?
    ensures s.Shape() && s.Block(s.threads[t].h)
    ensures s.refs[s.threads[t].h] == FLAG + 1 ==> s.phase[s.threads[t].h].Flagged?
  {
    assert ThreadOk(s, t, s.threads[t]);
    DropNode(s, Get(s, t), t, s.threads[t].h);
  }

  lemma PutLogs(s: State, t: nat)
    requires Inv(s) && t < |s.threads|
    ensures LogStep(s, Put(s, t))
  {
    hide WordAdd, WordSub, Chain, Nodes, Threads;
    ThreadAt(s, t);
  }

  lemma StepLogs(s: State, t: nat, c: Call, mallocOk: bool)
    requires Inv(s) && t < |s.threads|
    ensures LogStep(s, Step(s, t, c, mallocOk))
  {
    hide Chain, Nodes, Threads, Get, Put, Acquire;
    var pc := s.threads[t];
    if pc.PoolCheck? || pc.PoolTake? || pc.GetEmpty? {
      AcquireLogs(s, t, mallocOk);
    } else {
      GetLogs(s, t);
      PutLogs(s, t);
    }
  }

  lemma LogStepAlternates(s: State, z: State)
    requires s.Shape() && z.Shape() && Alternates(s) && LogStep(s, z)
    ensures Alternates(z)
  {
    if z.log != s.log {
      var last := z.log[|s.log|];
      assert forall i :: 0 <= i < |s.log| ==> z.log[i] == s.log[i];
      forall i | 0 <= i < |z.log| && z.log[i].HandOut? && z.phase[z.log[i].n] != Out
        ensures exists k :: i < k < |z.log| && z.log[k] == GiveBack(z.log[i].n)
      {
        if last == GiveBack(z.log[i].n) {
          assert z.log[|s.log|] == GiveBack(z.log[i].n);
        } else {
          var k :| i < k < |s.log| && s.log[k] == GiveBack(s.log[i].n);
          assert z.log[k] == GiveBack(z.log[i].n);
        }
      }
      forall i, j | 0 <= i < j < |z.log| && z.log[i].HandOut? && z.log[j] == z.log[i]
        ensures exists k :: i < k < j && z.log[k] == GiveBack(z.log[i].n)
      {
        if j < |s.log| {
          var k :| i < k < j && s.log[k] == GiveBack(s.log[i].n);
          assert z.log[k] == GiveBack(z.log[i].n);
        } else {
          assert last == HandOut(z.log[i].n);
          var k :| i < k < |s.log| && s.log[k] == GiveBack(s.log[i].n);
          assert z.log[k] == GiveBack(z.log[i].n);
        }
      }
    }
  }

  // ---------------------------------------------------------------- runs

  datatype Move = Move(t: nat, c: Call, mallocOk: bool)

  function Run(s: State, schedule: seq<Move>): (z: State)
    requires s.Shape()
    ensures z.Shape() && |z.threads| == |s.threads|
    decreases |schedule|
  {
    if schedule == [] then s
    else
      var m := schedule[0];
      if m.t < |s.threads| then
        Run(Step(s, m.t, m.c, m.mallocOk), schedule[1..])
      else Run(s, schedule[1..])
  }

  lemma InitInv(recycle: bool, poolSize: nat, threads: nat)
    requires threads + 1 < FLAG
    ensures Inv(Init(recycle, poolSize, threads)) && Alternates(Init(recycle, poolSize, threads))
  {
    var s := Init(recycle, poolSize, threads);
    forall n | 0 <= n < poolSize
      ensures NodeOk(s, n)
    {
      assert Holders(s, n) == {};
    }
  }

  lemma {:induction false} RunKeepsInv(s: State, schedule: seq<Move>)
    requires Inv(s) && Alternates(s)
    ensures Inv(Run(s, schedule)) && Alternates(Run(s, schedule))
    decreases |schedule|
  {
    hide Chain, Nodes, Threads, Step, Alternates, LogStep;
    if schedule != [] {
      var m := schedule[0];
      if m.t < |s.threads| {
        StepKeepsInv(s, m.t, m.c, m.mallocOk);
        StepLogs(s, m.t, m.c, m.mallocOk);
        LogStepAlternates(s, Step(s, m.t, m.c, m.mallocOk));
        RunKeepsInv(Step(s, m.t, m.c, m.mallocOk), schedule[1..]);
      } else {
        RunKeepsInv(s, schedule[1..]);
      }
    }
  }

  function Reached(recycle: bool, poolSize: nat, threads: nat, schedule: seq<Move>): (s: State)
    ensures s.Shape() && |s.threads| == threads
  {
    Run(Init(recycle, poolSize, threads), schedule)
  }

  lemma ReachedInv(recycle: bool, poolSize: nat, threads: nat, schedule: seq<Move>)
    requires threads + 1 < FLAG
    ensures Inv(Reached(recycle, poolSize, threads, schedule))
    ensures Alternates(Reached(recycle, poolSize, threads, schedule))
  {
    hide Chain, Nodes, Threads, Alternates;
    InitInv(recycle, poolSize, threads);
    RunKeepsInv(Init(recycle, poolSize, threads), schedule);
  }

  // ---------------------------------------------------------------- what every run satisfies

  /** No block is handed out twice without a return in between. */
  lemma NoDoubleHandOut(recycle: bool, poolSize: nat, threads: nat, schedule: seq<Move>, i: nat, j: nat)
    requires threads + 1 < FLAG
    requires var log := Reached(recycle, poolSize, threads, schedule).log;
      i < j < |log| && log[i].HandOut? && log[j] == log[i]
    ensures var log := Reached(recycle, poolSize, threads, schedule).log;
      exists k :: i < k < j && log[k] == GiveBack(log[i].n)
  {
    hide Chain, Nodes, Threads;
    ReachedInv(recycle, poolSize, threads, schedule);
  }

  /** Following next pointers from the head visits distinct blocks and ends. */
  lemma ListIsAcyclic(recycle: bool, poolSize: nat, threads: nat, schedule: seq<Move>)
    requires threads + 1 < FLAG
    ensures var s := Reached(recycle, poolSize, threads, schedule);
      && s.head == Head(s.list)
      && (forall i :: 0 <= i < |s.list| ==> s.Block(s.list[i]) && s.next[s.list[i]] == Head(s.list[i + 1..]))
      && (forall i, j :: 0 <= i < j < |s.list| ==> s.list[i] != s.list[j])
  {
    hide Nodes, Threads;
    ReachedInv(recycle, poolSize, threads, schedule);
  }

  /** A next pointer changes only while nobody holds a reference to its block. */
  lemma NextIsFrozen(recycle: bool, poolSize: nat, threads: nat, schedule: seq<Move>, m: Move, n: nat)
    requires threads + 1 < FLAG && m.t < threads
    ensures var s := Reached(recycle, poolSize, threads, schedule);
      s.Block(n) ==>
        var z := Step(s, m.t, m.c, m.mallocOk);
        z.Block(n) && (z.next[n] != s.next[n] ==> Holders(s, n) == {} && s.threads[m.t].Claims(n))
  {
    hide Chain, Nodes, Threads, WordAdd, WordSub, Holders, NodeOk, ThreadOk, LinkOk, ContOk;
    ReachedInv(recycle, poolSize, threads, schedule);
    var s := Reached(recycle, poolSize, threads, schedule);
    if s.threads[m.t].PutNext? {
      LinkStep(s, m.t);
    }
  }

  /** The thread that unlinked a block finds the flag clear, as the source asserts. */
  lemma UnlinkedBlockIsUnflagged(recycle: bool, poolSize: nat, threads: nat, schedule: seq<Move>, t: nat)
    requires threads + 1 < FLAG && t < threads
    ensures var s := Reached(recycle, poolSize, threads, schedule);
      s.threads[t].GetTake? ==> s.Block(s.threads[t].h) && s.refs[s.threads[t].h] < FLAG
  {
    hide Chain, Nodes, Threads;
    ReachedInv(recycle, poolSize, threads, schedule);
    var s := Reached(recycle, poolSize, threads, schedule);
    ThreadAt(s, t);
    if s.threads[t].GetTake? {
      TakeStep(s, t);
    }
  }

  // ---------------------------------------------------------------- block ownership

  datatype Home = InPool | WithProducer | OnList | BeingAdded | BeingTaken | AwaitingReader | Freed

  ghost predicate SomeoneAdds(s: State, n: nat) {
    exists t :: 0 <= t < |s.threads| && (s.threads[t] == AddFlag(n) || s.threads[t].Claims(n) || s.threads[t].Pushes(n))
  }

  ghost predicate SomeoneTakes(s: State, n: nat) {
    exists t :: 0 <= t < |s.threads| && s.threads[t] == GetTake(n)
  }

  /** Every place block `n` can be found in, read off the shared words and the threads. */
  ghost function Homes(s: State, n: nat): set<Home>
    requires s.Shape() && s.Block(n)
  {
    (if s.poolIndex <= n < s.poolSize then {InPool} else {})
    + (if s.phase[n] == Out then {WithProducer} else {})
    + (if n in s.list then {OnList} else {})
    + (if SomeoneAdds(s, n) then {BeingAdded} else {})
    + (if SomeoneTakes(s, n) then {BeingTaken} else {})
    + (if s.refs[n] >= FLAG && Holders(s, n) != {} then {AwaitingReader} else {})
    + (if s.phase[n] == Destroyed then {Freed} else {})
  }

  lemma FlagReadsTrue(s: State, n: nat)
    requires Inv(s) && s.Block(n)
    ensures s.refs[n] < WORD
    ensures s.refs[n] >= FLAG <==> HasFlag(s.phase[n])
    ensures s.refs[n] % FLAG == (if HasListRef(s.phase[n]) then 1 else 0) + |Holders(s, n)|
  {
    hide Chain, Threads;
    assert NodeOk(s, n);
    FewHolders(s, n);
  }

  lemma AddersByPhase(s: State, n: nat)
    requires Inv(s) && s.Block(n)
    ensures SomeoneAdds(s, n) <==> s.phase[n].Adding? || s.phase[n].Claimed? || s.phase[n].Pushing?
    ensures SomeoneTakes(s, n) <==> s.phase[n].Taken?
  {
    hide Chain, Holders;
    assert NodeOk(s, n);
    if SomeoneAdds(s, n) {
      var t :| 0 <= t < |s.threads| && (s.threads[t] == AddFlag(n) || s.threads[t].Claims(n) || s.threads[t].Pushes(n));
      assert ThreadOk(s, t, s.threads[t]);
    }
    if SomeoneTakes(s, n) {
      var t :| 0 <= t < |s.threads| && s.threads[t] == GetTake(n);
      assert ThreadOk(s, t, s.threads[t]);
    }
  }

  /** Ownership is conserved: every block is in exactly one place, and never lost. */
  lemma OneHome(recycle: bool, poolSize: nat, threads: nat, schedule: seq<Move>, n: nat)
    requires threads + 1 < FLAG
    ensures var s := Reached(recycle, poolSize, threads, schedule);
      s.Block(n) ==> |Homes(s, n)| == 1
  {
    hide Chain, Nodes, Threads;
    ReachedInv(recycle, poolSize, threads, schedule);
    var s := Reached(recycle, poolSize, threads, schedule);
    if s.Block(n) {
      PhaseIsHome(s, n);
    }
  }

  function HomeOf(p: Phase): Home {
    match p
    case Unissued => InPool
    case Out => WithProducer
    case Listed => OnList
    case Taken(_) => BeingTaken
    case Flagged => AwaitingReader
    case Destroyed => Freed
    case _ => BeingAdded
  }

  lemma PhaseIsHome(s: State, n: nat)
    requires Inv(s) && s.Block(n)
    ensures Homes(s, n) == {HomeOf(s.phase[n])}
  {
    hide Chain, Threads, Holders, SomeoneAdds, SomeoneTakes;
    AddersByPhase(s, n);
    FlagReadsTrue(s, n);
    assert NodeOk(s, n);
  }

  /** A block freed to the heap is referenced by no thread and not on the list. */
  lemma FreedIsUntouched(recycle: bool, poolSize: nat, threads: nat, schedule: seq<Move>, n: nat, t: nat)
    requires threads + 1 < FLAG && t < threads
    ensures var s := Reached(recycle, poolSize, threads, schedule);
      s.Block(n) && s.phase[n] == Destroyed ==>
        !s.threads[t].Touches(n) && n !in s.list
        && !(s.threads[t].GetRefs? && s.threads[t].h == n) && !(s.threads[t].GetCas? && s.threads[t].h == n)
  {
    hide Chain, Holders;
    ReachedInv(recycle, poolSize, threads, schedule);
    var s := Reached(recycle, poolSize, threads, schedule);
    if s.Block(n) {
      assert NodeOk(s, n);
      ThreadAt(s, t);
    }
  }

  /**
   * With nothing in flight every returned block is on the list, with the list's one reference; all others have none.
   */
  lemma QuietList(recycle: bool, poolSize: nat, threads: nat, schedule: seq<Move>, n: nat)
    requires threads + 1 < FLAG
    requires forall t :: 0 <= t < threads ==> Reached(recycle, poolSize, threads, schedule).threads[t].Idle?
    ensures var s := Reached(recycle, poolSize, threads, schedule);
      s.Block(n) ==>
        && (n in s.list <==> s.phase[n] != Out && s.phase[n] != Destroyed && !(s.poolIndex <= n < s.poolSize))
        && s.refs[n] == if n in s.list then 1 else 0
  {
    hide Chain, Threads;
    ReachedInv(recycle, poolSize, threads, schedule);
    var s := Reached(recycle, poolSize, threads, schedule);
    if s.Block(n) {
      assert NodeOk(s, n);
      assert Holders(s, n) == {};
    }
  }

  // ---------------------------------------------------------------- undisturbed calls

  predicate AllIdle(s: State) {
    forall t :: 0 <= t < |s.threads| ==> s.threads[t].Idle?
  }

  function Times(m: Move, n: nat): (ms: seq<Move>)
    ensures |ms| == n
    ensures n > 0 ==> ms[0] == m && ms[1..] == Times(m, n - 1)
  {
    if n == 0 then [] else [m] + Times(m, n - 1)
  }

  lemma OneMove(s: State, m: Move, n: nat, z: State)
    requires s.Shape() && m.t < |s.threads| && n > 0 && z == Step(s, m.t, m.c, m.mallocOk)
    ensures z.Shape() && Run(s, Times(m, n)) == Run(z, Times(m, n - 1))
  {
    hide Step;
  }

  /** With nothing in flight a listed block has the list's reference only, and one with a producer none. */
  lemma QuietRefs(s: State, n: nat)
    requires Inv(s) && AllIdle(s) && s.Block(n)
    ensures n in s.list ==> s.refs[n] == 1
    ensures s.phase[n] == Out ==> s.refs[n] == 0
  {
    hide Chain, Threads;
    assert NodeOk(s, n);
    assert Holders(s, n) == {};
  }

  lemma PoolServes(s: State, m: Move)
    requires s.Shape() && m.t < |s.threads| && s.threads[m.t].Idle? && m.c.Requisition? && s.poolIndex < s.poolSize
    ensures var z := Run(s, Times(m, 3));
      z.log == s.log + [HandOut(s.poolIndex)] && z.list == s.list && z.threads == s.threads
  {
    var t := m.t;
    var s1 := s.With(t, PoolCheck(m.c.alloc));
    OneMove(s, m, 3, s1);
    var s2 := s.With(t, PoolTake(m.c.alloc));
    assert s1.threads[t := s2.threads[t]] == s2.threads;
    OneMove(s1, m, 2, s2);
    var z := Step(s2, t, m.c, m.mallocOk);
    OneMove(s2, m, 1, z);
    assert z.threads == s.threads;
  }

  /** The pool is used up: the list is looked at. */
  lemma PoolPassed(s: State, m: Move, n: nat)
    requires s.Shape() && m.t < |s.threads| && s.threads[m.t].Idle? && m.c.Requisition? && s.poolIndex >= s.poolSize
      && n >= 3
    ensures var z := s.With(m.t, Resume(s.head, m.c.alloc));
      z.Shape() && Run(s, Times(m, n)) == Run(z, Times(m, n - 3))
  {
    var t := m.t;
    var s1 := s.With(t, PoolCheck(m.c.alloc));
    OneMove(s, m, n, s1);
    var s2 := s.With(t, GetLoad(m.c.alloc));
    assert s1.threads[t := s2.threads[t]] == s2.threads;
    OneMove(s1, m, n - 1, s2);
    var z := s.With(t, Resume(s.head, m.c.alloc));
    assert s2.threads[t := z.threads[t]] == z.threads;
    OneMove(s2, m, n - 2, z);
  }

  lemma HeapServes(s: State, m: Move)
    requires s.Shape() && m.t < |s.threads| && s.threads[m.t].Idle? && m.c.Requisition? && s.poolIndex >= s.poolSize
    requires s.head == None
    ensures var z := Run(s, Times(m, 4));
      && z.log == s.log + (if m.c.alloc && m.mallocOk then [HandOut(|s.refs|)] else [])
      && z.list == s.list && z.threads == s.threads
  {
    hide Step, Run, Times;
    PoolPassed(s, m, 4);
    var s3 := s.With(m.t, GetEmpty(m.c.alloc));
    HeapAnswers(s, m);
    OneMove(s3, m, 1, Step(s3, m.t, m.c, m.mallocOk));
    assert Run(s3, Times(m, 1)) == Step(s3, m.t, m.c, m.mallocOk) by { NoMoves(Step(s3, m.t, m.c, m.mallocOk), m); }
  }

  lemma NoMoves(s: State, m: Move)
    requires s.Shape()
    ensures Run(s, Times(m, 0)) == s
  {
  }

  lemma HeapAnswers(s: State, m: Move)
    requires s.Shape() && m.t < |s.threads| && s.threads[m.t].Idle? && m.c.Requisition?
    ensures var z := Step(s.With(m.t, GetEmpty(m.c.alloc)), m.t, m.c, m.mallocOk);
      && z.log == s.log + (if m.c.alloc && m.mallocOk then [HandOut(|s.refs|)] else [])
      && z.list == s.list && z.threads == s.threads
  {
    hide Begin, Get, Put;
    assert s.log + [] == s.log;
    assert s.threads[m.t := Idle] == s.threads;
  }

  /** From the first load of the head on, an undisturbed `try_get` takes the first block of the list. */
  lemma ListServes(s: State, m: Move, h: nat)
    requires Inv(s) && AllIdle(s) && m.t < |s.threads| && m.c.Requisition? && s.poolIndex >= s.poolSize
    requires s.list != [] && s.list[0] == h
    ensures var z := Run(s, Times(m, 8));
      z.log == s.log + [HandOut(h)] && z.list == s.list[1..] && z.threads == s.threads && z.head == Head(s.list[1..])
  {
    hide Inv, Chain, Step, Run;
    FrontOfList(s);
    QuietRefs(s, h);
    PoolPassed(s, m, 8);
    ListReferences(s, m, h);
  }

  lemma ListReferences(s: State, m: Move, h: nat)
    requires s.Shape() && m.t < |s.threads| && s.threads[m.t].Idle? && m.c.Requisition? && s.Block(h) && s.refs[h] == 1
    requires s.list != [] && s.list[0] == h && s.head == Some(h) && s.next[h] == Head(s.list[1..])
    ensures var s3 := s.With(m.t, GetRefs(h, m.c.alloc));
      var z := Run(s3, Times(m, 5));
      z.log == s.log + [HandOut(h)] && z.list == s.list[1..] && z.threads == s.threads && z.head == Head(s.list[1..])
  {
    hide Begin, Acquire, Put;
    var t, alloc := m.t, m.c.alloc;
    var s3 := s.With(t, GetRefs(h, alloc));
    var s4 := s.With(t, GetCas(h, 1, alloc));
    assert s3.threads[t := s4.threads[t]] == s4.threads;
    OneMove(s3, m, 5, s4);
    var s5 := s.(refs := s.refs[h := 2]).With(t, GetNext(h, alloc));
    assert s4.threads[t := s5.threads[t]] == s5.threads;
    OneMove(s4, m, 4, s5);
    ListServesRest(s, m, h, s5);
  }

  lemma FrontOfList(s: State)
    requires Inv(s) && s.list != []
    ensures s.Shape() && s.Block(s.list[0]) && s.head == Some(s.list[0]) && s.next[s.list[0]] == Head(s.list[1..])
  {
    hide Nodes, Threads;
  }

  lemma ListServesRest(s: State, m: Move, h: nat, s5: State)
    requires s.Shape() && m.t < |s.threads| && s.threads[m.t].Idle? && m.c.Requisition?
    requires s.list != [] && s.list[0] == h && s.Block(h) && s.head == Some(h) && s.next[h] == Head(s.list[1..])
    requires s5 == s.(refs := s.refs[h := 2]).With(m.t, GetNext(h, m.c.alloc))
    ensures var z := Run(s5, Times(m, 3));
      z.log == s.log + [HandOut(h)] && z.list == s.list[1..] && z.threads == s.threads && z.head == Head(s.list[1..])
  {
    hide Begin, Acquire, Put;
    var t := m.t;
    var s6 := s5.With(t, GetSwing(h, Head(s.list[1..]), m.c.alloc));
    OneMove(s5, m, 3, s6);
    var s7 := s6.(head := Head(s.list[1..]), list := s.list[1..], phase := s.phase[h := Taken(t)]).With(t, GetTake(h));
    OneMove(s6, m, 2, s7);
    assert s7.threads == s.threads[t := GetTake(h)];
    ListTakes(s, m, h, s7);
  }

  lemma ListTakes(s: State, m: Move, h: nat, s7: State)
    requires s.Shape() && m.t < |s.threads| && s.threads[m.t].Idle? && s7.Shape() && s7.Block(h)
    requires s7.threads == s.threads[m.t := GetTake(h)] && s7.log == s.log
    ensures var z := Run(s7, Times(m, 1));
      z.log == s.log + [HandOut(h)] && z.list == s7.list && z.threads == s.threads && z.head == s7.head
  {
    hide Begin, Acquire, Put;
    var z := Step(s7, m.t, m.c, m.mallocOk);
    OneMove(s7, m, 1, z);
    assert z.threads == s.threads;
  }

  /**
   * With nothing else in flight a requisition is served from the initial pool while that lasts, then from the front of
   * the list, and only then from the heap, if it may; and it changes the list by nothing else.
   */
  lemma UndisturbedRequisition(s: State, m: Move)
    requires Inv(s) && AllIdle(s) && m.t < |s.threads| && m.c.Requisition?
    ensures
      if s.poolIndex < s.poolSize then
        var z := Run(s, Times(m, 3)); AllIdle(z) && z.log == s.log + [HandOut(s.poolIndex)] && z.list == s.list
      else if s.list != [] then
        var z := Run(s, Times(m, 8)); AllIdle(z) && z.log == s.log + [HandOut(s.list[0])] && z.list == s.list[1..]
      else
        var z := Run(s, Times(m, 4));
        && AllIdle(z) && z.list == []
        && z.log == s.log + (if m.c.alloc && m.mallocOk then [HandOut(|s.refs|)] else [])
  {
    hide Nodes, Threads, Run, Times;
    if s.poolIndex < s.poolSize {
      PoolServes(s, m);
    } else if s.list != [] {
      ListServes(s, m, s.list[0]);
    } else {
      HeapServes(s, m);
    }
  }

  /** And the return of a block that may be listed puts it at the front. */
  lemma UndisturbedRelease(s: State, m: Move)
    requires Inv(s) && AllIdle(s) && m.t < |s.threads| && m.c.Release? && s.Listable(m.c.n) && s.phase[m.c.n] == Out
    ensures var z := Run(s, Times(m, 6));
      AllIdle(z) && z.list == [m.c.n] + s.list && z.log == s.log + [GiveBack(m.c.n)]
  {
    hide Inv, Acquire, Get;
    var t, n := m.t, m.c.n;
    ShapeOf(s);
    QuietRefs(s, n);
    var s1 := s.(phase := s.phase[n := Adding(t)], log := s.log + [GiveBack(n)]).With(t, AddFlag(n));
    OneMove(s, m, 6, s1);
    ReleaseFlags(s, m, s1);
  }

  lemma ShapeOf(s: State)
    requires Inv(s)
    ensures s.Shape()
  {
  }

  lemma ReleaseFlags(s: State, m: Move, s1: State)
    requires s.Shape() && AllIdle(s) && m.t < |s.threads| && m.c.Release? && s.Block(m.c.n) && s.refs[m.c.n] == 0
    requires s1 == s.(phase := s.phase[m.c.n := Adding(m.t)], log := s.log + [GiveBack(m.c.n)])
                    .With(m.t, AddFlag(m.c.n))
    ensures var z := Run(s1, Times(m, 5));
      AllIdle(z) && z.list == [m.c.n] + s.list && z.log == s.log + [GiveBack(m.c.n)]
  {
    hide Begin, Acquire, Get;
    var t, n := m.t, m.c.n;
    var s2 := s1.SetRefs(n, FLAG, Claimed(t)).With(t, PutLoad(n, AddReturns));
    OneMove(s1, m, 5, s2);
    var s3 := s2.With(t, PutNext(n, s.head, AddReturns));
    OneMove(s2, m, 4, s3);
    ReleaseRest(s, m, s3);
  }

  lemma ReleaseRest(s: State, m: Move, s3: State)
    requires s.Shape() && AllIdle(s) && m.t < |s.threads| && m.c.Release? && s.Block(m.c.n)
    requires s3.Shape() && s3.head == s.head && s3.list == s.list && |s3.refs| == |s.refs|
    requires s3.log == s.log + [GiveBack(m.c.n)] && s3.threads == s.threads[m.t := PutNext(m.c.n, s.head, AddReturns)]
    ensures var z := Run(s3, Times(m, 3));
      AllIdle(z) && z.list == [m.c.n] + s.list && z.log == s.log + [GiveBack(m.c.n)]
  {
    hide Begin, Acquire, Get;
    var t, n := m.t, m.c.n;
    var s4 := Step(s3, t, m.c, m.mallocOk);
    OneMove(s3, m, 3, s4);
    assert s4.threads == s.threads[t := PutRefs(n, s.head, AddReturns)];
    ReleaseLinks(s, m, s4);
  }

  lemma ReleaseLinks(s: State, m: Move, s4: State)
    requires s.Shape() && AllIdle(s) && m.t < |s.threads| && m.c.Release? && s.Block(m.c.n)
    requires s4.Shape() && s4.head == s.head && s4.list == s.list && |s4.refs| == |s.refs|
    requires s4.log == s.log + [GiveBack(m.c.n)] && s4.threads == s.threads[m.t := PutRefs(m.c.n, s.head, AddReturns)]
    ensures var z := Run(s4, Times(m, 2));
      AllIdle(z) && z.list == [m.c.n] + s.list && z.log == s.log + [GiveBack(m.c.n)]
  {
    hide Begin, Acquire, Get;
    var t, n := m.t, m.c.n;
    var s5 := Step(s4, t, m.c, m.mallocOk);
    OneMove(s4, m, 2, s5);
    var z := Step(s5, t, m.c, m.mallocOk);
    OneMove(s5, m, 1, z);
    assert z.threads == s.threads;
  }

  // ---------------------------------------------------------------- the pool in memory

  /** The shared words of the free list and the initial pool, and the threads that use them. */
  class BlockPool {
    const recycle: bool
    const poolSize: nat
    var poolIndex: nat
    var freeListHead: Option<nat>
    var freeListRefs: seq<nat>
    var freeListNext: seq<Option<nat>>
    var dynamicallyAllocated: seq<bool>
    const threads: array<Pc>
    ghost var list: seq<nat>
    ghost var phase: seq<Phase>
    ghost var log: seq<Event>

    ghost function Snapshot(): State
      reads this, threads
    {
      State(recycle, poolSize, poolIndex, freeListHead, freeListRefs, freeListNext, dynamicallyAllocated,
            threads[..], list, phase, log)
    }

    ghost predicate Valid()
      reads this, threads
    {
      Inv(Snapshot())
    }

    constructor (recycle: bool, poolSize: nat, n: nat)
      requires n + 1 < FLAG
      ensures Valid() && fresh(threads) && Snapshot() == Init(recycle, poolSize, n)
    {
      this.recycle, this.poolSize, poolIndex := recycle, poolSize, 0;
      freeListHead := None;
      freeListRefs := seq(poolSize, _ => 0);
      freeListNext := seq(poolSize, _ => None);
      dynamicallyAllocated := seq(poolSize, _ => false);
      threads := new Pc[n](_ => Idle);
      list, phase, log := [], seq(poolSize, _ => Unissued), [];
      new;
      InitInv(recycle, poolSize, n);
      assert Snapshot() == Init(recycle, poolSize, n);
    }

    /**
     * One atomic access of thread `t`; an idle thread begins call `c`, which the caller may make only on a block it
     * has.
     */
    method Advance(t: nat, c: Call, mallocOk: bool)
      requires Valid() && t < threads.Length
      requires threads[t].Idle? && c.Release? ==> c.n < |freeListRefs| && phase[c.n] == Out
      modifies this, threads
      ensures Valid() && Snapshot() == Step(old(Snapshot()), t, c, mallocOk)
    {
      hide Chain, Nodes, Threads, WordAdd, WordSub;
      ghost var s := Snapshot();
      StepKeepsInv(s, t, c, mallocOk);
      ThreadAt(s, t);
      var pc := threads[t];
      if pc.Idle? {
        StartCall(t, c);
      } else if pc.PoolCheck? || pc.PoolTake? || pc.GetEmpty? {
        Requisition(t, mallocOk);
      } else if pc.AddFlag? || pc.PutLoad? || pc.PutNext? || pc.PutRefs? || pc.PutSwing? || pc.PutFail? {
        Add(t);
      } else {
        TryGet(t);
      }
    }

    method StartCall(t: nat, c: Call)
      requires Snapshot().Shape() && t < threads.Length && threads[t].Idle?
      requires c.Release? ==> c.n < |freeListRefs| && phase[c.n] == Out
      modifies this, threads
      ensures Snapshot() == Begin(old(Snapshot()), t, c)
    {
      match c
      case Requisition(alloc) => threads[t] := PoolCheck(alloc);
      case Release(n) =>
        log := log + [GiveBack(n)];
        if !recycle && dynamicallyAllocated[n] {
          phase := phase[n := Destroyed];
        } else {
          phase := phase[n := Adding(t)];
          threads[t] := AddFlag(n);
        }
    }

    /** `requisition_block` outside the free list. */
    method Requisition(t: nat, mallocOk: bool)
      requires Snapshot().Shape() && t < threads.Length
      requires var pc := threads[t]; pc.PoolCheck? || pc.PoolTake? || pc.GetEmpty?
      modifies this, threads
      ensures Snapshot() == Acquire(old(Snapshot()), t, mallocOk)
    {
      match threads[t]
      case PoolCheck(alloc) => threads[t] := if poolIndex >= poolSize then GetLoad(alloc) else PoolTake(alloc);
      case PoolTake(alloc) =>
        var index := poolIndex;
        poolIndex := poolIndex + 1;
        if index < poolSize {
          phase, log := phase[index := Out], log + [HandOut(index)];
          threads[t] := Idle;
        } else {
          threads[t] := GetLoad(alloc);
        }
      case GetEmpty(alloc) =>
        if alloc && mallocOk {
          phase, log := phase + [Out], log + [HandOut(|freeListRefs|)];
          freeListRefs := freeListRefs + [0];
          freeListNext := freeListNext + [None];
          dynamicallyAllocated := dynamicallyAllocated + [true];
        }
        threads[t] := Idle;
    }

    /** `try_get`. */
    method TryGet(t: nat)
      requires Snapshot().Shape() && t < threads.Length && ThreadOk(Snapshot(), t, threads[t])
      requires var pc := threads[t];
        pc.GetLoad? || pc.GetRefs? || pc.GetCas? || pc.GetNext? || pc.GetSwing? || pc.GetTake? || pc.GetDrop?
      requires freeListHead == Head(list)
      modifies this, threads
      ensures Snapshot() == Get(old(Snapshot()), t)
    {
      hide WordAdd, WordSub;
      match threads[t]
      case GetLoad(alloc) => threads[t] := Resume(freeListHead, alloc);
      case GetRefs(h, alloc) =>
        threads[t] := if freeListRefs[h] % FLAG == 0 then GetLoad(alloc) else GetCas(h, freeListRefs[h], alloc);
      case GetCas(h, r, alloc) =>
        if freeListRefs[h] == r {
          freeListRefs := freeListRefs[h := WordAdd(r, 1)];
          threads[t] := GetNext(h, alloc);
        } else {
          threads[t] := GetLoad(alloc);
        }
      case GetNext(h, alloc) => threads[t] := GetSwing(h, freeListNext[h], alloc);
      case GetSwing(h, nx, alloc) =>
        if freeListHead == Some(h) {
          freeListHead := nx;
          list, phase := list[1..], phase[h := Taken(t)];
          threads[t] := GetTake(h);
        } else {
          threads[t] := GetDrop(h, freeListHead, alloc);
        }
      case GetTake(h) =>
        freeListRefs := freeListRefs[h := WordSub(freeListRefs[h], 2)];
        phase, log := phase[h := Out], log + [HandOut(h)];
        threads[t] := Idle;
      case GetDrop(h, cur, alloc) =>
        var refs := freeListRefs[h];
        freeListRefs := freeListRefs[h := WordSub(refs, 1)];
        if refs == FLAG + 1 {
          phase := phase[h := Claimed(t)];
          threads[t] := PutLoad(h, GetResumes(cur, alloc));
        } else {
          threads[t] := Resume(cur, alloc);
        }
    }

    /** `add` and `add_knowing_refcount_is_zero`. */
    method Add(t: nat)
      requires Snapshot().Shape() && t < threads.Length && ThreadOk(Snapshot(), t, threads[t])
      requires var pc := threads[t];
        pc.AddFlag? || pc.PutLoad? || pc.PutNext? || pc.PutRefs? || pc.PutSwing? || pc.PutFail?
      modifies this, threads
      ensures Snapshot() == Put(old(Snapshot()), t)
    {
      hide WordAdd, WordSub;
      match threads[t]
      case AddFlag(n) =>
        var refs := freeListRefs[n];
        freeListRefs := freeListRefs[n := WordAdd(refs, FLAG)];
        phase := phase[n := if refs == 0 then Claimed(t) else Flagged];
        threads[t] := if refs == 0 then PutLoad(n, AddReturns) else Idle;
      case PutLoad(n, k) => threads[t] := PutNext(n, freeListHead, k);
      case PutNext(n, to, k) =>
        freeListNext := freeListNext[n := to];
        threads[t] := PutRefs(n, to, k);
      case PutRefs(n, to, k) =>
        freeListRefs := freeListRefs[n := 1];
        phase := phase[n := Pushing(t)];
        threads[t] := PutSwing(n, to, k);
      case PutSwing(n, to, k) =>
        if freeListHead == to {
          freeListHead := Some(n);
          list, phase := [n] + list, phase[n := Listed];
          threads[t] := After(k);
        } else {
          threads[t] := PutFail(n, freeListHead, k);
        }
      case PutFail(n, to, k) =>
        var refs := freeListRefs[n];
        freeListRefs := freeListRefs[n := WordAdd(refs, FLAG - 1)];
        phase := phase[n := if refs == 1 then Claimed(t) else Flagged];
        threads[t] := if refs == 1 then PutNext(n, to, k) else After(k);
    }
  }
}
