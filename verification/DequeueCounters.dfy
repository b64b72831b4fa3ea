/**
 * The optimistic dequeue protocol shared by both kinds of producer: any number of dequeuers, single (`max` = 1) or
 * bulk, claim indices below the tail with one fetch-and-add on each of three counters. Indices are unbounded naturals.
 */
module DequeueCounters {

  /** What became of one unit added to `dequeueOptimisticCount`. */
  datatype Fate = Pending | Won | Lost

  datatype Pc =
    | Idle
    | LoadTail(max: nat)
    | LoadOver(max: nat, tail: nat)
    | LoadCount(max: nat, tail: nat, over: nat)
    | Bump(d: nat, over: nat)
    | Recheck(d: nat, over: nat, my: nat)
    | GiveSome(x: nat, a: nat)
    | Advance(a: nat)
    | GiveAll(d: nat)
    | Claimed(first: nat, a: nat)

  /**
   * The four counters, the threads, and two records for the proofs: each unit's fate and each claimed index's thread.
   */
  datatype State = State(
    tail: nat, head: nat, opt: nat, over: nat, threads: seq<Pc>, fate: seq<Fate>, owner: seq<nat>)
  {
    function With(t: nat, pc: Pc): State
      requires t < |threads|
    {
      this.(threads := threads[t := pc])
    }
  }

  function Init(n: nat): State {
    State(0, 0, 0, 0, seq(n, _ => Idle), [], [])
  }

  function Min(a: nat, b: nat): nat {
    if a < b then a else b
  }

  function Repeat<T>(n: nat, x: T): (r: seq<T>)
    ensures |r| == n
    ensures forall k :: 0 <= k < n ==> r[k] == x
  {
    seq(n, _ => x)
  }

  /** The units of a recheck: the first `a` won, the rest lost. */
  function Decide(fate: seq<Fate>, my: nat, d: nat, a: nat): (r: seq<Fate>)
    requires my + d <= |fate| && a <= d
    ensures |r| == |fate|
  {
    fate[..my] + Repeat(a, Won) + Repeat(d - a, Lost) + fate[my + d..]
  }

  /** One atomic step of dequeuer `t`; an idle one asks for up to `max` elements. A claim stays until `Release`. */
  function Step(s: State, t: nat, max: nat): State
    requires t < |s.threads|
  {
    match s.threads[t]
    case Idle => s.With(t, LoadTail(max))
    case LoadTail(m) => s.With(t, LoadOver(m, s.tail))
    case LoadOver(m, tail) => s.With(t, LoadCount(m, tail, s.over))
    case LoadCount(m, tail, over) =>
      var desired: int := tail - (s.opt - over);
      s.With(t, if desired > 0 then Bump(Min(desired, m), over) else Idle)
    case Bump(d, over) =>
      s.(opt := s.opt + d, fate := s.fate + Repeat(d, Pending)).With(t, Recheck(d, over, s.opt))
    case Recheck(d, over, my) =>
      if my + d > |s.fate| then s
      else
        var actual: int := s.tail - (my - over);
        if actual > 0 then
          var a := Min(d, actual);
          s.(fate := Decide(s.fate, my, d, a)).With(t, if a < d then GiveSome(d - a, a) else Advance(a))
        else s.(fate := Decide(s.fate, my, d, 0)).With(t, GiveAll(d))
    case GiveSome(x, a) => s.(over := s.over + x).With(t, Advance(a))
    case Advance(a) =>
      s.(head := s.head + a, owner := s.owner + Repeat(a, t)).With(t, Claimed(s.head, a))
    case GiveAll(d) => s.(over := s.over + d).With(t, Idle)
    case Claimed(_, _) => s
  }

  /** The dequeuer has taken everything it claimed. */
  function Release(s: State, t: nat): State
    requires t < |s.threads|
  {
    s.With(t, Idle)
  }

  /** The producer publishes `n` more elements. */
  function Publish(s: State, n: nat): State {
    s.(tail := s.tail + n)
  }

  // ---------------------------------------------------------------- counting

  ghost function Count(fate: seq<Fate>, f: Fate): nat {
    if fate == [] then 0 else Count(fate[..|fate| - 1], f) + (if fate[|fate| - 1] == f then 1 else 0)
  }

  lemma {:induction false} CountConcat(a: seq<Fate>, b: seq<Fate>, f: Fate)
    ensures Count(a + b, f) == Count(a, f) + Count(b, f)
    decreases |b|
  {
    if b == [] {
      assert a + b == a;
    } else {
      var n := |b| - 1;
      assert (a + b)[..|a + b| - 1] == a + b[..n];
      CountConcat(a, b[..n], f);
    }
  }

  lemma {:induction false} CountRepeat(n: nat, x: Fate, f: Fate)
    ensures Count(Repeat(n, x), f) == if x == f then n else 0
    decreases n
  {
    if n > 0 {
      assert Repeat(n, x)[..n - 1] == Repeat(n - 1, x);
      CountRepeat(n - 1, x, f);
    }
  }

  lemma {:induction false} CountPartition(fate: seq<Fate>)
    ensures Count(fate, Pending) + Count(fate, Won) + Count(fate, Lost) == |fate|
    decreases |fate|
  {
    if fate != [] {
      CountPartition(fate[..|fate| - 1]);
    }
  }

  /** What thread `pc` still owes to the counter that stands for `f`. */
  function Held(pc: Pc, f: Fate): nat {
    match (pc, f)
    case (Recheck(d, _, _), Pending) => d
    case (GiveSome(_, a), Won) => a
    case (GiveSome(x, _), Lost) => x
    case (Advance(a), Won) => a
    case (GiveAll(d), Lost) => d
    case _ => 0
  }

  ghost function Sum(threads: seq<Pc>, f: Fate): nat {
    if threads == [] then 0 else Sum(threads[..|threads| - 1], f) + Held(threads[|threads| - 1], f)
  }

  lemma {:induction false} SumUpdate(threads: seq<Pc>, t: nat, pc: Pc, f: Fate)
    requires t < |threads|
    ensures Sum(threads[t := pc], f) + Held(threads[t], f) == Sum(threads, f) + Held(pc, f)
    decreases |threads|
  {
    var n := |threads| - 1;
    if t == n {
      assert threads[t := pc][..n] == threads[..n];
    } else {
      assert threads[t := pc][..n] == threads[..n][t := pc];
      SumUpdate(threads[..n], t, pc, f);
    }
  }

  lemma {:induction false} SumIdle(threads: seq<Pc>, f: Fate)
    requires forall t :: 0 <= t < |threads| ==> threads[t] == Idle
    ensures Sum(threads, f) == 0
    decreases |threads|
  {
    if threads != [] {
      SumIdle(threads[..|threads| - 1], f);
    }
  }

  // ---------------------------------------------------------------- invariant

  ghost predicate ThreadOk(s: State, t: nat, pc: Pc) {
    match pc
    case LoadCount(_, _, over) => over <= Count(s.fate, Lost)
    case Bump(_, over) => over <= Count(s.fate, Lost)
    case Recheck(d, over, my) =>
      && my + d <= |s.fate| && over <= Count(s.fate[..my], Lost)
      && forall p :: my <= p < my + d ==> s.fate[p] == Pending
    case Claimed(first, a) =>
      first + a <= |s.owner| && forall x :: first <= x < first + a ==> s.owner[x] == t
    case _ => true
  }

  ghost predicate Threads(s: State) {
    forall t :: 0 <= t < |s.threads| ==> ThreadOk(s, t, s.threads[t])
  }

  ghost predicate Apart(s: State) {
    forall i, j :: 0 <= i < j < |s.threads| && s.threads[i].Recheck? && s.threads[j].Recheck? ==>
      || s.threads[i].my + s.threads[i].d <= s.threads[j].my
      || s.threads[j].my + s.threads[j].d <= s.threads[i].my
  }

  function Settled(s: State, f: Fate): nat {
    match f
    case Pending => 0
    case Won => s.head
    case Lost => s.over
  }

  ghost predicate Balanced(s: State) {
    forall f :: Count(s.fate, f) == Settled(s, f) + Sum(s.threads, f)
  }

  /** A unit wins only when the units before it that did not win leave room for it below the tail. */
  ghost predicate WinsFit(s: State) {
    forall p :: 0 <= p < |s.fate| && s.fate[p] == Won ==> p + 1 <= s.tail + Count(s.fate[..p], Lost)
  }

  ghost predicate Inv(s: State) {
    |s.fate| == s.opt && |s.owner| == s.head && Threads(s) && Apart(s) && Balanced(s) && WinsFit(s)
  }

  // ---------------------------------------------------------------- every step keeps the invariant

  lemma Rebalance(s: State, z: State, t: nat)
    requires Balanced(s) && t < |s.threads| && |z.threads| == |s.threads| && z.threads == s.threads[t := z.threads[t]]
    requires forall f :: Count(z.fate, f) + Held(s.threads[t], f) + Settled(s, f)
                      == Count(s.fate, f) + Held(z.threads[t], f) + Settled(z, f)
    ensures Balanced(z)
  {
    forall f
      ensures Count(z.fate, f) == Settled(z, f) + Sum(z.threads, f)
    {
      SumUpdate(s.threads, t, z.threads[t], f);
    }
  }

  /** Steps that leave the fates alone. */
  lemma LightStep(s: State, z: State, t: nat)
    requires Inv(s) && t < |s.threads| && |z.threads| == |s.threads| && z.threads == s.threads[t := z.threads[t]]
    requires z.fate == s.fate && z.opt == s.opt && z.tail == s.tail
    requires s.owner <= z.owner && |z.owner| == z.head
    requires forall f :: Held(s.threads[t], f) + Settled(s, f) == Held(z.threads[t], f) + Settled(z, f)
    requires ThreadOk(z, t, z.threads[t]) && !z.threads[t].Recheck?
    ensures Inv(z)
  {
    Rebalance(s, z, t);
    forall j | 0 <= j < |z.threads|
      ensures ThreadOk(z, j, z.threads[j])
    {
      if j != t {
        assert ThreadOk(s, j, s.threads[j]);
      }
    }
  }

  lemma BumpStep(s: State, t: nat)
    requires Inv(s) && t < |s.threads| && s.threads[t].Bump?
    ensures Inv(Step(s, t, 0))
  {
    hide Count, Sum;
    var z := Step(s, t, 0);
    var d := s.threads[t].d;
    assert ThreadOk(s, t, s.threads[t]);
    forall f
      ensures Count(z.fate, f) + Held(s.threads[t], f) + Settled(s, f)
           == Count(s.fate, f) + Held(z.threads[t], f) + Settled(z, f)
      ensures Count(z.fate, f) >= Count(s.fate, f)
    {
      CountConcat(s.fate, Repeat(d, Pending), f);
      CountRepeat(d, Pending, f);
    }
    Rebalance(s, z, t);
    assert z.fate[..s.opt] == s.fate;
    forall j | 0 <= j < |z.threads|
      ensures ThreadOk(z, j, z.threads[j])
    {
      assert ThreadOk(s, j, s.threads[j]);
      if s.threads[j].Recheck? {
        assert z.fate[..s.threads[j].my] == s.fate[..s.threads[j].my];
      }
    }
    forall p | 0 <= p < |z.fate| && z.fate[p] == Won
      ensures p + 1 <= z.tail + Count(z.fate[..p], Lost)
    {
      assert z.fate[..p] == s.fate[..p];
    }
    assert Apart(z) by {
      forall j | 0 <= j < |s.threads|
        ensures ThreadOk(s, j, s.threads[j])
      {
      }
    }
  }

  /** Settling a recheck adds to both counts, and never lowers the losses before any point. */
  lemma DecideCounts(fate: seq<Fate>, my: nat, d: nat, a: nat, f: Fate)
    requires my + d <= |fate| && a <= d
    requires forall p :: my <= p < my + d ==> fate[p] == Pending
    ensures Count(Decide(fate, my, d, a), f) ==
      if f == Won then Count(fate, f) + a
      else if f == Lost then Count(fate, f) + (d - a)
      else Count(fate, f) - d
    ensures Count(fate, Pending) >= d
  {
    hide Count;
    var x, y, w, l := fate[..my], fate[my + d..], Repeat(a, Won), Repeat(d - a, Lost);
    assert fate == x + Repeat(d, Pending) + y;
    CountConcat(x + Repeat(d, Pending), y, f);
    CountConcat(x, Repeat(d, Pending), f);
    CountConcat(x + Repeat(d, Pending), y, Pending);
    CountConcat(x, Repeat(d, Pending), Pending);
    CountRepeat(d, Pending, f);
    CountRepeat(d, Pending, Pending);
    CountConcat(x + w + l, y, f);
    CountConcat(x + w, l, f);
    CountConcat(x, w, f);
    CountRepeat(a, Won, f);
    CountRepeat(d - a, Lost, f);
  }

  lemma {:induction false} LossesGrow(a: seq<Fate>, b: seq<Fate>, p: nat)
    requires p <= |a| == |b|
    requires forall k :: 0 <= k < |a| && a[k] == Lost ==> b[k] == Lost
    ensures Count(a[..p], Lost) <= Count(b[..p], Lost)
    decreases p
  {
    if p > 0 {
      assert a[..p][..p - 1] == a[..p - 1] && b[..p][..p - 1] == b[..p - 1];
      LossesGrow(a, b, p - 1);
    }
  }

  lemma CountPrefix(fate: seq<Fate>, p: nat, q: nat, f: Fate)
    requires p <= q <= |fate|
    ensures Count(fate[..p], f) <= Count(fate[..q], f)
  {
    assert fate[..q] == fate[..p] + fate[p..q];
    CountConcat(fate[..p], fate[p..q], f);
  }

  lemma RecheckWins(s: State, z: State, t: nat, a: nat)
    requires Inv(s) && t < |s.threads| && s.threads[t].Recheck? && a <= s.threads[t].d
    requires var pc := s.threads[t]; pc.my + a <= s.tail + pc.over || a == 0
    requires s.threads[t].my + s.threads[t].d <= |s.fate|
    requires z.fate == Decide(s.fate, s.threads[t].my, s.threads[t].d, a) && z.tail == s.tail
    ensures WinsFit(z)
  {
    hide Count, Sum;
    var my, d, over := s.threads[t].my, s.threads[t].d, s.threads[t].over;
    assert ThreadOk(s, t, s.threads[t]);
    forall p | 0 <= p < |z.fate| && z.fate[p] == Won
      ensures p + 1 <= z.tail + Count(z.fate[..p], Lost)
    {
      LossesGrow(s.fate, z.fate, p);
      if my <= p < my + a {
        CountPrefix(s.fate, my, p, Lost);
      } else {
        assert s.fate[p] == Won;
      }
    }
  }

  lemma RecheckThreads(s: State, z: State, t: nat, a: nat)
    requires Inv(s) && t < |s.threads| && s.threads[t].Recheck? && a <= s.threads[t].d
    requires s.threads[t].my + s.threads[t].d <= |s.fate|
    requires |z.threads| == |s.threads|
    requires z == s.(fate := Decide(s.fate, s.threads[t].my, s.threads[t].d, a),
      threads := s.threads[t := z.threads[t]])
    requires ThreadOk(z, t, z.threads[t]) && !z.threads[t].Recheck?
    ensures Threads(z) && Apart(z)
  {
    hide Count, Sum;
    assert ThreadOk(s, t, s.threads[t]);
    var my, d := s.threads[t].my, s.threads[t].d;
    forall j | 0 <= j < |z.threads|
      ensures ThreadOk(z, j, z.threads[j])
    {
      if j != t {
        assert ThreadOk(s, j, s.threads[j]);
        LossesGrow(s.fate, z.fate, |s.fate|);
        assert s.fate[..|s.fate|] == s.fate && z.fate[..|s.fate|] == z.fate;
        if s.threads[j].Recheck? {
          LossesGrow(s.fate, z.fate, s.threads[j].my);
        }
      }
    }
  }

  lemma RecheckStep(s: State, t: nat)
    requires Inv(s) && t < |s.threads| && s.threads[t].Recheck?
    ensures Inv(Step(s, t, 0))
  {
    hide Count, Sum, Decide;
    var d, over, my := s.threads[t].d, s.threads[t].over, s.threads[t].my;
    var z := Step(s, t, 0);
    assert ThreadOk(s, t, s.threads[t]);
    var actual := s.tail + over - my as int;
    var a := if actual > 0 then Min(d, actual) else 0;
    forall f
      ensures Count(z.fate, f) + Held(s.threads[t], f) + Settled(s, f)
           == Count(s.fate, f) + Held(z.threads[t], f) + Settled(z, f)
    {
      DecideCounts(s.fate, my, d, a, f);
    }
    Rebalance(s, z, t);
    RecheckWins(s, z, t, a);
    RecheckThreads(s, z, t, a);
  }

  lemma StepKeepsInv(s: State, t: nat, max: nat)
    requires Inv(s) && t < |s.threads|
    ensures Inv(Step(s, t, max))
  {
    hide Count, Sum, Apart, WinsFit;
    assert ThreadOk(s, t, s.threads[t]);
    match s.threads[t]
    case Bump(_, _) => BumpStep(s, t);
    case Recheck(_, _, _) => RecheckStep(s, t);
    case Claimed(_, _) =>
    case LoadOver(m, tail) =>
      assert Count(s.fate, Lost) == Settled(s, Lost) + Sum(s.threads, Lost);
      LightStep(s, Step(s, t, max), t);
    case _ => LightStep(s, Step(s, t, max), t);
  }

  lemma ReleaseKeepsInv(s: State, t: nat)
    requires Inv(s) && t < |s.threads| && s.threads[t].Claimed?
    ensures Inv(Release(s, t))
  {
    hide Count, Sum;
    LightStep(s, Release(s, t), t);
  }

  lemma PublishKeepsInv(s: State, n: nat)
    requires Inv(s)
    ensures Inv(Publish(s, n))
  {
    hide Count, Sum;
    var z := Publish(s, n);
    forall j | 0 <= j < |z.threads|
      ensures ThreadOk(z, j, z.threads[j])
    {
      assert ThreadOk(s, j, s.threads[j]);
    }
  }

  lemma InitInv(n: nat)
    ensures Inv(Init(n))
  {
    forall f
      ensures Count([], f) == 0 && Sum(Init(n).threads, f) == 0
    {
      SumIdle(Init(n).threads, f);
    }
  }

  // ---------------------------------------------------------------- what the invariant gives

  lemma {:induction false} WinsBelowTail(s: State, n: nat)
    requires WinsFit(s) && n <= |s.fate|
    ensures Count(s.fate[..n], Won) <= s.tail
    decreases n
  {
    if n > 0 {
      assert s.fate[..n][..n - 1] == s.fate[..n - 1];
      WinsBelowTail(s, n - 1);
      CountPartition(s.fate[..n - 1]);
    }
  }

  /** The head, and every claim that passed its check but has not advanced it yet, stay at or below the tail. */
  lemma NeverOverClaims(s: State)
    requires Inv(s)
    ensures s.head + Sum(s.threads, Won) <= s.tail
  {
    WinsBelowTail(s, |s.fate|);
    assert s.fate[..|s.fate|] == s.fate;
    assert Count(s.fate, Won) == Settled(s, Won) + Sum(s.threads, Won);
  }

  /** The optimistic count is the head, the overcommit, and what is in flight. */
  lemma CountIsConserved(s: State)
    requires Inv(s)
    ensures s.opt == s.head + s.over + Sum(s.threads, Pending) + Sum(s.threads, Won) + Sum(s.threads, Lost)
  {
    CountPartition(s.fate);
    assert forall f :: Count(s.fate, f) == Settled(s, f) + Sum(s.threads, f);
  }

  lemma ClaimOwner(s: State, t: nat, x: nat)
    requires Inv(s) && t < |s.threads| && s.threads[t].Claimed?
    ensures s.threads[t].first <= x < s.threads[t].first + s.threads[t].a ==> x < s.head && s.owner[x] == t
  {
    assert ThreadOk(s, t, s.threads[t]);
  }

  /** Claims of different threads share no index, and lie below the head. */
  lemma ClaimsAreDistinct(s: State, i: nat, j: nat)
    requires Inv(s) && i < |s.threads| && j < |s.threads| && i != j
    requires s.threads[i].Claimed? && s.threads[j].Claimed?
    ensures var p, q := s.threads[i], s.threads[j];
      p.first + p.a <= s.head && (p.a == 0 || q.a == 0 || p.first + p.a <= q.first || q.first + q.a <= p.first)
  {
    var p, q := s.threads[i], s.threads[j];
    assert ThreadOk(s, i, p) && ThreadOk(s, j, q);
    var x := if p.first < q.first then q.first else p.first;
    ClaimOwner(s, i, x);
    ClaimOwner(s, j, x);
  }

  // ---------------------------------------------------------------- runs

  /** A step of dequeuer `t`, the end of its claim, or `n` elements published. */
  datatype Event = Dequeue(t: nat, max: nat) | Finish(t: nat) | Enqueue(n: nat)

  function Next(s: State, ev: Event): State {
    match ev
    case Dequeue(t, max) => if t < |s.threads| then Step(s, t, max) else s
    case Finish(t) => if t < |s.threads| && s.threads[t].Claimed? then Release(s, t) else s
    case Enqueue(n) => Publish(s, n)
  }

  function Run(s: State, evs: seq<Event>): State
    decreases |evs|
  {
    if evs == [] then s else Run(Next(s, evs[0]), evs[1..])
  }

  lemma NextKeepsInv(s: State, ev: Event)
    requires Inv(s)
    ensures Inv(Next(s, ev))
  {
    hide Inv, Step;
    match ev
    case Dequeue(t, max) => if t < |s.threads| { StepKeepsInv(s, t, max); }
    case Finish(t) => if t < |s.threads| && s.threads[t].Claimed? { ReleaseKeepsInv(s, t); }
    case Enqueue(n) => PublishKeepsInv(s, n);
  }

  lemma {:induction false} RunKeepsInv(s: State, evs: seq<Event>)
    requires Inv(s)
    ensures Inv(Run(s, evs))
    decreases |evs|
  {
    hide Inv, Next;
    if evs != [] {
      NextKeepsInv(s, evs[0]);
      RunKeepsInv(Next(s, evs[0]), evs[1..]);
    }
  }

  function Reached(n: nat, evs: seq<Event>): State {
    Run(Init(n), evs)
  }

  /**
   * No run over-claims: the head index, with every claim that passed its check and has yet to advance it, stays at or
   * below the tail, and the optimistic count is the head index, the overcommit and the claims in flight.
   */
  lemma ClaimsFit(n: nat, evs: seq<Event>)
    ensures var s := Reached(n, evs);
      && s.head + Sum(s.threads, Won) <= s.tail
      && s.opt == s.head + s.over + Sum(s.threads, Pending) + Sum(s.threads, Won) + Sum(s.threads, Lost)
  {
    hide Inv, Run;
    InitInv(n);
    RunKeepsInv(Init(n), evs);
    NeverOverClaims(Reached(n, evs));
    CountIsConserved(Reached(n, evs));
  }

  /** The indices two threads hold at the same time are different, and below the head index. */
  lemma ClaimsApart(n: nat, evs: seq<Event>, i: nat, j: nat)
    requires i < |Reached(n, evs).threads| && j < |Reached(n, evs).threads| && i != j
    requires Reached(n, evs).threads[i].Claimed? && Reached(n, evs).threads[j].Claimed?
    ensures var s := Reached(n, evs);
      var p, q := s.threads[i], s.threads[j];
      && p.first + p.a <= s.head <= s.tail
      && (p.a == 0 || q.a == 0 || p.first + p.a <= q.first || q.first + q.a <= p.first)
  {
    hide Inv, Run;
    InitInv(n);
    RunKeepsInv(Init(n), evs);
    ClaimsAreDistinct(Reached(n, evs), i, j);
    NeverOverClaims(Reached(n, evs));
  }

  /** A claim is of indices never claimed before: the head index passes over them once. */
  lemma ClaimIsNew(n: nat, evs: seq<Event>, t: nat, max: nat)
    requires t < |Reached(n, evs).threads| && !Reached(n, evs).threads[t].Claimed?
    requires t < |Step(Reached(n, evs), t, max).threads| && Step(Reached(n, evs), t, max).threads[t].Claimed?
    ensures var s := Reached(n, evs);
      var z := Step(s, t, max);
      && z.threads[t].first == s.head && z.head == s.head + z.threads[t].a <= z.tail
      && forall j :: 0 <= j < |s.threads| && s.threads[j].Claimed? ==>
           s.threads[j].first + s.threads[j].a <= z.threads[t].first
  {
    hide Inv, Run;
    InitInv(n);
    RunKeepsInv(Init(n), evs);
    var s := Reached(n, evs);
    StepKeepsInv(s, t, max);
    NeverOverClaims(Step(s, t, max));
    forall j | 0 <= j < |s.threads| && s.threads[j].Claimed?
      ensures s.threads[j].first + s.threads[j].a <= s.head
    {
      ClaimsEnd(s, j);
    }
  }

  lemma ClaimsEnd(s: State, t: nat)
    requires Inv(s) && t < |s.threads| && s.threads[t].Claimed?
    ensures s.threads[t].first + s.threads[t].a <= s.head
  {
    assert ThreadOk(s, t, s.threads[t]);
  }

  // ---------------------------------------------------------------- undisturbed dequeues

  /** No dequeuer is between adding to the optimistic count and settling what it added. */
  predicate NoneInFlight(s: State) {
    forall t, f :: 0 <= t < |s.threads| ==> Held(s.threads[t], f) == 0
  }

  lemma {:induction false} SumNone(threads: seq<Pc>, f: Fate)
    requires forall t :: 0 <= t < |threads| ==> Held(threads[t], f) == 0
    ensures Sum(threads, f) == 0
    decreases |threads|
  {
    if threads != [] {
      SumNone(threads[..|threads| - 1], f);
    }
  }

  lemma NoneInFlightCount(s: State)
    requires Inv(s) && NoneInFlight(s)
    ensures s.opt == s.head + s.over && s.head <= s.tail
  {
    hide Held, Count, Threads, Apart, WinsFit;
    SumNone(s.threads, Pending);
    SumNone(s.threads, Won);
    SumNone(s.threads, Lost);
    CountIsConserved(s);
    NeverOverClaims(s);
  }

  /** The first four accesses of a dequeue: a look at the counters, which shows exactly what is unclaimed. */
  lemma Looks(s: State, t: nat, max: nat)
    requires Inv(s) && NoneInFlight(s) && t < |s.threads| && s.threads[t].Idle?
    ensures var d := Dequeue(t, max);
      Run(s, [d, d, d, d]) ==
        s.With(t, if s.head < s.tail then Bump(Min(s.tail - s.head, max), s.over) else Idle)
  {
    hide Inv, Repeat, Decide;
    NoneInFlightCount(s);
    var d := Dequeue(t, max);
    var s1 := s.With(t, LoadTail(max));
    assert Run(s, [d, d, d, d]) == Run(s1, [d, d, d]);
    var s2 := s.With(t, LoadOver(max, s.tail));
    assert s1.threads[t := s2.threads[t]] == s2.threads;
    assert Run(s1, [d, d, d]) == Run(s2, [d, d]);
    var s3 := s.With(t, LoadCount(max, s.tail, s.over));
    assert s2.threads[t := s3.threads[t]] == s3.threads;
    assert Run(s2, [d, d]) == Run(s3, [d]);
    var z := s.With(t, if s.head < s.tail then Bump(Min(s.tail - s.head, max), s.over) else Idle);
    assert s3.threads[t := z.threads[t]] == z.threads;
    assert Run(s3, [d]) == Run(z, []);
  }

  /** The next three: all that was seen is claimed. */
  lemma Claims(s: State, t: nat, max: nat, n: nat)
    requires Inv(s) && t < |s.threads| && n <= s.tail - s.head && s.head < s.tail && s.opt == s.head + s.over
    requires s.threads[t] == Bump(n, s.over)
    ensures var d, z := Dequeue(t, max), Run(s, [Dequeue(t, max), Dequeue(t, max), Dequeue(t, max)]);
      && t < |z.threads| && z.threads[t] == Claimed(s.head, n) && z.head == s.head + n
      && z.opt == z.head + z.over && z.tail == s.tail
  {
    hide Threads, Apart, Balanced, WinsFit, Decide, Repeat;
    var d := Dequeue(t, max);
    var s1 := Step(s, t, max);
    assert Run(s, [d, d, d]) == Run(s1, [d, d]);
    assert s1.threads[t] == Recheck(n, s.over, s.opt) && |s1.fate| == s1.opt;
    var s2 := Step(s1, t, max);
    assert Run(s1, [d, d]) == Run(s2, [d]);
    assert s2.threads[t] == Advance(n);
    assert Run(s2, [d]) == Run(Step(s2, t, max), []);
  }

  lemma {:induction false} RunConcat(s: State, a: seq<Event>, b: seq<Event>)
    ensures Run(s, a + b) == Run(Run(s, a), b)
    decreases |a|
  {
    hide Next;
    if a == [] {
      assert a + b == b;
    } else {
      RunConcat(Next(s, a[0]), a[1..], b);
      assert (a + b)[1..] == a[1..] + b;
    }
  }

  /**
   * With no other dequeue in flight, one that asks for up to `max` elements comes away with exactly what there is, up
   * to that many, from the head on; it finds nothing only if there is nothing.
   */
  lemma UndisturbedTakesAll(s: State, t: nat, max: nat)
    requires Inv(s) && NoneInFlight(s) && t < |s.threads| && s.threads[t].Idle?
    ensures var d := Dequeue(t, max);
      var z := Run(s, [d, d, d, d] + [d, d, d]);
      && (s.head == s.tail ==> Run(s, [d, d, d, d]) == s)
      && (s.head < s.tail ==>
            && t < |z.threads| && z.threads[t] == Claimed(s.head, Min(s.tail - s.head, max))
            && z.head == s.head + Min(s.tail - s.head, max) && z.opt == z.head + z.over)
  {
    hide Inv, Run, NoneInFlight;
    NoneInFlightCount(s);
    Looks(s, t, max);
    var d := Dequeue(t, max);
    RunConcat(s, [d, d, d, d], [d, d, d]);
    if s.head < s.tail {
      var m := Run(s, [d, d, d, d]);
      assert Inv(m) by { RunKeepsInv(s, [d, d, d, d]); }
      Claims(m, t, max, Min(s.tail - s.head, max));
    } else {
      assert s.threads[t := Idle] == s.threads;
    }
  }

  /** How many accesses a dequeue has at most before it has claimed or given up. */
  function Stage(pc: Pc): nat {
    match pc
    case Idle => 0
    case LoadTail(_) => 7
    case LoadOver(_, _) => 6
    case LoadCount(_, _, _) => 5
    case Bump(_, _) => 4
    case Recheck(_, _, _) => 3
    case GiveSome(_, _) => 2
    case Advance(_) => 1
    case GiveAll(_) => 1
    case Claimed(_, _) => 0
  }

  /** No access is tried again: every one brings the dequeue nearer, whatever the others have done. */
  lemma DequeueIsWaitFree(s: State, t: nat, max: nat)
    requires Inv(s) && t < |s.threads| && !s.threads[t].Idle? && !s.threads[t].Claimed?
    ensures t < |Step(s, t, max).threads| && Stage(Step(s, t, max).threads[t]) < Stage(s.threads[t])
  {
    hide Apart, Balanced, WinsFit;
    assert ThreadOk(s, t, s.threads[t]);
  }

  // ---------------------------------------------------------------- requests for nothing

  /** The dequeuer asks for something, or has claimed something. */
  predicate Asks(pc: Pc) {
    match pc
    case LoadTail(m) => m > 0
    case LoadOver(m, _) => m > 0
    case LoadCount(m, _, _) => m > 0
    case Bump(d, _) => d > 0
    case Recheck(d, _, _) => d > 0
    case GiveSome(_, a) => a > 0
    case Advance(a) => a > 0
    case Claimed(_, a) => a > 0
    case _ => true
  }

  predicate AllAsk(s: State) {
    forall t :: 0 <= t < |s.threads| ==> Asks(s.threads[t])
  }

  /** A dequeue that asks for something does not come to claim nothing. */
  lemma StepAsks(s: State, t: nat, max: nat)
    requires t < |s.threads| && AllAsk(s) && (s.threads[t].Idle? ==> max > 0)
    ensures AllAsk(Step(s, t, max))
  {
    hide Decide, Repeat;
  }

  // ---------------------------------------------------------------- the object

  /** The counters of `ProducerBase` and the dequeuers at work on them. */
  class Counters {
    var tailIndex: nat
    var headIndex: nat
    var dequeueOptimisticCount: nat
    var dequeueOvercommit: nat
    const threads: array<Pc>
    ghost var fate: seq<Fate>
    ghost var owner: seq<nat>

    ghost function Snapshot(): State
      reads this, threads
    {
      State(tailIndex, headIndex, dequeueOptimisticCount, dequeueOvercommit, threads[..], fate, owner)
    }

    ghost predicate Valid()
      reads this, threads
    {
      Inv(Snapshot())
    }

    constructor (n: nat)
      ensures Valid() && fresh(threads) && Snapshot() == Init(n)
    {
      tailIndex, headIndex, dequeueOptimisticCount, dequeueOvercommit := 0, 0, 0, 0;
      threads := new Pc[n](_ => Idle);
      fate, owner := [], [];
      new;
      InitInv(n);
      assert threads[..] == Init(n).threads;
    }

    /** One atomic access of dequeuer `t`; an idle one asks for up to `max` elements. */
    method Advance(t: nat, max: nat)
      requires Valid() && t < threads.Length
      modifies this, threads
      ensures Valid() && Snapshot() == Step(old(Snapshot()), t, max)
    {
      hide Count, Sum, Decide, Apart, WinsFit, Balanced;
      ghost var s := Snapshot();
      StepKeepsInv(s, t, max);
      assert ThreadOk(s, t, threads[t]);
      match threads[t]
      case Idle =>
        threads[t] := LoadTail(max);
      case LoadTail(m) => threads[t] := LoadOver(m, tailIndex);
      case LoadOver(m, tail) => threads[t] := LoadCount(m, tail, dequeueOvercommit);
      case LoadCount(m, tail, over) =>
        var desired: int := tail - (dequeueOptimisticCount - over);
        threads[t] := if desired > 0 then Bump(Min(desired, m), over) else Idle;
      case Bump(d, over) =>
        threads[t] := Recheck(d, over, dequeueOptimisticCount);
        dequeueOptimisticCount := dequeueOptimisticCount + d;
        fate := fate + Repeat(d, Pending);
      case Recheck(d, over, my) =>
        var actual: int := tailIndex - (my - over);
        var a := if actual > 0 then Min(d, actual) else 0;
        fate := Decide(fate, my, d, a);
        threads[t] := if actual <= 0 then GiveAll(d) else if a < d then GiveSome(d - a, a) else Pc.Advance(a);
      case GiveSome(x, a) =>
        dequeueOvercommit := dequeueOvercommit + x;
        threads[t] := Pc.Advance(a);
      case Advance(a) =>
        threads[t] := Claimed(headIndex, a);
        headIndex := headIndex + a;
        owner := owner + Repeat(a, t);
      case GiveAll(d) =>
        dequeueOvercommit := dequeueOvercommit + d;
        threads[t] := Idle;
      case Claimed(_, _) =>
    }

    method FinishClaim(t: nat)
      requires Valid() && t < threads.Length && threads[t].Claimed?
      modifies threads
      ensures Valid() && Snapshot() == Release(old(Snapshot()), t)
    {
      ReleaseKeepsInv(Snapshot(), t);
      threads[t] := Idle;
    }

    /** The producer's store of the tail index. */
    method StoreTail(n: nat)
      requires Valid()
      modifies this`tailIndex
      ensures Valid() && Snapshot() == Publish(old(Snapshot()), n)
    {
      PublishKeepsInv(Snapshot(), n);
      tailIndex := tailIndex + n;
    }
  }
}
