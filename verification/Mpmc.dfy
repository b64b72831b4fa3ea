/**
 * Ticket arithmetic of the bounded queue: ticket `t` belongs to slot `t % cap`, in that slot's lap `t / cap`.
 */
module Tickets {
  function Idx(cap: nat, t: nat): (i: nat)
    requires cap > 0
    ensures i < cap
  {
    t % cap
  }

  function Turn(cap: nat, t: nat): nat
    requires cap > 0
  {
    t / cap
  }

  function Ticket(cap: nat, i: nat, r: nat): nat {
    r * cap + i
  }

  lemma OfTicket(cap: nat, t: nat)
    requires cap > 0
    ensures Ticket(cap, Idx(cap, t), Turn(cap, t)) == t
  {
  }

  lemma Spread(k: int, cap: nat)
    ensures k > 0 ==> k * cap >= cap
    ensures k < 0 ==> k * cap + cap <= 0
  {
    if k > 0 {
      assert (k - 1) * cap >= 0;
    } else if k < 0 {
      assert (-k - 1) * cap >= 0;
    }
  }

  lemma UniqueLap(cap: nat, a: int, b: int, i: int, j: int)
    requires cap > 0 && 0 <= i < cap && 0 <= j < cap
    requires a * cap + i == b * cap + j
    ensures a == b && i == j
  {
    Spread(a - b, cap);
    assert (a - b) * cap == j - i;
  }

  lemma Split(cap: nat, i: nat, r: nat)
    requires i < cap
    ensures Idx(cap, Ticket(cap, i, r)) == i && Turn(cap, Ticket(cap, i, r)) == r
  {
    var t := Ticket(cap, i, r);
    UniqueLap(cap, t / cap, r, t % cap, i);
  }

  lemma Same(cap: nat, t: nat, u: nat)
    requires cap > 0
    ensures Idx(cap, t) == Idx(cap, u) && Turn(cap, t) == Turn(cap, u) ==> t == u
  {
    OfTicket(cap, t);
    OfTicket(cap, u);
  }

  lemma PreviousLap(cap: nat, t: nat)
    requires 0 < cap <= t
    ensures Idx(cap, t - cap) == Idx(cap, t) && Turn(cap, t - cap) == Turn(cap, t) - 1
  {
    UniqueLap(cap, (t - cap) / cap + 1, t / cap, (t - cap) % cap, t % cap);
  }

  lemma FirstLap(cap: nat, t: nat)
    requires 0 < cap
    ensures Turn(cap, t) == 0 <==> t < cap
  {
    if t >= cap {
      PreviousLap(cap, t);
    }
  }
}

/** The bounded multi-producer multi-consumer queue: every atomic access is one step of one thread. */
module MpmcQueue {
  import opened Common
  import opened Tickets

  /** Where a thread stands. `Seen` fields record shared values at the instant of a load; the code never reads them. */
  datatype Pc<V> =
    | Idle
    | PushTake(v: V)
    | PushWait(t: nat, v: V)
    | PushBuild(t: nat, v: V)
    | PushPublish(t: nat, v: V)
    | TryPushLoad(v: V)
    | TryPushTurn(h: nat, v: V)
    | TryPushCas(h: nat, v: V)
    | TryPushReload(h: nat, v: V, seenHead: nat, seenTurn: nat)
    | PopTake
    | PopWait(t: nat)
    | PopMove(t: nat)
    | PopDestroy(t: nat, v: V)
    | PopPublish(t: nat, v: V)
    | TryPopLoad
    | TryPopTurn(h: nat)
    | TryPopCas(h: nat)
    | TryPopReload(h: nat, seenTail: nat, seenTurn: nat)
  {
    predicate PushingTicket(k: nat) {
      (PushWait? || PushBuild? || PushPublish?) && t == k
    }

    predicate PoppingTicket(k: nat) {
      (PopWait? || PopMove? || PopDestroy? || PopPublish?) && t == k
    }

    /** Between winning a slot and handing it on. */
    predicate InsideSlot() {
      PushBuild? || PushPublish? || PopMove? || PopDestroy? || PopPublish?
    }
  }

  datatype Call<V> = Emplace(v: V) | TryEmplace(v: V) | Pop | TryPop

  /**
   * The shared words (`head`, `tail`, each slot's `turn` and storage), the threads, and three records kept for the
   * proofs: the value and the thread of every push ticket, the thread of every pop ticket, and what each pop moved out.
   */
  datatype State<V> = State(
    cap: nat, head: nat, tail: nat, turns: seq<nat>, cells: seq<Option<V>>, threads: seq<Pc<V>>,
    pushed: seq<V>, pushOwner: seq<nat>, popOwner: seq<nat>, popped: map<nat, V>)
  {
    predicate Shape() {
      && cap > 0 && |turns| == |cells| == cap
      && |pushed| == |pushOwner| == head && |popOwner| == tail
      && (forall t :: 0 <= t < head ==> pushOwner[t] < |threads|)
      && (forall t :: 0 <= t < tail ==> popOwner[t] < |threads|)
    }

    function TurnAt(t: nat): nat
      requires Shape()
    {
      turns[Idx(cap, t)]
    }

    predicate PushDone(t: nat)
      requires Shape()
    {
      TurnAt(t) > 2 * Turn(cap, t)
    }

    predicate PopDone(t: nat)
      requires Shape()
    {
      TurnAt(t) > 2 * Turn(cap, t) + 1
    }

    function With(i: nat, pc: Pc<V>): State<V>
      requires i < |threads|
    {
      this.(threads := threads[i := pc])
    }

    function TakePush(i: nat, v: V): State<V> {
      this.(head := head + 1, pushed := pushed + [v], pushOwner := pushOwner + [i])
    }

    function TakePop(i: nat): State<V> {
      this.(tail := tail + 1, popOwner := popOwner + [i])
    }

    function SetTurn(t: nat, n: nat): State<V>
      requires Shape()
    {
      this.(turns := turns[Idx(cap, t) := n])
    }

    function SetCell(t: nat, c: Option<V>): State<V>
      requires Shape()
    {
      this.(cells := cells[Idx(cap, t) := c])
    }
  }

  function Start<V>(c: Call<V>): Pc<V> {
    match c
    case Emplace(v) => PushTake(v)
    case TryEmplace(v) => TryPushLoad(v)
    case Pop => PopTake
    case TryPop => TryPopLoad
  }

  function Init<V>(cap: nat, n: nat): State<V> {
    State(cap, 0, 0, seq(cap, _ => 0), seq(cap, _ => None), seq(n, _ => Idle), [], [], [], map[])
  }

  /** One atomic step of thread `i`; an idle thread begins call `c`. */
  function Step<V>(s: State<V>, i: nat, c: Call<V>): (z: State<V>)
    requires s.Shape() && i < |s.threads|
    ensures z.Shape() && z.cap == s.cap && |z.threads| == |s.threads|
    ensures s.pushed <= z.pushed
  {
    match s.threads[i]
    case Idle => s.With(i, Start(c))
    case PushTake(v) => s.TakePush(i, v).With(i, PushWait(s.head, v))
    case PushWait(t, v) => if Turn(s.cap, t) * 2 == s.TurnAt(t) then s.With(i, PushBuild(t, v)) else s
    case PushBuild(t, v) => s.SetCell(t, Some(v)).With(i, PushPublish(t, v))
    case PushPublish(t, v) => s.SetTurn(t, Turn(s.cap, t) * 2 + 1).With(i, Idle)
    case TryPushLoad(v) => s.With(i, TryPushTurn(s.head, v))
    case TryPushTurn(h, v) =>
      if Turn(s.cap, h) * 2 == s.TurnAt(h) then s.With(i, TryPushCas(h, v))
      else s.With(i, TryPushReload(h, v, s.head, s.TurnAt(h)))
    case TryPushCas(h, v) =>
      if s.head == h then s.TakePush(i, v).With(i, PushBuild(h, v)) else s.With(i, TryPushTurn(s.head, v))
    case TryPushReload(h, v, _, _) =>
      if s.head == h then s.With(i, Idle) else s.With(i, TryPushTurn(s.head, v))
    case PopTake => s.TakePop(i).With(i, PopWait(s.tail))
    case PopWait(t) => if Turn(s.cap, t) * 2 + 1 == s.TurnAt(t) then s.With(i, PopMove(t)) else s
    case PopMove(t) =>
      (match s.cells[Idx(s.cap, t)]
       case Some(v) => s.(popped := s.popped[t := v]).With(i, PopDestroy(t, v))
       case None => s)
    case PopDestroy(t, v) => s.SetCell(t, None).With(i, PopPublish(t, v))
    case PopPublish(t, v) => s.SetTurn(t, Turn(s.cap, t) * 2 + 2).With(i, Idle)
    case TryPopLoad => s.With(i, TryPopTurn(s.tail))
    case TryPopTurn(h) =>
      if Turn(s.cap, h) * 2 + 1 == s.TurnAt(h) then s.With(i, TryPopCas(h))
      else s.With(i, TryPopReload(h, s.tail, s.TurnAt(h)))
    case TryPopCas(h) =>
      if s.tail == h then s.TakePop(i).With(i, PopMove(h)) else s.With(i, TryPopTurn(s.tail))
    case TryPopReload(h, _, _) =>
      if s.tail == h then s.With(i, Idle) else s.With(i, TryPopTurn(s.tail))
  }

  // ---------------------------------------------------------------- invariant

  ghost predicate ThreadOk<V>(s: State<V>, i: nat, pc: Pc<V>)
    requires s.Shape()
  {
    match pc
    case PushWait(t, v) =>
      t < s.head && s.pushOwner[t] == i && s.pushed[t] == v && !s.PushDone(t)
    case PushBuild(t, v) =>
      t < s.head && s.pushOwner[t] == i && s.pushed[t] == v && s.TurnAt(t) == 2 * Turn(s.cap, t)
    case PushPublish(t, v) =>
      t < s.head && s.pushOwner[t] == i && s.pushed[t] == v && s.TurnAt(t) == 2 * Turn(s.cap, t)
    case PopWait(t) =>
      t < s.tail && s.popOwner[t] == i && !s.PopDone(t)
    case PopMove(t) =>
      t < s.tail && s.popOwner[t] == i && s.TurnAt(t) == 2 * Turn(s.cap, t) + 1
    case PopDestroy(t, v) =>
      && t < s.tail && s.popOwner[t] == i && s.TurnAt(t) == 2 * Turn(s.cap, t) + 1
      && t < s.head && s.pushed[t] == v
    case PopPublish(t, v) =>
      && t < s.tail && s.popOwner[t] == i && s.TurnAt(t) == 2 * Turn(s.cap, t) + 1
      && t < s.head && s.pushed[t] == v
    case TryPushTurn(h, _) => h <= s.head
    case TryPushCas(h, _) => h <= s.head && (s.head == h ==> s.TurnAt(h) == 2 * Turn(s.cap, h))
    case TryPushReload(h, _, seenHead, seenTurn) =>
      && h <= seenHead <= s.head && seenTurn != 2 * Turn(s.cap, h)
      && (seenHead == h ==> seenTurn < 2 * Turn(s.cap, h))
    case TryPopTurn(h) => h <= s.tail
    case TryPopCas(h) => h <= s.tail && (s.tail == h ==> s.TurnAt(h) == 2 * Turn(s.cap, h) + 1)
    case TryPopReload(h, seenTail, seenTurn) =>
      && h <= seenTail <= s.tail && seenTurn != 2 * Turn(s.cap, h) + 1
      && (seenTail == h ==> seenTurn < 2 * Turn(s.cap, h) + 1)
    case _ => true
  }

  ghost predicate Threads<V>(s: State<V>)
    requires s.Shape()
  {
    forall i :: 0 <= i < |s.threads| ==> ThreadOk(s, i, s.threads[i])
  }

  /** A finished operation had its ticket handed out. */
  ghost predicate Issued<V>(s: State<V>)
    requires s.Shape()
  {
    forall t: nat :: (s.PushDone(t) ==> t < s.head) && (s.PopDone(t) ==> t < s.tail)
  }

  /** An unfinished ticket is in the hands of the thread that took it. */
  ghost predicate Held<V>(s: State<V>)
    requires s.Shape()
  {
    && (forall t :: 0 <= t < s.head ==> s.PushDone(t) || s.threads[s.pushOwner[t]].PushingTicket(t))
    && (forall t :: 0 <= t < s.tail ==> s.PopDone(t) || s.threads[s.popOwner[t]].PoppingTicket(t))
  }

  function EvenCell<V>(s: State<V>, t: nat): Option<V>
    requires s.Shape()
  {
    if t < s.head && s.threads[s.pushOwner[t]].PushPublish? && s.threads[s.pushOwner[t]].t == t
    then Some(s.pushed[t]) else None
  }

  function OddCell<V>(s: State<V>, t: nat): Option<V>
    requires s.Shape() && t < s.head
  {
    if t < s.tail && s.threads[s.popOwner[t]].PopPublish? && s.threads[s.popOwner[t]].t == t
    then None else Some(s.pushed[t])
  }

  /** A slot's storage follows its turn: empty before ticket `t` is pushed, the pushed value until it is popped. */
  ghost predicate Cells<V>(s: State<V>)
    requires s.Shape()
  {
    forall t: nat ::
      && (s.TurnAt(t) == 2 * Turn(s.cap, t) ==> s.cells[Idx(s.cap, t)] == EvenCell(s, t))
      && (s.TurnAt(t) == 2 * Turn(s.cap, t) + 1 ==> t < s.head && s.cells[Idx(s.cap, t)] == OddCell(s, t))
  }

  ghost predicate Matched<V>(s: State<V>)
    requires s.Shape()
  {
    && (forall t :: t in s.popped ==> t < s.tail && t < s.head && s.popped[t] == s.pushed[t])
    && (forall t :: 0 <= t < s.tail && s.PopDone(t) ==> t in s.popped)
    && (forall i :: 0 <= i < |s.threads| && (s.threads[i].PopDestroy? || s.threads[i].PopPublish?)
          ==> s.threads[i].t in s.popped)
  }

  ghost predicate Inv<V>(s: State<V>) {
    s.Shape() && Threads(s) && Issued(s) && Held(s) && Cells(s) && Matched(s)
  }

  // ---------------------------------------------------------------- every step keeps the invariant

  predicate HoldsTicket<V>(pc: Pc<V>) {
    pc.PushWait? || pc.PushBuild? || pc.PushPublish? || pc.PopWait? || pc.PopMove? || pc.PopDestroy? || pc.PopPublish?
  }

  lemma ThreadAt<V>(s: State<V>, i: nat)
    requires Inv(s) && i < |s.threads|
    ensures ThreadOk(s, i, s.threads[i])
  {
    hide Idx, Turn, ThreadOk, Cells, Held, Issued, Matched;
  }

  predicate Publishing<V>(pc: Pc<V>) {
    pc.PushPublish? || pc.PopPublish?
  }

  /** Steps that touch no slot, of a thread that is not about to publish one, keep what is said of the slots. */
  lemma SameSlots<V>(s: State<V>, z: State<V>, i: nat)
    requires Inv(s) && z.Shape() && z.cap == s.cap && z.turns == s.turns && z.cells == s.cells
    requires s.pushed <= z.pushed && s.pushOwner <= z.pushOwner && s.popOwner <= z.popOwner
    requires i < |s.threads| == |z.threads| && z.threads == s.threads[i := z.threads[i]]
    requires !Publishing(s.threads[i]) && !Publishing(z.threads[i])
    requires forall t :: s.head <= t < z.head ==> z.pushOwner[t] == i
    requires forall t :: s.tail <= t < z.tail ==> z.popOwner[t] == i
    ensures Issued(z) && Cells(z)
  {
    hide Idx, Turn, ThreadOk, Matched;
    forall t: nat
      ensures z.PushDone(t) == s.PushDone(t) && z.PopDone(t) == s.PopDone(t)
      ensures z.TurnAt(t) == 2 * Turn(s.cap, t) ==> z.cells[Idx(s.cap, t)] == EvenCell(z, t)
      ensures z.TurnAt(t) == 2 * Turn(s.cap, t) + 1 ==> t < z.head && z.cells[Idx(s.cap, t)] == OddCell(z, t)
    {
      SameCells(s, z, i, t);
    }
  }

  lemma SameCells<V>(s: State<V>, z: State<V>, i: nat, t: nat)
    requires s.Shape() && z.Shape()
    requires s.pushed <= z.pushed && s.pushOwner <= z.pushOwner && s.popOwner <= z.popOwner
    requires i < |s.threads| == |z.threads| && z.threads == s.threads[i := z.threads[i]]
    requires !Publishing(s.threads[i]) && !Publishing(z.threads[i])
    requires t >= s.head ==> t >= z.head || z.pushOwner[t] == i
    requires t >= s.tail ==> t >= z.tail || z.popOwner[t] == i
    ensures EvenCell(z, t) == EvenCell(s, t)
    ensures t < s.head ==> OddCell(z, t) == OddCell(s, t)
  {
  }

  lemma QuietStep<V>(s: State<V>, i: nat, pc: Pc<V>)
    requires Inv(s) && i < |s.threads|
    requires !HoldsTicket(s.threads[i]) && !HoldsTicket(pc) && ThreadOk(s, i, pc)
    ensures Inv(s.With(i, pc))
  {
    hide Idx, Turn, Cells, Issued, EvenCell, OddCell, Threads, ThreadOk;
    SameSlots(s, s.With(i, pc), i);
    EnterThreads(s, i, pc);
  }

  lemma TakePushThreads<V>(s: State<V>, i: nat, v: V, pc: Pc<V>)
    requires Inv(s) && i < |s.threads| && !HoldsTicket(s.threads[i])
    requires pc == PushWait(s.head, v) || (pc == PushBuild(s.head, v) && s.TurnAt(s.head) == 2 * Turn(s.cap, s.head))
    ensures Threads(s.TakePush(i, v).With(i, pc))
  {
    hide Idx, Turn, Cells, Held, Matched, EvenCell, OddCell;
    var z := s.TakePush(i, v).With(i, pc);
    assert !s.PushDone(s.head);
    forall j | 0 <= j < |z.threads|
      ensures ThreadOk(z, j, z.threads[j])
    {
      assert ThreadOk(s, j, s.threads[j]);
    }
  }

  lemma TakePushStep<V>(s: State<V>, i: nat, v: V, pc: Pc<V>)
    requires Inv(s) && i < |s.threads| && !HoldsTicket(s.threads[i])
    requires pc == PushWait(s.head, v) || (pc == PushBuild(s.head, v) && s.TurnAt(s.head) == 2 * Turn(s.cap, s.head))
    ensures Inv(s.TakePush(i, v).With(i, pc))
  {
    hide Idx, Turn, ThreadOk, Threads, Cells, EvenCell, OddCell;
    assert !s.PushDone(s.head);
    TakePushThreads(s, i, v, pc);
    SameSlots(s, s.TakePush(i, v).With(i, pc), i);
  }

  lemma TakePopThreads<V>(s: State<V>, i: nat, pc: Pc<V>)
    requires Inv(s) && i < |s.threads| && !HoldsTicket(s.threads[i])
    requires pc == PopWait(s.tail) || (pc == PopMove(s.tail) && s.TurnAt(s.tail) == 2 * Turn(s.cap, s.tail) + 1)
    ensures Threads(s.TakePop(i).With(i, pc))
  {
    hide Idx, Turn, Cells, Held, Matched, EvenCell, OddCell;
    var z := s.TakePop(i).With(i, pc);
    assert !s.PopDone(s.tail);
    forall j | 0 <= j < |z.threads|
      ensures ThreadOk(z, j, z.threads[j])
    {
      assert ThreadOk(s, j, s.threads[j]);
    }
  }

  lemma TakePopStep<V>(s: State<V>, i: nat, pc: Pc<V>)
    requires Inv(s) && i < |s.threads| && !HoldsTicket(s.threads[i])
    requires pc == PopWait(s.tail) || (pc == PopMove(s.tail) && s.TurnAt(s.tail) == 2 * Turn(s.cap, s.tail) + 1)
    ensures Inv(s.TakePop(i).With(i, pc))
  {
    hide Idx, Turn, ThreadOk, Threads, Cells, EvenCell, OddCell;
    assert !s.PopDone(s.tail);
    TakePopThreads(s, i, pc);
    SameSlots(s, s.TakePop(i).With(i, pc), i);
  }

  /** A waiting thread whose turn has come enters its slot. */
  lemma EnterStep<V>(s: State<V>, i: nat, pc: Pc<V>)
    requires Inv(s) && i < |s.threads|
    requires
      || (s.threads[i].PushWait? && pc == PushBuild(s.threads[i].t, s.threads[i].v)
          && Turn(s.cap, pc.t) * 2 == s.TurnAt(pc.t))
      || (s.threads[i].PopWait? && pc == PopMove(s.threads[i].t)
          && Turn(s.cap, pc.t) * 2 + 1 == s.TurnAt(pc.t))
    ensures Inv(s.With(i, pc))
  {
    hide Idx, Turn, Cells, Issued, EvenCell, OddCell, Threads;
    ThreadAt(s, i);
    SameSlots(s, s.With(i, pc), i);
    EnterThreads(s, i, pc);
  }

  lemma EnterThreads<V>(s: State<V>, i: nat, pc: Pc<V>)
    requires s.Shape() && Threads(s) && i < |s.threads| && ThreadOk(s, i, pc)
    ensures Threads(s.With(i, pc))
  {
    hide Idx, Turn;
  }

  /** Tickets of one slot at one turn are one ticket. */
  lemma OneTicket<V>(s: State<V>, t: nat, u: nat)
    requires s.Shape()
    ensures Idx(s.cap, t) == Idx(s.cap, u) && s.TurnAt(t) == 2 * Turn(s.cap, t) && s.TurnAt(u) == 2 * Turn(s.cap, u)
      ==> t == u
    ensures Idx(s.cap, t) == Idx(s.cap, u) && s.TurnAt(t) == 2 * Turn(s.cap, t) + 1
      && s.TurnAt(u) == 2 * Turn(s.cap, u) + 1
      ==> t == u
  {
    hide Idx, Turn;
    Same(s.cap, t, u);
  }

  lemma BuildThreads<V>(s: State<V>, i: nat)
    requires Inv(s) && i < |s.threads| && s.threads[i].PushBuild?
    ensures var t, v := s.threads[i].t, s.threads[i].v;
      Threads(s.SetCell(t, Some(v)).With(i, PushPublish(t, v)))
  {
    hide Idx, Turn, Cells, Held, Matched, Issued;
    var t, v := s.threads[i].t, s.threads[i].v;
    var z := s.SetCell(t, Some(v)).With(i, PushPublish(t, v));
    forall j | 0 <= j < |z.threads|
      ensures ThreadOk(z, j, z.threads[j])
    {
      assert ThreadOk(s, j, s.threads[j]);
    }
  }

  lemma BuildCell<V>(s: State<V>, i: nat, u: nat)
    requires Inv(s) && i < |s.threads| && s.threads[i].PushBuild?
    ensures var t, v := s.threads[i].t, s.threads[i].v;
      var z := s.SetCell(t, Some(v)).With(i, PushPublish(t, v));
      && z.PushDone(u) == s.PushDone(u) && z.PopDone(u) == s.PopDone(u)
      && (z.TurnAt(u) == 2 * Turn(s.cap, u) ==> z.cells[Idx(s.cap, u)] == EvenCell(z, u))
      && (z.TurnAt(u) == 2 * Turn(s.cap, u) + 1 ==> u < z.head && z.cells[Idx(s.cap, u)] == OddCell(z, u))
  {
    hide Idx, Turn, Threads, Matched;
    ThreadAt(s, i);
    var t := s.threads[i].t;
    OneTicket(s, t, u);
  }

  lemma BuildStep<V>(s: State<V>, i: nat)
    requires Inv(s) && i < |s.threads| && s.threads[i].PushBuild?
    ensures var t, v := s.threads[i].t, s.threads[i].v;
      Inv(s.SetCell(t, Some(v)).With(i, PushPublish(t, v)))
  {
    hide Idx, Turn, EvenCell, OddCell, Threads;
    var t, v := s.threads[i].t, s.threads[i].v;
    var z := s.SetCell(t, Some(v)).With(i, PushPublish(t, v));
    BuildThreads(s, i);
    forall u: nat
      ensures z.PushDone(u) == s.PushDone(u) && z.PopDone(u) == s.PopDone(u)
      ensures z.TurnAt(u) == 2 * Turn(s.cap, u) ==> z.cells[Idx(s.cap, u)] == EvenCell(z, u)
      ensures z.TurnAt(u) == 2 * Turn(s.cap, u) + 1 ==> u < z.head && z.cells[Idx(s.cap, u)] == OddCell(z, u)
    {
      BuildCell(s, i, u);
    }
  }

  lemma DestroyThreads<V>(s: State<V>, i: nat)
    requires Inv(s) && i < |s.threads| && s.threads[i].PopDestroy?
    ensures var t, v := s.threads[i].t, s.threads[i].v;
      Threads(s.SetCell(t, None).With(i, PopPublish(t, v)))
  {
    hide Idx, Turn, Cells, Held, Matched, Issued;
    var t, v := s.threads[i].t, s.threads[i].v;
    var z := s.SetCell(t, None).With(i, PopPublish(t, v));
    forall j | 0 <= j < |z.threads|
      ensures ThreadOk(z, j, z.threads[j])
    {
      assert ThreadOk(s, j, s.threads[j]);
    }
  }

  lemma DestroyCell<V>(s: State<V>, i: nat, u: nat)
    requires Inv(s) && i < |s.threads| && s.threads[i].PopDestroy?
    ensures var t, v := s.threads[i].t, s.threads[i].v;
      var z := s.SetCell(t, None).With(i, PopPublish(t, v));
      && z.PushDone(u) == s.PushDone(u) && z.PopDone(u) == s.PopDone(u)
      && (z.TurnAt(u) == 2 * Turn(s.cap, u) ==> z.cells[Idx(s.cap, u)] == EvenCell(z, u))
      && (z.TurnAt(u) == 2 * Turn(s.cap, u) + 1 ==> u < z.head && z.cells[Idx(s.cap, u)] == OddCell(z, u))
  {
    hide Idx, Turn, Threads, Matched;
    ThreadAt(s, i);
    var t := s.threads[i].t;
    OneTicket(s, t, u);
  }

  lemma DestroyStep<V>(s: State<V>, i: nat)
    requires Inv(s) && i < |s.threads| && s.threads[i].PopDestroy?
    ensures var t, v := s.threads[i].t, s.threads[i].v;
      Inv(s.SetCell(t, None).With(i, PopPublish(t, v)))
  {
    hide Idx, Turn, EvenCell, OddCell, Threads;
    var t, v := s.threads[i].t, s.threads[i].v;
    var z := s.SetCell(t, None).With(i, PopPublish(t, v));
    DestroyThreads(s, i);
    forall u: nat
      ensures z.PushDone(u) == s.PushDone(u) && z.PopDone(u) == s.PopDone(u)
      ensures z.TurnAt(u) == 2 * Turn(s.cap, u) ==> z.cells[Idx(s.cap, u)] == EvenCell(z, u)
      ensures z.TurnAt(u) == 2 * Turn(s.cap, u) + 1 ==> u < z.head && z.cells[Idx(s.cap, u)] == OddCell(z, u)
    {
      DestroyCell(s, i, u);
    }
  }

  lemma MoveThreads<V>(s: State<V>, i: nat)
    requires Inv(s) && i < |s.threads| && s.threads[i].PopMove?
    requires s.threads[i].t < s.head
    ensures var t := s.threads[i].t;
      Threads(s.(popped := s.popped[t := s.pushed[t]]).With(i, PopDestroy(t, s.pushed[t])))
  {
    hide Idx, Turn, Cells, Held, Matched, Issued;
    var t := s.threads[i].t;
    var z := s.(popped := s.popped[t := s.pushed[t]]).With(i, PopDestroy(t, s.pushed[t]));
    forall j | 0 <= j < |z.threads|
      ensures ThreadOk(z, j, z.threads[j])
    {
      assert ThreadOk(s, j, s.threads[j]);
    }
  }

  /** A pop moves out the value its ticket's push put in. */
  lemma MoveStep<V>(s: State<V>, i: nat)
    requires Inv(s) && i < |s.threads| && s.threads[i].PopMove?
    ensures var t := s.threads[i].t;
      && t < s.head && s.cells[Idx(s.cap, t)] == Some(s.pushed[t])
      && Inv(s.(popped := s.popped[t := s.pushed[t]]).With(i, PopDestroy(t, s.pushed[t])))
  {
    hide Idx, Turn, Threads;
    var t := s.threads[i].t;
    ThreadAt(s, i);
    assert s.cells[Idx(s.cap, t)] == OddCell(s, t);
    var z := s.(popped := s.popped[t := s.pushed[t]]).With(i, PopDestroy(t, s.pushed[t]));
    MoveThreads(s, i);
    SameSlots(s, z, i);
  }

  // Publishing: the slot's turn goes up by one, so every other ticket of the slot keeps its side of every comparison.

  lemma RaiseTurn<V>(s: State<V>, t: nat, n: nat, u: nat)
    requires s.Shape() && s.TurnAt(t) == n
    requires n == 2 * Turn(s.cap, t) || n == 2 * Turn(s.cap, t) + 1
    ensures s.SetTurn(t, n + 1).Shape()
    ensures u != t ==> s.SetTurn(t, n + 1).PushDone(u) == s.PushDone(u)
    ensures u != t ==> s.SetTurn(t, n + 1).PopDone(u) == s.PopDone(u)
    ensures s.SetTurn(t, n + 1).PushDone(t)
    ensures s.SetTurn(t, n + 1).PopDone(t) == (n == 2 * Turn(s.cap, t) + 1)
  {
    hide Idx, Turn;
    Same(s.cap, t, u);
  }

  lemma PushPublishThread<V>(s: State<V>, i: nat, j: nat)
    requires Inv(s) && i < |s.threads| && j < |s.threads| && s.threads[i].PushPublish?
    ensures var t := s.threads[i].t;
      var z := s.SetTurn(t, Turn(s.cap, t) * 2 + 1).With(i, Idle);
      ThreadOk(z, j, z.threads[j])
  {
    hide Idx, Turn;
    var t := s.threads[i].t;
    var pc := s.threads[j];
    assert ThreadOk(s, i, s.threads[i]);
    assert ThreadOk(s, j, pc);
    RaiseTurn(s, t, Turn(s.cap, t) * 2, t);
    if HoldsTicket(pc) {
      RaiseTurn(s, t, Turn(s.cap, t) * 2, pc.t);
    }
    OneTicket(s, t, s.head);
  }

  lemma PushPublishCell<V>(s: State<V>, i: nat, u: nat)
    requires Inv(s) && i < |s.threads| && s.threads[i].PushPublish?
    ensures var t := s.threads[i].t;
      var z := s.SetTurn(t, Turn(s.cap, t) * 2 + 1).With(i, Idle);
      && z.PushDone(u) == (s.PushDone(u) || u == t) && z.PopDone(u) == s.PopDone(u)
      && (z.TurnAt(u) == 2 * Turn(s.cap, u) ==> z.cells[Idx(s.cap, u)] == EvenCell(z, u))
      && (z.TurnAt(u) == 2 * Turn(s.cap, u) + 1 ==> u < z.head && z.cells[Idx(s.cap, u)] == OddCell(z, u))
  {
    hide Idx, Turn, Threads, Matched;
    var t := s.threads[i].t;
    var n := Turn(s.cap, t) * 2;
    ThreadAt(s, i);
    RaiseTurn(s, t, n, u);
    RaiseTurn(s, t, n, t);
    assert s.cells[Idx(s.cap, t)] == EvenCell(s, t) == Some(s.pushed[t]);
    Same(s.cap, t, u);
    if t < s.tail && s.threads[s.popOwner[t]].PopPublish? {
      ThreadAt(s, s.popOwner[t]);
    }
  }

  lemma PushPublishStep<V>(s: State<V>, i: nat)
    requires Inv(s) && i < |s.threads| && s.threads[i].PushPublish?
    ensures Inv(s.SetTurn(s.threads[i].t, Turn(s.cap, s.threads[i].t) * 2 + 1).With(i, Idle))
  {
    hide Idx, Turn, EvenCell, OddCell, ThreadOk;
    var t := s.threads[i].t;
    var z := s.SetTurn(t, Turn(s.cap, t) * 2 + 1).With(i, Idle);
    ThreadAt(s, i);
    forall j | 0 <= j < |z.threads|
      ensures ThreadOk(z, j, z.threads[j])
    {
      PushPublishThread(s, i, j);
    }
    TicketIssued(s, i);
    forall u: nat
      ensures z.PushDone(u) == (s.PushDone(u) || u == t) && z.PopDone(u) == s.PopDone(u)
      ensures z.TurnAt(u) == 2 * Turn(s.cap, u) ==> z.cells[Idx(s.cap, u)] == EvenCell(z, u)
      ensures z.TurnAt(u) == 2 * Turn(s.cap, u) + 1 ==> u < z.head && z.cells[Idx(s.cap, u)] == OddCell(z, u)
    {
      PushPublishCell(s, i, u);
    }
  }

  lemma TicketIssued<V>(s: State<V>, i: nat)
    requires Inv(s) && i < |s.threads| && Publishing(s.threads[i])
    ensures s.threads[i].PushPublish? ==> s.threads[i].t < s.head && s.pushOwner[s.threads[i].t] == i
    ensures s.threads[i].PopPublish? ==> s.threads[i].t < s.tail && s.popOwner[s.threads[i].t] == i
  {
    hide Idx, Turn;
    ThreadAt(s, i);
  }

  lemma PopPublishThread<V>(s: State<V>, i: nat, j: nat)
    requires Inv(s) && i < |s.threads| && j < |s.threads| && s.threads[i].PopPublish?
    ensures var t := s.threads[i].t;
      var z := s.SetTurn(t, Turn(s.cap, t) * 2 + 2).With(i, Idle);
      ThreadOk(z, j, z.threads[j])
  {
    hide Idx, Turn;
    var t := s.threads[i].t;
    var pc := s.threads[j];
    assert ThreadOk(s, i, s.threads[i]);
    assert ThreadOk(s, j, pc);
    RaiseTurn(s, t, Turn(s.cap, t) * 2 + 1, t);
    if HoldsTicket(pc) {
      RaiseTurn(s, t, Turn(s.cap, t) * 2 + 1, pc.t);
    }
    OneTicket(s, t, s.tail);
  }

  lemma PopPublishCell<V>(s: State<V>, i: nat, u: nat)
    requires Inv(s) && i < |s.threads| && s.threads[i].PopPublish?
    ensures var t := s.threads[i].t;
      var z := s.SetTurn(t, Turn(s.cap, t) * 2 + 2).With(i, Idle);
      && z.PushDone(u) == s.PushDone(u) && z.PopDone(u) == (s.PopDone(u) || u == t)
      && (z.TurnAt(u) == 2 * Turn(s.cap, u) ==> z.cells[Idx(s.cap, u)] == EvenCell(z, u))
      && (z.TurnAt(u) == 2 * Turn(s.cap, u) + 1 ==> u < z.head && z.cells[Idx(s.cap, u)] == OddCell(z, u))
  {
    hide Idx, Turn;
    var t := s.threads[i].t;
    var n := Turn(s.cap, t) * 2 + 1;
    var z := s.SetTurn(t, n + 1).With(i, Idle);
    assert ThreadOk(s, i, s.threads[i]);
    RaiseTurn(s, t, n, t);
    RaiseTurn(s, t, n, u);
    assert s.cells[Idx(s.cap, t)] == OddCell(s, t) == None;
    if u < s.head && s.threads[s.pushOwner[u]].PushPublish? {
      assert ThreadOk(s, s.pushOwner[u], s.threads[s.pushOwner[u]]);
    }
  }

  lemma PopPublishStep<V>(s: State<V>, i: nat)
    requires Inv(s) && i < |s.threads| && s.threads[i].PopPublish?
    ensures Inv(s.SetTurn(s.threads[i].t, Turn(s.cap, s.threads[i].t) * 2 + 2).With(i, Idle))
  {
    hide Idx, Turn, EvenCell, OddCell;
    var t := s.threads[i].t;
    var z := s.SetTurn(t, Turn(s.cap, t) * 2 + 2).With(i, Idle);
    assert ThreadOk(s, i, s.threads[i]);
    forall j | 0 <= j < |z.threads|
      ensures ThreadOk(z, j, z.threads[j])
    {
      PopPublishThread(s, i, j);
    }
    forall u: nat
      ensures z.PushDone(u) == s.PushDone(u) && z.PopDone(u) == (s.PopDone(u) || u == t)
      ensures z.TurnAt(u) == 2 * Turn(s.cap, u) ==> z.cells[Idx(s.cap, u)] == EvenCell(z, u)
      ensures z.TurnAt(u) == 2 * Turn(s.cap, u) + 1 ==> u < z.head && z.cells[Idx(s.cap, u)] == OddCell(z, u)
    {
      PopPublishCell(s, i, u);
    }
  }

  /** What `try_emplace` and `try_pop` learn from their turn load. */
  lemma TurnLoadStep<V>(s: State<V>, i: nat)
    requires Inv(s) && i < |s.threads| && (s.threads[i].TryPushTurn? || s.threads[i].TryPopTurn?)
    ensures s.threads[i].TryPushTurn? ==>
      var h, v := s.threads[i].h, s.threads[i].v;
      Inv(s.With(i, if Turn(s.cap, h) * 2 == s.TurnAt(h) then TryPushCas(h, v)
                    else TryPushReload(h, v, s.head, s.TurnAt(h))))
    ensures s.threads[i].TryPopTurn? ==>
      var h := s.threads[i].h;
      Inv(s.With(i, if Turn(s.cap, h) * 2 + 1 == s.TurnAt(h) then TryPopCas(h)
                    else TryPopReload(h, s.tail, s.TurnAt(h))))
  {
    hide Idx, Turn, EvenCell, OddCell;
    assert ThreadOk(s, i, s.threads[i]);
    var h := s.threads[i].h;
    assert s.PushDone(h) ==> h < s.head;
    assert s.PopDone(h) ==> h < s.tail;
    if s.threads[i].TryPushTurn? {
      QuietStep(s, i, if Turn(s.cap, h) * 2 == s.TurnAt(h) then TryPushCas(h, s.threads[i].v)
                      else TryPushReload(h, s.threads[i].v, s.head, s.TurnAt(h)));
    } else {
      QuietStep(s, i, if Turn(s.cap, h) * 2 + 1 == s.TurnAt(h) then TryPopCas(h)
                      else TryPopReload(h, s.tail, s.TurnAt(h)));
    }
  }

  lemma StepKeepsInv<V>(s: State<V>, i: nat, c: Call<V>)
    requires Inv(s) && i < |s.threads|
    ensures Inv(Step(s, i, c))
  {
    hide Idx, Turn, Threads, Issued, Held, Cells, Matched;
    ThreadAt(s, i);
    match s.threads[i]
    case Idle => QuietStep(s, i, Start(c));
    case PushTake(v) => TakePushStep(s, i, v, PushWait(s.head, v));
    case PushWait(t, v) => if Turn(s.cap, t) * 2 == s.TurnAt(t) { EnterStep(s, i, PushBuild(t, v)); }
    case PushBuild(t, v) => BuildStep(s, i);
    case PushPublish(t, v) => PushPublishStep(s, i);
    case TryPushLoad(v) => QuietStep(s, i, TryPushTurn(s.head, v));
    case TryPushTurn(h, v) => TurnLoadStep(s, i);
    case TryPushCas(h, v) =>
      if s.head == h { TakePushStep(s, i, v, PushBuild(h, v)); } else { QuietStep(s, i, TryPushTurn(s.head, v)); }
    case TryPushReload(h, v, _, _) => QuietStep(s, i, if s.head == h then Idle else TryPushTurn(s.head, v));
    case PopTake => TakePopStep(s, i, PopWait(s.tail));
    case PopWait(t) => if Turn(s.cap, t) * 2 + 1 == s.TurnAt(t) { EnterStep(s, i, PopMove(t)); }
    case PopMove(t) => MoveStep(s, i);
    case PopDestroy(t, v) => DestroyStep(s, i);
    case PopPublish(t, v) => PopPublishStep(s, i);
    case TryPopLoad => QuietStep(s, i, TryPopTurn(s.tail));
    case TryPopTurn(h) => TurnLoadStep(s, i);
    case TryPopCas(h) =>
      if s.tail == h { TakePopStep(s, i, PopMove(h)); } else { QuietStep(s, i, TryPopTurn(s.tail)); }
    case TryPopReload(h, _, _) => QuietStep(s, i, if s.tail == h then Idle else TryPopTurn(s.tail));
  }

  // ---------------------------------------------------------------- runs

  /** The state after a schedule: which thread steps, and which call it begins if it is idle. */
  function Run<V>(s: State<V>, schedule: seq<(nat, Call<V>)>): (z: State<V>)
    requires s.Shape()
    ensures z.Shape() && z.cap == s.cap && |z.threads| == |s.threads|
    decreases |schedule|
  {
    if schedule == [] then s
    else
      var (i, c) := schedule[0];
      Run(if i < |s.threads| then Step(s, i, c) else s, schedule[1..])
  }

  lemma InitInv<V>(cap: nat, n: nat)
    requires cap > 0
    ensures Inv(Init<V>(cap, n))
  {
    hide Idx, Turn;
  }

  lemma {:induction false} RunKeepsInv<V>(s: State<V>, schedule: seq<(nat, Call<V>)>)
    requires Inv(s)
    ensures Inv(Run(s, schedule))
    decreases |schedule|
  {
    hide Idx, Turn, Threads, Issued, Held, Cells, Matched;
    if schedule != [] {
      var (i, c) := schedule[0];
      if i < |s.threads| {
        StepKeepsInv(s, i, c);
      }
      RunKeepsInv(if i < |s.threads| then Step(s, i, c) else s, schedule[1..]);
    }
  }

  function Reached<V>(cap: nat, n: nat, schedule: seq<(nat, Call<V>)>): (s: State<V>)
    requires cap > 0
    ensures s.Shape() && s.cap == cap && |s.threads| == n
  {
    Run(Init(cap, n), schedule)
  }

  lemma ReachedInv<V>(cap: nat, n: nat, schedule: seq<(nat, Call<V>)>)
    requires cap > 0
    ensures Inv(Reached<V>(cap, n, schedule))
  {
    hide Idx, Turn, Threads, Issued, Held, Cells, Matched;
    InitInv<V>(cap, n);
    RunKeepsInv(Init<V>(cap, n), schedule);
  }

  // ---------------------------------------------------------------- what every run satisfies

  /** No value has been moved out yet for a pop that has still to do so. */
  ghost predicate Once<V>(s: State<V>) {
    forall i :: 0 <= i < |s.threads| && (s.threads[i].PopWait? || s.threads[i].PopMove?) ==>
      s.threads[i].t !in s.popped
  }

  lemma StepKeepsOnce<V>(s: State<V>, i: nat, c: Call<V>)
    requires Inv(s) && Once(s) && i < |s.threads|
    ensures Once(Step(s, i, c))
  {
    hide Idx, Turn, Threads, Issued, Held, Cells, Step, ThreadOk;
    var z := Step(s, i, c);
    StepPops(s, i, c);
    forall j | 0 <= j < |z.threads| && (z.threads[j].PopWait? || z.threads[j].PopMove?)
      ensures z.threads[j].t !in z.popped
    {
      if j != i { PopsApart(s, i, j); }
    }
  }

  /** Only a move out adds to what was popped, and a pop begins with the next ticket. */
  lemma StepPops<V>(s: State<V>, i: nat, c: Call<V>)
    requires s.Shape() && i < |s.threads|
    ensures var z := Step(s, i, c);
      && (forall j :: 0 <= j < |s.threads| && j != i ==> z.threads[j] == s.threads[j])
      && z.popped.Keys <= s.popped.Keys + (if s.threads[i].PopMove? then {s.threads[i].t} else {})
      && (z.threads[i].PopWait? || z.threads[i].PopMove? ==>
            && z.popped == s.popped
            && (z.threads[i].t == s.tail
                || ((s.threads[i].PopWait? || s.threads[i].PopMove?) && z.threads[i].t == s.threads[i].t)))
  {
    hide Idx, Turn;
  }

  lemma PopsApart<V>(s: State<V>, i: nat, j: nat)
    requires Inv(s) && i < |s.threads| && j < |s.threads| && i != j
    ensures s.threads[i].PopMove? && (s.threads[j].PopWait? || s.threads[j].PopMove?) ==>
      s.threads[i].t != s.threads[j].t
  {
    hide Idx, Turn, Threads, Issued, Held, Cells, Matched;
    ThreadAt(s, i);
    ThreadAt(s, j);
  }

  lemma {:induction false} RunKeepsOnce<V>(s: State<V>, schedule: seq<(nat, Call<V>)>)
    requires Inv(s) && Once(s)
    ensures Once(Run(s, schedule))
    decreases |schedule|
  {
    hide Idx, Turn, Threads, Issued, Held, Cells, Matched, Step, Once;
    if schedule != [] {
      var (i, c) := schedule[0];
      if i < |s.threads| {
        StepKeepsInv(s, i, c);
        StepKeepsOnce(s, i, c);
      }
      RunKeepsOnce(if i < |s.threads| then Step(s, i, c) else s, schedule[1..]);
    }
  }

  /**
   * The pop with ticket `t` moves out exactly the value of the push with ticket `t`, and at most once: a thread about
   * to do so finds that none has.
   */
  lemma TicketMatching<V>(cap: nat, n: nat, schedule: seq<(nat, Call<V>)>, t: nat)
    requires cap > 0
    ensures var s := Reached(cap, n, schedule);
      && (t in s.popped ==> t < s.tail && t < s.head && s.popped[t] == s.pushed[t])
      && (s.PopDone(t) ==> t in s.popped)
      && (forall i :: 0 <= i < n && s.threads[i].PopPublish? && s.threads[i].t == t
            ==> t < s.head && s.threads[i].v == s.pushed[t])
      && (forall i :: 0 <= i < n && s.threads[i].PopMove? && s.threads[i].t == t ==> t !in s.popped)
  {
    hide Idx, Turn;
    ReachedInv(cap, n, schedule);
    InitInv<V>(cap, n);
    RunKeepsOnce(Init<V>(cap, n), schedule);
    var s := Reached(cap, n, schedule);
    assert s.PopDone(t) ==> t < s.tail;
  }

  lemma OneThreadPerTicket<V>(s: State<V>, i: nat, j: nat)
    requires Inv(s) && i < |s.threads| && j < |s.threads|
    requires s.threads[i].InsideSlot() && s.threads[j].InsideSlot()
    requires Idx(s.cap, s.threads[i].t) == Idx(s.cap, s.threads[j].t)
    ensures i == j
  {
    hide Idx, Turn;
    ThreadAt(s, i);
    ThreadAt(s, j);
    OneTicket(s, s.threads[i].t, s.threads[j].t);
  }

  /** Two threads are never inside one slot. */
  lemma SlotExclusion<V>(cap: nat, n: nat, schedule: seq<(nat, Call<V>)>, i: nat, j: nat)
    requires cap > 0 && i < n && j < n && i != j
    ensures var s := Reached(cap, n, schedule);
      s.threads[i].InsideSlot() && s.threads[j].InsideSlot()
      ==> Idx(cap, s.threads[i].t) != Idx(cap, s.threads[j].t)
  {
    hide Idx, Turn, Threads, Issued, Held, Cells, Matched;
    ReachedInv(cap, n, schedule);
    var s := Reached(cap, n, schedule);
    if s.threads[i].InsideSlot() && s.threads[j].InsideSlot()
       && Idx(cap, s.threads[i].t) == Idx(cap, s.threads[j].t) {
      OneThreadPerTicket(s, i, j);
    }
  }

  /**
   * A compare-exchange that succeeds proves the turn read before it is still there: no wait is needed, and a push finds
   * the slot empty.
   */
  lemma StaleCheckIsSafe<V>(cap: nat, n: nat, schedule: seq<(nat, Call<V>)>, i: nat)
    requires cap > 0 && i < n
    ensures var s := Reached(cap, n, schedule);
      && (s.threads[i].TryPushCas? && s.threads[i].h == s.head ==>
            s.TurnAt(s.head) == 2 * Turn(cap, s.head) && s.cells[Idx(cap, s.head)] == None)
      && (s.threads[i].TryPopCas? && s.threads[i].h == s.tail ==>
            s.TurnAt(s.tail) == 2 * Turn(cap, s.tail) + 1 && s.tail < s.head
            && s.cells[Idx(cap, s.tail)] == Some(s.pushed[s.tail]))
  {
    hide Idx, Turn;
    ReachedInv(cap, n, schedule);
    var s := Reached(cap, n, schedule);
    ThreadAt(s, i);
  }

  /**
   * A try form about to return false is justified: at its last turn load the shared counter was its ticket, and
   * the operation one lap (for a push) or one side (for a pop) earlier had not finished.
   */
  lemma FailedTryIsJustified<V>(cap: nat, n: nat, schedule: seq<(nat, Call<V>)>, i: nat)
    requires cap > 0 && i < n
    ensures var s := Reached(cap, n, schedule);
      && (s.threads[i].TryPushReload? && s.threads[i].h == s.head ==>
            var h := s.threads[i].h;
            && s.threads[i].seenHead == h && h >= cap
            && Idx(cap, h - cap) == Idx(cap, h)
            && s.threads[i].seenTurn <= 2 * Turn(cap, h - cap) + 1)
      && (s.threads[i].TryPopReload? && s.threads[i].h == s.tail ==>
            var t := s.threads[i].h;
            s.threads[i].seenTail == t && s.threads[i].seenTurn <= 2 * Turn(cap, t))
  {
    hide Idx, Turn;
    ReachedInv(cap, n, schedule);
    var s := Reached(cap, n, schedule);
    ThreadAt(s, i);
    if s.threads[i].TryPushReload? && s.threads[i].h == s.head {
      FirstLap(cap, s.head);
      PreviousLap(cap, s.head);
    }
  }

  /** A finished push means the pop one lap before it finished. */
  lemma LapBefore<V>(s: State<V>, t: nat)
    requires s.Shape() && t >= s.cap && s.TurnAt(t) >= 2 * Turn(s.cap, t)
    ensures s.PopDone(t - s.cap)
  {
    hide Idx, Turn;
    PreviousLap(s.cap, t);
  }

  ghost predicate Unfinished<V>(s: State<V>, t: nat)
    requires s.Shape()
  {
    t < s.head && t < s.tail && (!s.PushDone(t) || !s.PopDone(t))
  }

  /** A thread that holds a ticket and can take its next step now. */
  predicate CanStep<V>(s: State<V>, i: nat)
    requires s.Shape() && i < |s.threads|
  {
    var pc := s.threads[i];
    || pc.InsideSlot()
    || (pc.PushWait? && s.TurnAt(pc.t) == Turn(s.cap, pc.t) * 2)
    || (pc.PopWait? && s.TurnAt(pc.t) == Turn(s.cap, pc.t) * 2 + 1)
  }

  /** No deadlock among issued tickets: the holder of the least unfinished one is not blocked. */
  lemma {:induction false} LeastTicketMoves<V>(s: State<V>, t: nat) returns (i: nat)
    requires Inv(s) && Unfinished(s, t)
    ensures i < |s.threads| && CanStep(s, i)
    decreases t
  {
    hide Idx, Turn;
    if t >= s.cap && Unfinished(s, t - s.cap) {
      i := LeastTicketMoves(s, t - s.cap);
    } else {
      FirstLap(s.cap, t);
      if t >= s.cap {
        PreviousLap(s.cap, t);
      }
      i := if !s.PushDone(t) then s.pushOwner[t] else s.popOwner[t];
      ThreadAt(s, i);
    }
  }

  lemma Progress<V>(cap: nat, n: nat, schedule: seq<(nat, Call<V>)>, t: nat)
    requires cap > 0 && Unfinished(Reached(cap, n, schedule), t)
    ensures exists i :: 0 <= i < n && CanStep(Reached(cap, n, schedule), i)
  {
    hide Idx, Turn, Threads, Issued, Held, Cells, Matched;
    ReachedInv(cap, n, schedule);
    var i := LeastTicketMoves(Reached(cap, n, schedule), t);
  }

  // ---------------------------------------------------------------- quiescence and the destructor

  ghost predicate Quiescent<V>(s: State<V>) {
    forall i :: 0 <= i < |s.threads| ==> s.threads[i].Idle?
  }

  lemma QuietTickets<V>(s: State<V>, t: nat)
    requires Inv(s) && Quiescent(s)
    ensures s.PushDone(t) <==> t < s.head
    ensures s.PopDone(t) <==> t < s.tail
  {
    hide Idx, Turn;
    if t < s.head {
      assert s.threads[s.pushOwner[t]].Idle?;
    }
    if t < s.tail {
      assert s.threads[s.popOwner[t]].Idle?;
    }
  }

  /** With nothing in flight the counters differ by the number of stored elements, at most the capacity. */
  lemma QuietSize<V>(s: State<V>)
    requires Inv(s) && Quiescent(s)
    ensures 0 <= s.head - s.tail <= s.cap
  {
    hide Idx, Turn;
    if s.tail > 0 {
      QuietTickets(s, s.tail - 1);
    }
    if s.head > s.cap {
      QuietTickets(s, s.head - 1);
      LapBefore(s, s.head - 1);
      QuietTickets(s, s.head - 1 - s.cap);
    }
  }

  /** With nothing in flight a slot's turn is odd iff it stores an object, which is the unpopped push of its ticket. */
  lemma QuietSlot<V>(s: State<V>, i: nat)
    requires Inv(s) && Quiescent(s) && i < s.cap
    ensures var t := Ticket(s.cap, i, s.turns[i] / 2);
      && Idx(s.cap, t) == i
      && (s.turns[i] % 2 == 1 ==> s.tail <= t < s.head && s.cells[i] == Some(s.pushed[t]))
      && (s.turns[i] % 2 == 0 ==> s.cells[i] == None && forall u :: s.tail <= u < s.head ==> Idx(s.cap, u) != i)
  {
    hide Idx, Turn;
    var t := Ticket(s.cap, i, s.turns[i] / 2);
    Split(s.cap, i, s.turns[i] / 2);
    QuietTickets(s, t);
    if s.turns[i] % 2 == 0 {
      forall u | s.tail <= u < s.head
        ensures Idx(s.cap, u) != i
      {
        QuietTickets(s, u);
      }
    }
  }

  /**
   * With nothing in flight the slot of the next push is ready exactly if there is room, that of the next pop if there
   * is an element.
   */
  lemma QuietTurns<V>(s: State<V>)
    requires Inv(s) && Quiescent(s)
    ensures s.TurnAt(s.head) == 2 * Turn(s.cap, s.head) <==> s.head < s.tail + s.cap
    ensures s.TurnAt(s.tail) == 2 * Turn(s.cap, s.tail) + 1 <==> s.tail < s.head
  {
    hide Idx, Turn;
    QuietTickets(s, s.head);
    QuietTickets(s, s.tail);
    QuietSize(s);
    FirstLap(s.cap, s.head);
    if s.head >= s.cap {
      PreviousLap(s.cap, s.head);
      QuietTickets(s, s.head - s.cap);
    }
  }

  function Moves<V>(i: nat, c: Call<V>, n: nat): (m: seq<(nat, Call<V>)>)
    ensures |m| == n
    ensures n > 0 ==> m[0] == (i, c) && m[1..] == Moves(i, c, n - 1)
  {
    if n == 0 then [] else [(i, c)] + Moves(i, c, n - 1)
  }

  lemma OneMove<V>(s: State<V>, i: nat, c: Call<V>, n: nat, z: State<V>)
    requires s.Shape() && i < |s.threads| && n > 0 && z == Step(s, i, c)
    ensures z.Shape() && Run(s, Moves(i, c, n)) == Run(z, Moves(i, c, n - 1))
  {
    hide Step;
  }

  /**
   * With nothing else in flight `try_emplace` fails exactly if the queue is full; else its next act is to construct the
   * element.
   */
  lemma UndisturbedTryEmplace<V>(s: State<V>, i: nat, v: V)
    requires Inv(s) && Quiescent(s) && i < |s.threads|
    ensures Run(s, Moves(i, TryEmplace(v), 4)) ==
      if s.head - s.tail < s.cap then s.TakePush(i, v).With(i, PushBuild(s.head, v)) else s
  {
    hide Idx, Turn, Threads, Issued, Held, Cells, Matched;
    QuietTurns(s);
    var c := TryEmplace(v);
    var s1 := s.With(i, TryPushLoad(v));
    OneMove(s, i, c, 4, s1);
    var s2 := s.With(i, TryPushTurn(s.head, v));
    assert s1.threads[i := s2.threads[i]] == s2.threads;
    OneMove(s1, i, c, 3, s2);
    var s3 := s.With(i, if s.head - s.tail < s.cap then TryPushCas(s.head, v)
                        else TryPushReload(s.head, v, s.head, s.TurnAt(s.head)));
    assert s2.threads[i := s3.threads[i]] == s3.threads;
    OneMove(s2, i, c, 2, s3);
    var z := if s.head - s.tail < s.cap then s.TakePush(i, v).With(i, PushBuild(s.head, v)) else s;
    assert s3.threads[i := z.threads[i]] == z.threads;
    OneMove(s3, i, c, 1, z);
  }

  /** And `try_pop` fails exactly if it is empty; else its next act is to move the oldest element out. */
  lemma UndisturbedTryPop<V>(s: State<V>, i: nat)
    requires Inv(s) && Quiescent(s) && i < |s.threads|
    ensures Run(s, Moves(i, TryPop, 4)) ==
      if s.tail < s.head then s.TakePop(i).With(i, PopMove(s.tail)) else s
  {
    hide Idx, Turn, Threads, Issued, Held, Cells, Matched;
    QuietTurns(s);
    var s1 := s.With(i, TryPopLoad);
    OneMove(s, i, TryPop, 4, s1);
    var s2 := s.With(i, TryPopTurn(s.tail));
    assert s1.threads[i := s2.threads[i]] == s2.threads;
    OneMove(s1, i, TryPop, 3, s2);
    var s3 := s.With(i, if s.tail < s.head then TryPopCas(s.tail) else TryPopReload(s.tail, s.tail, s.TurnAt(s.tail)));
    assert s2.threads[i := s3.threads[i]] == s3.threads;
    OneMove(s2, i, TryPop, 2, s3);
    var z := if s.tail < s.head then s.TakePop(i).With(i, PopMove(s.tail)) else s;
    assert s3.threads[i := z.threads[i]] == z.threads;
    OneMove(s3, i, TryPop, 1, z);
  }

  // ---------------------------------------------------------------- the bound on the size

  /** `size` is between zero and the capacity. */
  predicate Bounded<V>(s: State<V>) {
    s.tail <= s.head <= s.tail + s.cap
  }

  /** Thread `i` waits to pop a ticket no push has taken. */
  predicate PopsAhead<V>(s: State<V>, i: nat) {
    i < |s.threads| && s.threads[i].PopWait? && s.threads[i].t >= s.head
  }

  /** Thread `i` waits to push a ticket a lap or more ahead of every pop. */
  predicate PushesAhead<V>(s: State<V>, i: nat) {
    i < |s.threads| && s.threads[i].PushWait? && s.threads[i].t >= s.tail + s.cap
  }

  lemma PopIsAhead<V>(s: State<V>, t: nat)
    requires Inv(s) && s.head <= t < s.tail
    ensures s.threads[s.popOwner[t]] == PopWait(t) && PopsAhead(s, s.popOwner[t])
  {
    hide Idx, Turn, Threads, Cells, Matched;
    ThreadAt(s, s.popOwner[t]);
    assert !s.PushDone(t);
  }

  lemma PushIsAhead<V>(s: State<V>, t: nat)
    requires Inv(s) && s.tail + s.cap <= t < s.head
    ensures s.threads[s.pushOwner[t]].PushWait? && s.threads[s.pushOwner[t]].t == t && PushesAhead(s, s.pushOwner[t])
  {
    hide Idx, Turn, Threads, Cells, Matched;
    ThreadAt(s, s.pushOwner[t]);
    if s.TurnAt(t) >= 2 * Turn(s.cap, t) {
      LapBefore(s, t);
      assert false;
    }
  }

  /** The size is below zero exactly while some thread waits to pop what no push has taken a ticket for. */
  lemma NegativeIffPopAhead<V>(cap: nat, n: nat, schedule: seq<(nat, Call<V>)>)
    requires cap > 0
    ensures var s := Reached(cap, n, schedule);
      s.tail > s.head <==> exists i :: 0 <= i < n && PopsAhead(s, i)
  {
    hide Idx, Turn, Threads, Issued, Held, Cells, Matched;
    ReachedInv(cap, n, schedule);
    var s := Reached(cap, n, schedule);
    if s.tail > s.head { PopIsAhead(s, s.head); }
    forall i: nat | i < n && PopsAhead(s, i)
      ensures s.tail > s.head
    {
      ThreadAt(s, i);
    }
  }

  /** And above the capacity exactly while some thread waits to push a lap or more ahead of the pops. */
  lemma ExcessIffPushAhead<V>(cap: nat, n: nat, schedule: seq<(nat, Call<V>)>)
    requires cap > 0
    ensures var s := Reached(cap, n, schedule);
      s.head > s.tail + cap <==> exists i :: 0 <= i < n && PushesAhead(s, i)
  {
    hide Idx, Turn, Threads, Issued, Held, Cells, Matched;
    ReachedInv(cap, n, schedule);
    var s := Reached(cap, n, schedule);
    if s.head > s.tail + cap { PushIsAhead(s, s.tail + cap); }
    forall i: nat | i < n && PushesAhead(s, i)
      ensures s.head > s.tail + cap
    {
      ThreadAt(s, i);
    }
  }

  lemma CasRoom<V>(s: State<V>, i: nat)
    requires Inv(s) && i < |s.threads|
    ensures s.threads[i].TryPushCas? && s.head == s.threads[i].h ==> s.head < s.tail + s.cap
    ensures s.threads[i].TryPopCas? && s.tail == s.threads[i].h ==> s.tail < s.head
  {
    hide Idx, Turn, Threads, Cells, Held, Matched;
    ThreadAt(s, i);
    if s.threads[i].TryPushCas? && s.head == s.threads[i].h && s.head >= s.cap {
      LapBefore(s, s.head);
      assert s.PopDone(s.head - s.cap);
    }
    if s.threads[i].TryPopCas? && s.tail == s.threads[i].h {
      assert s.PushDone(s.tail);
    }
  }

  /** A waiting form about to take its ticket finds an element, or room for one. */
  predicate Room<V>(s: State<V>, i: nat)
    requires i < |s.threads|
  {
    && (s.threads[i].PopTake? ==> s.tail < s.head)
    && (s.threads[i].PushTake? ==> s.head < s.tail + s.cap)
  }

  /** What a caller of a waiting form has to see to: from a bounded size, the next step keeps it so just with room. */
  lemma StaysBoundedIffRoom<V>(s: State<V>, i: nat, c: Call<V>)
    requires Inv(s) && Bounded(s) && i < |s.threads|
    ensures Bounded(Step(s, i, c)) <==> Room(s, i)
  {
    hide Idx, Turn, Threads, Cells, Held, Matched, Issued, ThreadOk;
    CasRoom(s, i);
  }

  /** Every state the schedule goes through is bounded. */
  predicate BoundedAlong<V>(s: State<V>, schedule: seq<(nat, Call<V>)>)
    requires s.Shape()
    decreases |schedule|
  {
    && Bounded(s)
    && (schedule == [] ||
        var (i, c) := schedule[0];
        BoundedAlong(if i < |s.threads| then Step(s, i, c) else s, schedule[1..]))
  }

  /** Every waiting form takes its ticket when there is an element, or room. */
  predicate RoomAlong<V>(s: State<V>, schedule: seq<(nat, Call<V>)>)
    requires s.Shape()
    decreases |schedule|
  {
    schedule == [] ||
    var (i, c) := schedule[0];
    && (i < |s.threads| ==> Room(s, i))
    && RoomAlong(if i < |s.threads| then Step(s, i, c) else s, schedule[1..])
  }

  lemma {:induction false} RunBoundedIffRoom<V>(s: State<V>, schedule: seq<(nat, Call<V>)>)
    requires Inv(s) && Bounded(s)
    ensures BoundedAlong(s, schedule) <==> RoomAlong(s, schedule)
    decreases |schedule|
  {
    hide Idx, Turn, Threads, Issued, Held, Cells, Matched, Room, Bounded, Step;
    if schedule != [] {
      var (i, c) := schedule[0];
      var z := if i < |s.threads| then Step(s, i, c) else s;
      if i < |s.threads| {
        StepKeepsInv(s, i, c);
        StaysBoundedIffRoom(s, i, c);
      }
      if Bounded(z) {
        RunBoundedIffRoom(z, schedule[1..]);
      }
    }
  }

  /** The size stays between zero and the capacity throughout a run if and only if no waiting form runs ahead. */
  lemma SizeBoundedIffRoom<V>(cap: nat, n: nat, schedule: seq<(nat, Call<V>)>)
    requires cap > 0
    ensures BoundedAlong(Init<V>(cap, n), schedule) <==> RoomAlong(Init<V>(cap, n), schedule)
  {
    hide Inv;
    InitInv<V>(cap, n);
    RunBoundedIffRoom(Init<V>(cap, n), schedule);
  }

  predicate TryCall<V>(c: Call<V>) {
    c.TryEmplace? || c.TryPop?
  }

  ghost predicate TryForm<V>(s: State<V>) {
    forall i :: 0 <= i < |s.threads| ==>
      var pc := s.threads[i];
      !pc.PushTake? && !pc.PushWait? && !pc.PopTake? && !pc.PopWait?
  }

  lemma {:induction false} TryFormsHaveRoom<V>(s: State<V>, schedule: seq<(nat, Call<V>)>)
    requires s.Shape() && TryForm(s) && forall k :: 0 <= k < |schedule| ==> TryCall(schedule[k].1)
    ensures RoomAlong(s, schedule)
    decreases |schedule|
  {
    hide Idx, Turn;
    if schedule != [] {
      var (i, c) := schedule[0];
      assert TryCall(schedule[0].1);
      TryFormsHaveRoom(if i < |s.threads| then Step(s, i, c) else s, schedule[1..]);
    }
  }

  lemma {:induction false} AlongEnds<V>(s: State<V>, schedule: seq<(nat, Call<V>)>)
    requires s.Shape() && BoundedAlong(s, schedule)
    ensures Bounded(Run(s, schedule))
    decreases |schedule|
  {
    hide Step, Bounded;
    if schedule != [] {
      var (i, c) := schedule[0];
      AlongEnds(if i < |s.threads| then Step(s, i, c) else s, schedule[1..]);
    }
  }

  /** Under the try forms alone the queue never holds fewer than zero or more than `cap` tickets. */
  lemma TryFormsStayBounded<V>(cap: nat, n: nat, schedule: seq<(nat, Call<V>)>)
    requires cap > 0
    requires forall k :: 0 <= k < |schedule| ==> TryCall(schedule[k].1)
    ensures var s := Reached(cap, n, schedule);
      0 <= s.head - s.tail <= cap
  {
    hide RoomAlong, BoundedAlong, Run;
    TryFormsHaveRoom(Init<V>(cap, n), schedule);
    SizeBoundedIffRoom(cap, n, schedule);
    AlongEnds(Init<V>(cap, n), schedule);
  }

  /** With the waiting forms the bound fails: one waiting pop drives the difference below zero. */
  lemma WaitingPopGoesNegative<V>(cap: nat, c: Call<V>)
    requires cap > 0
    ensures var s := Reached(cap, 1, [(0, Pop), (0, c)]);
      s.head as int - s.tail as int == -1
  {
    hide Idx, Turn;
    var s0 := Init<V>(cap, 1);
    var s1 := Step(s0, 0, Pop);
    var s2 := Step(s1, 0, c);
    assert s2.tail == 1 && s2.head == 0;
    assert [(0, Pop), (0, c)][1..] == [(0, c)];
    assert Run(s1, [(0, c)]) == Run(s2, []);
  }

  lemma {:induction false} RunConcat<V>(s: State<V>, a: seq<(nat, Call<V>)>, b: seq<(nat, Call<V>)>)
    requires s.Shape()
    ensures Run(s, a + b) == Run(Run(s, a), b)
    decreases |a|
  {
    hide Step;
    if a == [] {
      assert a + b == b;
    } else {
      var (i, c) := a[0];
      RunConcat(if i < |s.threads| then Step(s, i, c) else s, a[1..], b);
      assert (a + b)[1..] == a[1..] + b;
    }
  }

  /** Thread `i` begins `emplace(v)` and takes its ticket. */
  lemma TakeTicket<V>(s: State<V>, i: nat, v: V)
    requires s.Shape() && i < |s.threads| && s.threads[i].Idle?
    ensures var z := Run(s, Moves(i, Emplace(v), 2));
      && z.head == s.head + 1 && z.tail == s.tail && |z.threads| == |s.threads|
      && forall j :: 0 <= j < |s.threads| && j != i ==> z.threads[j] == s.threads[j]
  {
    hide Idx, Turn;
    var s1 := s.With(i, PushTake(v));
    OneMove(s, i, Emplace(v), 2, s1);
    OneMove(s1, i, Emplace(v), 1, Step(s1, i, Emplace(v)));
  }

  lemma {:induction false} TakeTickets<V>(cap: nat, n: nat, k: nat, v: V) returns (schedule: seq<(nat, Call<V>)>)
    requires cap > 0 && k <= n
    ensures var s := Reached(cap, n, schedule);
      s.head == k && s.tail == 0 && forall j :: k <= j < n ==> s.threads[j].Idle?
    decreases k
  {
    hide Idx, Turn, Step, Moves;
    if k == 0 {
      schedule := [];
    } else {
      var before := TakeTickets(cap, n, k - 1, v);
      schedule := before + Moves(k - 1, Emplace(v), 2);
      RunConcat(Init<V>(cap, n), before, Moves(k - 1, Emplace(v), 2));
      TakeTicket(Reached(cap, n, before), k - 1, v);
    }
  }

  /** And one waiting emplace more than there are slots drives it above the capacity. */
  lemma WaitingEmplaceExceeds<V>(cap: nat, v: V) returns (schedule: seq<(nat, Call<V>)>)
    requires cap > 0
    ensures var s := Reached(cap, cap + 1, schedule);
      s.head - s.tail == cap + 1
  {
    hide Reached;
    schedule := TakeTickets(cap, cap + 1, cap + 1, v);
  }

  lemma DistinctFit(q: seq<nat>, n: nat)
    requires forall k :: 0 <= k < |q| ==> q[k] < n
    requires forall k, j :: 0 <= k < j < |q| ==> q[k] != q[j]
    ensures |q| <= n
  {
    var e := DistinctSet(q);
    SubsetSize(e, Range(0, n));
  }

  lemma {:induction false} DistinctSet(q: seq<nat>) returns (e: set<nat>)
    requires forall k, j :: 0 <= k < j < |q| ==> q[k] != q[j]
    ensures |e| == |q| && forall x :: x in e <==> x in q
    decreases |q|
  {
    if q == [] {
      e := {};
    } else {
      var m := |q| - 1;
      e := DistinctSet(q[..m]);
      assert q == q[..m] + [q[m]];
      e := e + {q[m]};
    }
  }

  /** How far the bound can fail: by no more than the number of threads, each of which runs ahead by one ticket. */
  lemma SizeWithinThreads<V>(cap: nat, n: nat, schedule: seq<(nat, Call<V>)>)
    requires cap > 0
    ensures var s := Reached(cap, n, schedule);
      s.tail <= s.head + n && s.head <= s.tail + cap + n
  {
    hide Idx, Turn, Threads, Issued, Held, Cells, Matched, PopsAhead, PushesAhead;
    ReachedInv(cap, n, schedule);
    var s := Reached(cap, n, schedule);
    if s.tail > s.head {
      forall t | s.head <= t < s.tail
        ensures s.threads[s.popOwner[t]] == PopWait(t)
      {
        PopIsAhead(s, t);
      }
      DistinctFit(s.popOwner[s.head..], n);
    }
    if s.head > s.tail + cap {
      forall t | s.tail + cap <= t < s.head
        ensures s.threads[s.pushOwner[t]].PushWait? && s.threads[s.pushOwner[t]].t == t
      {
        PushIsAhead(s, t);
      }
      DistinctFit(s.pushOwner[s.tail + cap..], n);
    }
  }

  // ---------------------------------------------------------------- the queue in memory

  /** The queue object and its threads; each call of `Advance` performs one atomic access in place. */
  class Queue<V> {
    const capacity: nat
    var head: nat
    var tail: nat
    const turns: array<nat>
    const cells: array<Option<V>>
    const threads: array<Pc<V>>
    ghost var pushed: seq<V>
    ghost var pushOwner: seq<nat>
    ghost var popOwner: seq<nat>
    ghost var popped: map<nat, V>

    ghost function Snapshot(): State<V>
      reads this, turns, cells, threads
    {
      State(capacity, head, tail, turns[..], cells[..], threads[..], pushed, pushOwner, popOwner, popped)
    }

    ghost predicate Valid()
      reads this, turns, cells, threads
    {
      Inv(Snapshot())
    }

    constructor (capacity: nat, n: nat)
      requires capacity > 0
      ensures Valid() && fresh(turns) && fresh(cells) && fresh(threads)
      ensures Snapshot() == Init(capacity, n)
    {
      this.capacity := capacity;
      head, tail := 0, 0;
      turns := new nat[capacity](_ => 0);
      cells := new Option<V>[capacity](_ => None);
      threads := new Pc<V>[n](_ => Idle);
      pushed, pushOwner, popOwner, popped := [], [], [], map[];
      new;
      InitInv<V>(capacity, n);
      assert Snapshot() == Init(capacity, n);
    }

    /** One atomic access of thread `i`; an idle thread begins call `c`. */
    method Advance(i: nat, c: Call<V>)
      requires Valid() && i < threads.Length
      modifies this, turns, cells, threads
      ensures Valid() && Snapshot() == Step(old(Snapshot()), i, c)
    {
      hide Inv, Step;
      ghost var s := Snapshot();
      ShapeOfInv(s);
      StepKeepsInv(s, i, c);
      var pc := threads[i];
      if pc.Idle? {
        Begin(i, c);
      } else if pc.PushTake? || pc.PushWait? || pc.PushBuild? || pc.PushPublish? {
        Emplace(i, c);
      } else if pc.PopTake? || pc.PopWait? || pc.PopMove? || pc.PopDestroy? || pc.PopPublish? {
        Pop(i, c);
      } else if pc.TryPushLoad? || pc.TryPushTurn? || pc.TryPushCas? || pc.TryPushReload? {
        TryEmplace(i, c);
      } else {
        TryPop(i, c);
      }
    }

    method Begin(i: nat, c: Call<V>)
      requires Snapshot().Shape() && i < threads.Length && threads[i].Idle?
      modifies threads
      ensures Snapshot() == Step(old(Snapshot()), i, c)
    {
      threads[i] := Start(c);
    }

    /** `emplace`, and the part of `try_emplace` after its compare-exchange. */
    method Emplace(i: nat, ghost c: Call<V>)
      requires Snapshot().Shape() && i < threads.Length
      requires var pc := threads[i]; pc.PushTake? || pc.PushWait? || pc.PushBuild? || pc.PushPublish?
      modifies this, turns, cells, threads
      ensures Snapshot() == Step(old(Snapshot()), i, c)
    {
      hide Idx, Turn;
      match threads[i]
      case PushTake(v) =>
        pushed, pushOwner := pushed + [v], pushOwner + [i];
        threads[i] := PushWait(head, v);
        head := head + 1;
      case PushWait(t, v) =>
        if Turn(capacity, t) * 2 == turns[Idx(capacity, t)] {
          threads[i] := PushBuild(t, v);
        }
      case PushBuild(t, v) =>
        cells[Idx(capacity, t)] := Some(v);
        threads[i] := PushPublish(t, v);
      case PushPublish(t, v) =>
        turns[Idx(capacity, t)] := Turn(capacity, t) * 2 + 1;
        threads[i] := Idle;
    }

    /** `pop`, and the part of `try_pop` after its compare-exchange. */
    method Pop(i: nat, ghost c: Call<V>)
      requires Snapshot().Shape() && i < threads.Length
      requires var pc := threads[i]; pc.PopTake? || pc.PopWait? || pc.PopMove? || pc.PopDestroy? || pc.PopPublish?
      modifies this, turns, cells, threads
      ensures Snapshot() == Step(old(Snapshot()), i, c)
    {
      hide Idx, Turn;
      match threads[i]
      case PopTake =>
        popOwner := popOwner + [i];
        threads[i] := PopWait(tail);
        tail := tail + 1;
      case PopWait(t) =>
        if Turn(capacity, t) * 2 + 1 == turns[Idx(capacity, t)] {
          threads[i] := PopMove(t);
        }
      case PopMove(t) =>
        match cells[Idx(capacity, t)] {
          case Some(v) =>
            popped := popped[t := v];
            threads[i] := PopDestroy(t, v);
          case None =>
        }
      case PopDestroy(t, v) =>
        cells[Idx(capacity, t)] := None;
        threads[i] := PopPublish(t, v);
      case PopPublish(t, v) =>
        turns[Idx(capacity, t)] := Turn(capacity, t) * 2 + 2;
        threads[i] := Idle;
    }

    /** The retry loop of `try_emplace`. */
    method TryEmplace(i: nat, ghost c: Call<V>)
      requires Snapshot().Shape() && i < threads.Length
      requires var pc := threads[i]; pc.TryPushLoad? || pc.TryPushTurn? || pc.TryPushCas? || pc.TryPushReload?
      modifies this, threads
      ensures Snapshot() == Step(old(Snapshot()), i, c)
    {
      hide Idx, Turn;
      match threads[i]
      case TryPushLoad(v) => threads[i] := TryPushTurn(head, v);
      case TryPushTurn(h, v) =>
        if Turn(capacity, h) * 2 == turns[Idx(capacity, h)] {
          threads[i] := TryPushCas(h, v);
        } else {
          threads[i] := TryPushReload(h, v, head, turns[Idx(capacity, h)]);
        }
      case TryPushCas(h, v) =>
        if head == h {
          pushed, pushOwner := pushed + [v], pushOwner + [i];
          head := head + 1;
          threads[i] := PushBuild(h, v);
        } else {
          threads[i] := TryPushTurn(head, v);
        }
      case TryPushReload(h, v, _, _) =>
        threads[i] := if head == h then Idle else TryPushTurn(head, v);
    }

    /** The retry loop of `try_pop`. */
    method TryPop(i: nat, ghost c: Call<V>)
      requires Snapshot().Shape() && i < threads.Length
      requires var pc := threads[i]; pc.TryPopLoad? || pc.TryPopTurn? || pc.TryPopCas? || pc.TryPopReload?
      modifies this, threads
      ensures Snapshot() == Step(old(Snapshot()), i, c)
    {
      hide Idx, Turn;
      match threads[i]
      case TryPopLoad => threads[i] := TryPopTurn(tail);
      case TryPopTurn(h) =>
        if Turn(capacity, h) * 2 + 1 == turns[Idx(capacity, h)] {
          threads[i] := TryPopCas(h);
        } else {
          threads[i] := TryPopReload(h, tail, turns[Idx(capacity, h)]);
        }
      case TryPopCas(h) =>
        if tail == h {
          popOwner := popOwner + [i];
          tail := tail + 1;
          threads[i] := PopMove(h);
        } else {
          threads[i] := TryPopTurn(tail);
        }
      case TryPopReload(h, _, _) =>
        threads[i] := if tail == h then Idle else TryPopTurn(tail);
    }

    /** The destructor: with nothing in flight it destroys the unpopped elements, each in its slot, and nothing else. */
    method Destroy() returns (destroyed: map<nat, V>)
      requires Valid() && Quiescent(Snapshot())
      modifies cells
      ensures UnpoppedBySlot(old(Snapshot()), destroyed)
      ensures forall i :: 0 <= i < cells.Length ==> cells[i] == None
    {
      hide Idx, Turn, Inv, Quiescent, UnpoppedBySlot;
      ghost var s := Snapshot();
      ShapeOfInv(s);
      destroyed := map[];
      for i := 0 to capacity
        invariant turns[..] == s.turns
        invariant cells[i..] == s.cells[i..]
        invariant forall j :: 0 <= j < i ==> cells[j] == None
        invariant forall j :: j in destroyed <==> 0 <= j < i && s.turns[j] % 2 == 1
        invariant forall j :: j in destroyed ==> Some(destroyed[j]) == s.cells[j]
      {
        QuietSlot(s, i);
        assert cells[i] == s.cells[i];
        if turns[i] % 2 == 1 {
          match cells[i] {
            case Some(v) => destroyed := destroyed[i := v];
            case None =>
          }
          cells[i] := None;
        }
      }
      OddSlotsAreUnpopped(s, destroyed);
    }
  }

  /** `m` holds, by slot, exactly the values of the tickets pushed and not popped. */
  ghost predicate UnpoppedBySlot<V>(s: State<V>, m: map<nat, V>)
    requires s.Shape()
  {
    && (forall t :: s.tail <= t < s.head ==> Idx(s.cap, t) in m && m[Idx(s.cap, t)] == s.pushed[t])
    && (forall i :: i in m ==> exists t :: s.tail <= t < s.head && Idx(s.cap, t) == i)
  }

  lemma OddSlotsAreUnpopped<V>(s: State<V>, m: map<nat, V>)
    requires Inv(s) && Quiescent(s)
    requires forall j :: j in m <==> 0 <= j < s.cap && s.turns[j] % 2 == 1
    requires forall j :: j in m ==> Some(m[j]) == s.cells[j]
    ensures UnpoppedBySlot(s, m)
  {
    hide Idx, Turn, Threads, Issued, Held, Cells, Matched;
    forall t | s.tail <= t < s.head
      ensures Idx(s.cap, t) in m && m[Idx(s.cap, t)] == s.pushed[t]
    {
      QuietTickets(s, t);
      var i := Idx(s.cap, t);
      QuietSlot(s, i);
      assert s.TurnAt(t) == 2 * Turn(s.cap, t) + 1;
      Split(s.cap, i, s.turns[i] / 2);
      Same(s.cap, t, Ticket(s.cap, i, s.turns[i] / 2));
    }
    forall i | i in m
      ensures exists t :: s.tail <= t < s.head && Idx(s.cap, t) == i
    {
      QuietSlot(s, i);
    }
  }

  lemma ShapeOfInv<V>(s: State<V>)
    requires Inv(s)
    ensures s.Shape()
  {
  }
}
