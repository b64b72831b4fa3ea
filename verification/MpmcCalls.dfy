/** What each call on the bounded queue comes to, by what it was given and what the queue was like, over every run. */
module MpmcCalls {
  import opened Common
  import opened Tickets
  import opened MpmcQueue

  /**
   * A thread's call as the schedule began it, the ticket it has taken, and the counter at which one of its own accesses
   * last found the queue full, if it tries to push, or empty, if it tries to pop.
   */
  datatype Trace<V> = NoCall | InCall(call: Call<V>, took: Option<nat>, saw: Option<nat>)

  /** The pop one lap before the next push has not finished. */
  predicate Full<V>(s: State<V>)
    requires s.Shape()
  {
    s.head >= s.cap && !s.PopDone(s.head - s.cap)
  }

  /** The push of the next pop has not finished. */
  predicate Empty<V>(s: State<V>)
    requires s.Shape()
  {
    !s.PushDone(s.tail)
  }

  /** The trace of thread `i` with its access to `s`, which takes a ticket if it moves a counter. */
  function During<V>(s: State<V>, tr: Trace<V>, i: nat, c: Call<V>): Trace<V>
    requires s.Shape() && i < |s.threads|
  {
    var b := if s.threads[i].Idle? then InCall(c, None, None) else tr;
    var z := Step(s, i, c);
    if b.NoCall? then b
    else
      b.(took := if z.head != s.head then Some(s.head) else if z.tail != s.tail then Some(s.tail) else b.took,
         saw := if b.call.TryEmplace? && Full(s) then Some(s.head)
                else if b.call.TryPop? && Empty(s) then Some(s.tail) else b.saw)
  }

  /** A call ends when its thread is idle again. */
  function TraceAfter<V>(s: State<V>, tr: Trace<V>, i: nat, m: (nat, Call<V>)): Trace<V>
    requires s.Shape()
  {
    if m.0 != i || i >= |s.threads| then tr
    else if Step(s, i, m.1).threads[i].Idle? then NoCall
    else During(s, tr, i, m.1)
  }

  function TraceIn<V>(s: State<V>, tr: Trace<V>, i: nat, schedule: seq<(nat, Call<V>)>): Trace<V>
    requires s.Shape()
    decreases |schedule|
  {
    if schedule == [] then tr
    else
      var (j, c) := schedule[0];
      TraceIn(if j < |s.threads| then Step(s, j, c) else s, TraceAfter(s, tr, i, schedule[0]), i, schedule[1..])
  }

  /** A thread's place holds what its call was given and what it took. */
  ghost predicate Traced<V>(pc: Pc<V>, tr: Trace<V>) {
    if pc.Idle? then tr.NoCall?
    else
      tr.InCall? &&
      match pc
      case PushTake(v) => tr.call == Emplace(v) && tr.took == None
      case PushWait(t, v) => tr.call == Emplace(v) && tr.took == Some(t)
      case PushBuild(t, v) => (tr.call == Emplace(v) || tr.call == TryEmplace(v)) && tr.took == Some(t)
      case PushPublish(t, v) => (tr.call == Emplace(v) || tr.call == TryEmplace(v)) && tr.took == Some(t)
      case TryPushLoad(v) => tr.call == TryEmplace(v) && tr.took == None
      case TryPushTurn(_, v) => tr.call == TryEmplace(v) && tr.took == None
      case TryPushCas(_, v) => tr.call == TryEmplace(v) && tr.took == None
      case TryPushReload(h, v, seenHead, _) =>
        tr.call == TryEmplace(v) && tr.took == None && (seenHead == h ==> tr.saw == Some(h))
      case PopTake => tr.call.Pop? && tr.took == None
      case PopWait(t) => tr.call.Pop? && tr.took == Some(t)
      case PopMove(t) => (tr.call.Pop? || tr.call.TryPop?) && tr.took == Some(t)
      case PopDestroy(t, _) => (tr.call.Pop? || tr.call.TryPop?) && tr.took == Some(t)
      case PopPublish(t, _) => (tr.call.Pop? || tr.call.TryPop?) && tr.took == Some(t)
      case TryPopLoad => tr.call.TryPop? && tr.took == None
      case TryPopTurn(_) => tr.call.TryPop? && tr.took == None
      case TryPopCas(_) => tr.call.TryPop? && tr.took == None
      case TryPopReload(h, seenTail, _) => tr.call.TryPop? && tr.took == None && (seenTail == h ==> tr.saw == Some(h))
      case Idle => false
  }

  /** A turn found too low with the counter unmoved shows the queue full, or empty. */
  lemma LoadSees<V>(s: State<V>, i: nat)
    requires Inv(s) && i < |s.threads|
    ensures s.threads[i].TryPushTurn? && s.threads[i].h == s.head ==>
      s.TurnAt(s.head) == 2 * Turn(s.cap, s.head) || Full(s)
    ensures s.threads[i].TryPopTurn? && s.threads[i].h == s.tail ==>
      s.TurnAt(s.tail) == 2 * Turn(s.cap, s.tail) + 1 || Empty(s)
  {
    hide Idx, Turn, Threads, Held, Cells, Matched;
    ThreadAt(s, i);
    assert !s.PushDone(s.head) && !s.PopDone(s.tail);
    FirstLap(s.cap, s.head);
    if s.head >= s.cap {
      PreviousLap(s.cap, s.head);
    }
  }

  lemma StepTraced<V>(s: State<V>, tr: Trace<V>, i: nat, c: Call<V>)
    requires Inv(s) && i < |s.threads| && Traced(s.threads[i], tr)
    ensures Traced(Step(s, i, c).threads[i], TraceAfter(s, tr, i, (i, c)))
  {
    assert s.Shape();
    hide Inv, Step;
    var pc := s.threads[i];
    if pc.TryPushTurn? || pc.TryPopTurn? {
      LoadTraced(s, tr, i, c);
    } else if pc.Idle? {
      BeginTraced(s, tr, i, c);
    } else if Pops(pc) {
      PopTraced(s, tr, i, c);
    } else {
      PushTraced(s, tr, i, c);
    }
  }

  predicate Pops<V>(pc: Pc<V>) {
    pc.PopTake? || pc.PopWait? || pc.PopMove? || pc.PopDestroy? || pc.PopPublish? || pc.TryPopLoad? || pc.TryPopCas?
    || pc.TryPopReload?
  }

  lemma LoadTraced<V>(s: State<V>, tr: Trace<V>, i: nat, c: Call<V>)
    requires Inv(s) && i < |s.threads| && Traced(s.threads[i], tr)
    requires s.threads[i].TryPushTurn? || s.threads[i].TryPopTurn?
    ensures Traced(Step(s, i, c).threads[i], TraceAfter(s, tr, i, (i, c)))
  {
    hide Idx, Turn, Threads, Issued, Held, Cells, Matched, Full, Empty, ThreadOk;
    LoadSees(s, i);
  }

  lemma BeginTraced<V>(s: State<V>, tr: Trace<V>, i: nat, c: Call<V>)
    requires s.Shape() && i < |s.threads| && Traced(s.threads[i], tr)
    requires s.threads[i].Idle?
    ensures Traced(Step(s, i, c).threads[i], TraceAfter(s, tr, i, (i, c)))
  {
    hide Idx, Turn, Full, Empty;
  }

  lemma PopTraced<V>(s: State<V>, tr: Trace<V>, i: nat, c: Call<V>)
    requires s.Shape() && i < |s.threads| && Traced(s.threads[i], tr)
    requires Pops(s.threads[i])
    ensures Traced(Step(s, i, c).threads[i], TraceAfter(s, tr, i, (i, c)))
  {
    hide Idx, Turn, Full, Empty;
  }

  lemma PushTraced<V>(s: State<V>, tr: Trace<V>, i: nat, c: Call<V>)
    requires s.Shape() && i < |s.threads| && Traced(s.threads[i], tr)
    requires !s.threads[i].Idle? && !Pops(s.threads[i]) && !s.threads[i].TryPushTurn? && !s.threads[i].TryPopTurn?
    ensures Traced(Step(s, i, c).threads[i], TraceAfter(s, tr, i, (i, c)))
  {
    hide Idx, Turn, Full, Empty;
  }

  lemma {:induction false} RunTraced<V>(s: State<V>, tr: Trace<V>, i: nat, schedule: seq<(nat, Call<V>)>)
    requires Inv(s) && i < |s.threads| && Traced(s.threads[i], tr)
    ensures Traced(Run(s, schedule).threads[i], TraceIn(s, tr, i, schedule))
    decreases |schedule|
  {
    hide Idx, Turn, Threads, Issued, Held, Cells, Matched, Traced, TraceAfter;
    if schedule != [] {
      var (j, c) := schedule[0];
      var z := if j < |s.threads| then Step(s, j, c) else s;
      if j < |s.threads| {
        StepKeepsInv(s, j, c);
      }
      TurnTraced(s, tr, i, schedule[0]);
      RunTraced(z, TraceAfter(s, tr, i, schedule[0]), i, schedule[1..]);
    }
  }

  lemma TurnTraced<V>(s: State<V>, tr: Trace<V>, i: nat, m: (nat, Call<V>))
    requires Inv(s) && i < |s.threads| && Traced(s.threads[i], tr)
    ensures Traced((if m.0 < |s.threads| then Step(s, m.0, m.1) else s).threads[i], TraceAfter(s, tr, i, m))
  {
    assert s.Shape();
    hide Inv, Traced, During;
    if m.0 == i {
      StepTraced(s, tr, i, m.1);
    } else if m.0 < |s.threads| {
      OthersStay(s, m.0, m.1, i);
    }
  }

  lemma OthersStay<V>(s: State<V>, j: nat, c: Call<V>, i: nat)
    requires s.Shape() && j < |s.threads| && i < |s.threads| && i != j
    ensures Step(s, j, c).threads[i] == s.threads[i]
  {
    hide Idx, Turn;
  }

  /** The trace of thread `i` with its next access, after a run. */
  function Next<V>(cap: nat, n: nat, schedule: seq<(nat, Call<V>)>, i: nat, c: Call<V>): Trace<V>
    requires cap > 0 && i < n
  {
    During(Reached(cap, n, schedule), TraceIn(Init(cap, n), NoCall, i, schedule), i, c)
  }

  lemma ReachedTraced<V>(cap: nat, n: nat, schedule: seq<(nat, Call<V>)>, i: nat)
    requires cap > 0 && i < n
    ensures Inv(Reached(cap, n, schedule))
    ensures Traced(Reached(cap, n, schedule).threads[i], TraceIn(Init(cap, n), NoCall, i, schedule))
  {
    hide Inv, TraceIn, Run;
    ReachedInv(cap, n, schedule);
    InitInv<V>(cap, n);
    RunTraced(Init<V>(cap, n), NoCall, i, schedule);
  }

  /**
   * A push ticket goes to a call that pushes and has no ticket, and the value recorded for it is the one the call was
   * given; a pop ticket goes to a call that pops and has none.
   */
  lemma TicketIsTheCalls<V>(cap: nat, n: nat, schedule: seq<(nat, Call<V>)>, i: nat, c: Call<V>)
    requires cap > 0 && i < n
    ensures var s := Reached(cap, n, schedule);
      var z, before, d := Step(s, i, c), TraceIn(Init(cap, n), NoCall, i, schedule), Next(cap, n, schedule, i, c);
      && d.InCall?
      && (if z.head == s.head then z.pushed == s.pushed && z.pushOwner == s.pushOwner
          else
            && (before.InCall? ==> before.took == None) && (d.call.Emplace? || d.call.TryEmplace?)
            && z.head == s.head + 1 && z.pushed == s.pushed + [d.call.v] && z.pushOwner == s.pushOwner + [i])
      && (if z.tail == s.tail then z.popOwner == s.popOwner
          else
            && (before.InCall? ==> before.took == None) && (d.call.Pop? || d.call.TryPop?)
            && z.tail == s.tail + 1 && z.popOwner == s.popOwner + [i])
  {
    hide Idx, Turn, Inv, Reached, TraceIn, Full, Empty;
    ReachedTraced(cap, n, schedule, i);
  }

  /** Thread `i` took a push ticket, recorded for `v`, and has handed its object on. */
  ghost predicate Pushed<V>(z: State<V>, i: nat, took: Option<nat>, v: V)
    requires z.Shape()
  {
    && took.Some? && took.value < z.head && z.pushOwner[took.value] == i && z.pushed[took.value] == v
    && z.PushDone(took.value)
  }

  /** Thread `i` took a pop ticket and moved out the value pushed with that ticket. */
  ghost predicate Popped<V>(z: State<V>, i: nat, took: Option<nat>)
    requires z.Shape()
  {
    && took.Some? && took.value < z.tail && z.popOwner[took.value] == i && z.PopDone(took.value)
    && took.value in z.popped && took.value < z.head && z.popped[took.value] == z.pushed[took.value]
  }

  /**
   * How a call may end, whatever place its thread is at. An `emplace` has pushed its value and a `pop` has popped. A
   * try form has as well, or has taken no ticket and changed nothing, and one of its own accesses found the queue full,
   * or empty, with the counter as it still is.
   */
  lemma CallEnds<V>(cap: nat, n: nat, schedule: seq<(nat, Call<V>)>, i: nat, c: Call<V>)
    requires cap > 0 && i < n
    ensures var s := Reached(cap, n, schedule);
      var z, d := Step(s, i, c), Next(cap, n, schedule, i, c);
      z.threads[i].Idle? ==>
        && d.InCall?
        && match d.call
           case Emplace(v) => Pushed(z, i, d.took, v)
           case TryEmplace(v) =>
             Pushed(z, i, d.took, v) || (d.took == None && d.saw == Some(s.head) && z == s.With(i, Idle))
           case Pop => Popped(z, i, d.took)
           case TryPop => Popped(z, i, d.took) || (d.took == None && d.saw == Some(s.tail) && z == s.With(i, Idle))
  {
    hide Idx, Turn, Reached, TraceIn, Full, Empty, Threads, Held, Cells, Issued;
    ReachedTraced(cap, n, schedule, i);
    var s := Reached(cap, n, schedule);
    ThreadAt(s, i);
    EndsHow(s, TraceIn(Init(cap, n), NoCall, i, schedule), i, c);
  }

  lemma EndsHow<V>(s: State<V>, tr: Trace<V>, i: nat, c: Call<V>)
    requires Inv(s) && i < |s.threads| && Traced(s.threads[i], tr)
    ensures var z, d := Step(s, i, c), During(s, tr, i, c);
      z.threads[i].Idle? ==>
        && d.InCall?
        && match d.call
           case Emplace(v) => Pushed(z, i, d.took, v)
           case TryEmplace(v) =>
             Pushed(z, i, d.took, v) || (d.took == None && d.saw == Some(s.head) && z == s.With(i, Idle))
           case Pop => Popped(z, i, d.took)
           case TryPop => Popped(z, i, d.took) || (d.took == None && d.saw == Some(s.tail) && z == s.With(i, Idle))
  {
    hide Idx, Turn, Inv, Pushed, Popped, Full, Empty;
    HandsOn(s, i, c);
    Unmoved(s, i);
  }

  lemma Unmoved<V>(s: State<V>, i: nat)
    requires Inv(s) && i < |s.threads|
    ensures s.threads[i].TryPushReload? && s.threads[i].h == s.head ==> s.threads[i].seenHead == s.head
    ensures s.threads[i].TryPopReload? && s.threads[i].h == s.tail ==> s.threads[i].seenTail == s.tail
  {
    hide Idx, Turn, Threads, Issued, Held, Cells, Matched;
    ThreadAt(s, i);
  }

  lemma HandsOn<V>(s: State<V>, i: nat, c: Call<V>)
    requires Inv(s) && i < |s.threads|
    ensures s.Shape()
    ensures s.threads[i].PushPublish? ==> Pushed(Step(s, i, c), i, Some(s.threads[i].t), s.threads[i].v)
    ensures s.threads[i].PopPublish? ==> Popped(Step(s, i, c), i, Some(s.threads[i].t))
  {
    hide Idx, Turn, Threads, Held, Cells, Issued;
    ThreadAt(s, i);
  }

  // ---------------------------------------------------------------- every access brings a call nearer to its end

  /** The thread waits for its turn, and its turn has not come. */
  predicate Waits<V>(s: State<V>, i: nat)
    requires s.Shape() && i < |s.threads|
  {
    var pc := s.threads[i];
    || (pc.PushWait? && s.TurnAt(pc.t) != Turn(s.cap, pc.t) * 2)
    || (pc.PopWait? && s.TurnAt(pc.t) != Turn(s.cap, pc.t) * 2 + 1)
  }

  /** How many accesses a call has at most before it, unless it waits or another thread moves the counter it tries. */
  function Left<V>(pc: Pc<V>, head: nat, tail: nat): nat {
    match pc
    case Idle => 0
    case PushTake(_) => 4
    case PushWait(_, _) => 3
    case PushBuild(_, _) => 2
    case PushPublish(_, _) => 1
    case TryPushLoad(_) => 5
    case TryPushTurn(h, _) => if h == head then 4 else 7
    case TryPushCas(h, _) => if h == head then 3 else 6
    case TryPushReload(h, _, _, _) => if h == head then 3 else 6
    case PopTake => 5
    case PopWait(_) => 4
    case PopMove(_) => 3
    case PopDestroy(_, _) => 2
    case PopPublish(_, _) => 1
    case TryPopLoad => 6
    case TryPopTurn(h) => if h == tail then 5 else 8
    case TryPopCas(h) => if h == tail then 4 else 7
    case TryPopReload(h, _, _) => if h == tail then 4 else 7
  }

  /**
   * No access is in vain: unless the thread waits for its turn, each brings its call nearer to its end. A try form is
   * sent back only by another thread that moved the counter.
   */
  lemma AccessGoesOn<V>(s: State<V>, i: nat, c: Call<V>)
    requires Inv(s) && i < |s.threads| && !s.threads[i].Idle? && !Waits(s, i)
    ensures var z := Step(s, i, c);
      Left(z.threads[i], z.head, z.tail) < Left(s.threads[i], s.head, s.tail)
  {
    hide Idx, Turn, Threads, Held, Issued, Matched;
    ThreadAt(s, i);
  }

  /** The holder of a ticket said to be able to step does not wait. */
  lemma CanStepGoesOn<V>(s: State<V>, i: nat)
    requires s.Shape() && i < |s.threads| && CanStep(s, i)
    ensures !Waits(s, i) && !s.threads[i].Idle?
  {
  }
}
