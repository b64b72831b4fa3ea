/** What each dequeue claims, by what its own accesses found, over every run of the counters. */
module DequeueCalls {
  import opened DequeueCounters

  /**
   * A dequeue of up to `max`: how many accesses it has made, what its first three and its fifth loaded, the count its
   * fourth was added to, and what it has added to the optimistic count, to the overcommit and to the head so far.
   */
  datatype Trace =
    | NoCall
    | InCall(max: nat, n: nat, tail: nat, over: nat, count: nat, my: nat, recheck: nat, added: int, given: int,
      got: int)

  predicate Resting(pc: Pc) {
    pc.Idle? || pc.Claimed?
  }

  /** The trace of dequeuer `t` with its access to `s`; beginning is not an access. */
  function During(s: State, tr: Trace, t: nat, max: nat): Trace
    requires t < |s.threads|
  {
    var z := Step(s, t, max);
    if s.threads[t].Idle? then InCall(max, 0, 0, 0, 0, 0, 0, 0, 0, 0)
    else if s.threads[t].Claimed? || tr.NoCall? then tr
    else
      InCall(tr.max, tr.n + 1,
             if tr.n == 0 then s.tail else tr.tail, if tr.n == 1 then s.over else tr.over,
             if tr.n == 2 then s.opt else tr.count, if tr.n == 3 then s.opt else tr.my,
             if tr.n == 4 then s.tail else tr.recheck,
             tr.added + (z.opt - s.opt), tr.given + (z.over - s.over), tr.got + (z.head - s.head))
  }

  /** A dequeue ends when its thread is idle again, or has claimed. */
  function TraceAfter(s: State, tr: Trace, t: nat, ev: Event): Trace {
    if ev.Dequeue? && ev.t == t < |s.threads| then
      if Resting(Step(s, t, ev.max).threads[t]) then NoCall else During(s, tr, t, ev.max)
    else tr
  }

  function TraceIn(s: State, tr: Trace, t: nat, evs: seq<Event>): Trace
    decreases |evs|
  {
    if evs == [] then tr else TraceIn(Next(s, evs[0]), TraceAfter(s, tr, t, evs[0]), t, evs[1..])
  }

  /** What the counters it loaded leave for it: the elements published, less those claimed or being claimed. */
  function Room(tail: nat, count: nat, over: nat): int {
    tail - (count - over)
  }

  /** How much of what it added to the optimistic count its recheck leaves it. */
  function Kept(tr: Trace): int
    requires tr.InCall?
  {
    var room := Room(tr.recheck, tr.my, tr.over);
    if room <= 0 then 0 else if room < tr.added then room else tr.added
  }

  /** What it set out to add. */
  function Wanted(tr: Trace): int
    requires tr.InCall?
  {
    var room := Room(tr.tail, tr.count, tr.over);
    if room < tr.max then room else tr.max
  }

  predicate Traced(pc: Pc, tr: Trace) {
    if Resting(pc) then tr.NoCall?
    else
      && tr.InCall? && tr.got == 0
      && match pc
         case LoadTail(m) => tr.n == 0 && tr.max == m && tr.added == tr.given == 0
         case LoadOver(m, t) => tr.n == 1 && tr.max == m && tr.tail == t && tr.added == tr.given == 0
         case LoadCount(m, t, o) =>
           tr.n == 2 && tr.max == m && tr.tail == t && tr.over == o && tr.added == tr.given == 0
         case Bump(d, o) =>
           && tr.n == 3 && tr.over == o && tr.added == tr.given == 0
           && Room(tr.tail, tr.count, tr.over) > 0 && d == Wanted(tr)
         case Recheck(d, o, my) =>
           && tr.n == 4 && tr.over == o && tr.my == my && tr.added == d && tr.given == 0
           && Room(tr.tail, tr.count, tr.over) > 0 && d == Wanted(tr)
         case GiveSome(x, a) =>
           && tr.n == 5 && Room(tr.recheck, tr.my, tr.over) > 0 && a == Kept(tr) && x == tr.added - a && tr.given == 0
           && Room(tr.tail, tr.count, tr.over) > 0 && tr.added == Wanted(tr)
         case Advance(a) =>
           && tr.n >= 5 && Room(tr.recheck, tr.my, tr.over) > 0 && a == Kept(tr) && tr.given == tr.added - a
           && Room(tr.tail, tr.count, tr.over) > 0 && tr.added == Wanted(tr)
         case GiveAll(d) =>
           && tr.n == 5 && Room(tr.recheck, tr.my, tr.over) <= 0 && d == tr.added && tr.given == 0
           && Room(tr.tail, tr.count, tr.over) > 0 && tr.added == Wanted(tr)
         case _ => false
  }

  lemma StepTraced(s: State, tr: Trace, t: nat, max: nat)
    requires Inv(s) && t < |s.threads| && Traced(s.threads[t], tr)
    ensures Resting(Step(s, t, max).threads[t]) || Traced(Step(s, t, max).threads[t], During(s, tr, t, max))
  {
    hide Count, Sum, Apart, WinsFit, Balanced, Decide, Repeat;
    assert ThreadOk(s, t, s.threads[t]);
  }

  lemma NextTraced(s: State, tr: Trace, t: nat, ev: Event)
    requires Inv(s) && t < |s.threads| && Traced(s.threads[t], tr)
    ensures t < |Next(s, ev).threads| && Traced(Next(s, ev).threads[t], TraceAfter(s, tr, t, ev))
  {
    hide Inv, During, Decide, Repeat;
    match ev
    case Dequeue(j, max) =>
      if j == t {
        StepTraced(s, tr, t, max);
        hide Step;
      }
    case Finish(j) =>
    case Enqueue(n) =>
  }

  lemma {:induction false} RunTraced(s: State, tr: Trace, t: nat, evs: seq<Event>)
    requires Inv(s) && t < |s.threads| && Traced(s.threads[t], tr)
    ensures t < |Run(s, evs).threads| && Traced(Run(s, evs).threads[t], TraceIn(s, tr, t, evs))
    decreases |evs|
  {
    hide Inv, Next, Traced, TraceAfter;
    if evs != [] {
      NextKeepsInv(s, evs[0]);
      NextTraced(s, tr, t, evs[0]);
      RunTraced(Next(s, evs[0]), TraceAfter(s, tr, t, evs[0]), t, evs[1..]);
    }
  }

  /**
   * What a dequeue comes to, under any interleaving, by the values its accesses loaded. If the first three show nothing
   * left it changes nothing. Else it has added what they show, up to `max`, to the optimistic count; it claims as much
   * of that as its recheck leaves, and has added the rest to the overcommit; it comes away without a claim just if the
   * recheck leaves nothing.
   */
  lemma DequeueEnds(n: nat, evs: seq<Event>, t: nat, max: nat)
    requires t < n
    ensures t < |Reached(n, evs).threads|
    ensures var s := Reached(n, evs);
      var z, d := Step(s, t, max), During(s, TraceIn(Init(n), NoCall, t, evs), t, max);
      !Resting(s.threads[t]) && Resting(z.threads[t]) ==>
        && d.InCall?
        && (if Room(d.tail, d.count, d.over) <= 0 then
              z.threads[t].Idle? && d.added == 0 && d.given == 0 && d.got == 0
            else
              && d.added == Wanted(d) && d.got == Kept(d) && d.given == d.added - d.got
              && (if Room(d.recheck, d.my, d.over) <= 0 then z.threads[t].Idle?
                  else z.threads[t] == Claimed(s.head, d.got)))
  {
    hide Inv, Run, TraceIn;
    InitInv(n);
    RunKeepsInv(Init(n), evs);
    RunTraced(Init(n), NoCall, t, evs);
    EndsHow(Reached(n, evs), TraceIn(Init(n), NoCall, t, evs), t, max);
  }

  lemma EndsHow(s: State, tr: Trace, t: nat, max: nat)
    requires Inv(s) && t < |s.threads| && Traced(s.threads[t], tr)
    ensures var z, d := Step(s, t, max), During(s, tr, t, max);
      !Resting(s.threads[t]) && Resting(z.threads[t]) ==>
        && d.InCall?
        && (if Room(d.tail, d.count, d.over) <= 0 then
              z.threads[t].Idle? && d.added == 0 && d.given == 0 && d.got == 0
            else
              && d.added == Wanted(d) && d.got == Kept(d) && d.given == d.added - d.got
              && (if Room(d.recheck, d.my, d.over) <= 0 then z.threads[t].Idle?
                  else z.threads[t] == Claimed(s.head, d.got)))
  {
    hide Count, Sum, Apart, WinsFit, Balanced, Decide, Repeat;
    assert ThreadOk(s, t, s.threads[t]);
  }
}
