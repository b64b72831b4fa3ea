/** The single-producer single-consumer ring of `SPSCQueue`: each side keeps a stale copy of the other side's index. */
module SpscQueue {
  import opened Common
  import opened Blocks

  // ---------------------------------------------------------------- the constructor's arithmetic

  const SIZE_MAX: nat := 0xFFFF_FFFF_FFFF_FFFF

  /** `capacity_` as the constructor leaves it: a 64-bit word, one slack slot, clamped to leave room for the padding. */
  function Capacity(requested: nat, padding: nat): nat
    requires requested <= SIZE_MAX && 2 * padding < SIZE_MAX
  {
    var c := (if requested < 1 then 1 else requested) + 1;
    var w := c % (SIZE_MAX + 1);
    if w > SIZE_MAX - 2 * padding then SIZE_MAX - 2 * padding else w
  }

  /**
   * The ring has the two slots it needs, and holds what was asked for as far as memory could, exactly when the request
   * is not `SIZE_MAX`: that one wraps to no slots at all, past the clamp meant to prevent it.
   */
  lemma CapacityIsUsable(requested: nat, padding: nat)
    requires requested <= SIZE_MAX && 2 * padding + 2 <= SIZE_MAX
    ensures Capacity(requested, padding) >= 2 <==> requested != SIZE_MAX
    ensures requested == SIZE_MAX ==> Capacity(requested, padding) == 0
    ensures Capacity(requested, padding) + 2 * padding <= SIZE_MAX
    ensures 1 <= requested < SIZE_MAX - 2 * padding ==> Capacity(requested, padding) - 1 == requested
  {
  }

  // ---------------------------------------------------------------- the machine

  datatype Writer<V> =
    | WIdle
    | WRefresh(v: V, next: nat, trying: bool)
    | WBuild(v: V, next: nat)
    | WStore(v: V, next: nat)
    | WSize(w: nat)

  datatype Reader<V> =
    | RIdle
    | RRefresh
    | RFront                    // `front` returned a pointer; `pop` is allowed
    | RStore(next: nat, v: V)   // `pop` has destroyed the element, which was `v`
    | RSize(w: nat, held: bool)

  datatype WriterCall<V> = Emplace(v: V, trying: bool) | WriterSize

  datatype ReaderCall = Front | Pop | ReaderSize

  /**
   * The ring, both caches and the two sides. From `pushed` on, records for the proofs: the values published, the values
   * popped, how many pops and pushes each cache knows of, and the number of elements when `RSize` was entered.
   */
  datatype State<V> = State(
    cap: nat, writeIdx: nat, readIdxCache: nat, readIdx: nat, writeIdxCache: nat, slots: seq<Option<V>>,
    w: Writer<V>, r: Reader<V>, pushed: seq<V>, got: seq<V>, readsKnown: nat, writesKnown: nat,
    sized: int)
  {
    predicate Shape() {
      cap > 0 && |slots| == cap && writeIdx < cap && readIdx < cap
    }

    /** What a plain queue would hold. */
    function Content(): seq<V>
      requires |got| <= |pushed|
    {
      pushed[|got|..]
    }
  }

  function Init<V>(cap: nat): State<V> {
    State(cap, 0, 0, 0, 0, seq(cap, _ => None), WIdle, RIdle, [], [], 0, 0, 0)
  }

  function Following(cap: nat, i: nat): nat {
    if i + 1 == cap then 0 else i + 1
  }

  /** `size`, from the two indices it loads. */
  function SizeOf(cap: nat, w: nat, r: nat): int {
    if w - r < 0 then w - r + cap else w - r
  }

  /** The writer's next atomic access; idle, it begins `c`. */
  function WriterStep<V>(s: State<V>, c: WriterCall<V>): (z: State<V>)
    requires s.Shape()
    ensures z.Shape()
  {
    match s.w
    case WIdle =>
      (match c
       case Emplace(v, trying) =>
         var next := Following(s.cap, s.writeIdx);
         s.(w := if next == s.readIdxCache then WRefresh(v, next, trying) else WBuild(v, next))
       case WriterSize => s.(w := WSize(s.writeIdx)))
    case WRefresh(v, next, trying) =>
      s.(readIdxCache := s.readIdx, readsKnown := |s.got|,
         w := if next != s.readIdx then WBuild(v, next) else if trying then WIdle else s.w)
    case WBuild(v, next) => s.(slots := s.slots[s.writeIdx := Some(v)], w := WStore(v, next))
    case WStore(v, next) =>
      if next >= s.cap then s else s.(writeIdx := next, pushed := s.pushed + [v], w := WIdle)
    case WSize(_) => s.(w := WIdle)
  }

  /** The reader's next atomic access; it may pop only after a `front` that was not null. */
  function ReaderStep<V>(s: State<V>, c: ReaderCall): (z: State<V>)
    requires s.Shape()
    ensures z.Shape()
  {
    match s.r
    case RIdle =>
      (match c
       case Front => s.(r := if s.readIdx == s.writeIdxCache then RRefresh else RFront)
       case Pop => s
       case ReaderSize => s.(sized := |s.pushed| - |s.got|, r := RSize(s.writeIdx, false)))
    case RRefresh =>
      s.(writeIdxCache := s.writeIdx, writesKnown := |s.pushed|, r := if s.writeIdx == s.readIdx then RIdle else RFront)
    case RFront =>
      (match c
       case Front => s
       case Pop =>
         (match s.slots[s.readIdx]
          case Some(v) => s.(slots := s.slots[s.readIdx := None], r := RStore(Following(s.cap, s.readIdx), v))
          case None => s)
       case ReaderSize => s.(sized := |s.pushed| - |s.got|, r := RSize(s.writeIdx, true)))
    case RStore(next, v) =>
      if next >= s.cap then s else s.(readIdx := next, got := s.got + [v], r := RIdle)
    case RSize(_, held) => s.(r := if held then RFront else RIdle)
  }

  // ---------------------------------------------------------------- invariant

  /** What the slot of logical index `t`, in the lap from the reader on, holds. */
  function Expected<V>(w: Writer<V>, r: Reader<V>, pushed: seq<V>, read: nat, t: nat): Option<V> {
    if t < |pushed| then (if t == read && r.RStore? then None else Some(pushed[t]))
    else if t == |pushed| && w.WStore? then Some(w.v)
    else None
  }

  ghost predicate Slots<V>(cap: nat, slots: seq<Option<V>>, w: Writer<V>, r: Reader<V>, pushed: seq<V>, read: nat) {
    && cap > 0 && |slots| == cap
    && forall t :: read <= t < read + cap ==> slots[Wrap(cap, t)] == Expected(w, r, pushed, read, t)
  }

  ghost predicate WriterOk<V>(s: State<V>)
    requires s.cap > 0
  {
    match s.w
    case WIdle => true
    case WRefresh(_, next, _) => next == Wrap(s.cap, |s.pushed| + 1)
    case WBuild(_, next) => next == Wrap(s.cap, |s.pushed| + 1) && |s.pushed| + 1 < s.readsKnown + s.cap
    case WStore(_, next) => next == Wrap(s.cap, |s.pushed| + 1) && |s.pushed| + 1 < s.readsKnown + s.cap
    case WSize(w) => w == s.writeIdx
  }

  ghost predicate ReaderOk<V>(s: State<V>)
    requires s.cap > 0
  {
    match s.r
    case RIdle => true
    case RRefresh => true
    case RFront => |s.got| < s.writesKnown
    case RStore(next, v) => |s.got| < s.writesKnown && next == Wrap(s.cap, |s.got| + 1) && |s.got| < |s.pushed|
      && v == s.pushed[|s.got|]
    case RSize(w, held) =>
      0 <= s.sized < s.cap && w == Wrap(s.cap, |s.got| + s.sized) && (held ==> |s.got| < s.writesKnown)
  }

  /** The concrete indices are the logical counts, taken around the ring. */
  ghost predicate Around<V>(s: State<V>) {
    && s.cap > 1
    && s.writeIdx == Wrap(s.cap, |s.pushed|) && s.readIdx == Wrap(s.cap, |s.got|)
    && s.readIdxCache == Wrap(s.cap, s.readsKnown) && s.writeIdxCache == Wrap(s.cap, s.writesKnown)
  }

  ghost predicate Lags<V>(s: State<V>) {
    && s.readsKnown <= |s.got| <= s.writesKnown <= |s.pushed| < s.readsKnown + s.cap
  }

  ghost predicate Inv<V>(s: State<V>) {
    && Around(s) && Lags(s) && WriterOk(s) && ReaderOk(s) && s.got <= s.pushed
    && Slots(s.cap, s.slots, s.w, s.r, s.pushed, |s.got|)
  }

  lemma FollowingWrap(cap: nat, t: nat)
    requires cap > 1
    ensures Following(cap, Wrap(cap, t)) == Wrap(cap, t + 1)
  {
    WrapAdd(cap, t, 1);
    if Wrap(cap, t) + 1 == cap {
      WrapIs(cap, cap, 1, 0);
    } else {
      WrapIs(cap, Wrap(cap, t) + 1, 0, Wrap(cap, t) + 1);
    }
  }

  /** Indices less than a lap apart are equal around the ring only if they are equal. */
  lemma SameAround(cap: nat, a: nat, b: nat)
    requires cap > 0 && a <= b <= a + cap
    ensures Wrap(cap, a) == Wrap(cap, b) <==> a == b || b == a + cap
  {
    WrapApart(cap, a, b);
    WrapLap(cap, a);
  }

  /** Writing the slot of logical index `u` changes no other slot of the lap. */
  lemma SlotsWrite<V>(cap: nat, slots: seq<Option<V>>, w: Writer<V>, r: Reader<V>, pushed: seq<V>, read: nat,
      zw: Writer<V>, zr: Reader<V>, u: nat, c: Option<V>)
    requires Slots(cap, slots, w, r, pushed, read) && read <= u < read + cap
    requires c == Expected(zw, zr, pushed, read, u)
    requires forall t :: read <= t < read + cap && t != u ==>
      Expected(zw, zr, pushed, read, t) == Expected(w, r, pushed, read, t)
    ensures Slots(cap, slots[Wrap(cap, u) := c], zw, zr, pushed, read)
  {
    forall t: nat | read <= t < read + cap && t != u
      ensures Wrap(cap, t) != Wrap(cap, u)
    {
      WrapApart(cap, t, u);
      WrapApart(cap, u, t);
    }
    hide Wrap, Expected;
  }

  lemma WriterKeepsInv<V>(s: State<V>, c: WriterCall<V>)
    requires Inv(s) && s.Shape()
    ensures Inv(WriterStep(s, c))
  {
    match s.w
    case WIdle => WriterTurns(s, c);
    case WRefresh(v, next, trying) => WriterTurns(s, c);
    case WBuild(v, next) =>
      hide Wrap;
      SlotsWrite(s.cap, s.slots, s.w, s.r, s.pushed, |s.got|, WStore(v, next), s.r, |s.pushed|, Some(v));
    case WStore(v, next) =>
      hide Wrap;
      StorePushes(s, v);
      hide Slots;
    case WSize(_) => WriterTurns(s, c);
  }

  /** The writer's steps that touch no slot. */
  lemma WriterTurns<V>(s: State<V>, c: WriterCall<V>)
    requires Inv(s) && s.Shape() && !s.w.WBuild? && !s.w.WStore?
    ensures Inv(WriterStep(s, c))
  {
    hide Wrap, Slots;
    FollowingWrap(s.cap, |s.pushed|);
    SameAround(s.cap, s.readsKnown, |s.pushed| + 1);
    SameAround(s.cap, |s.got|, |s.pushed| + 1);
    SlotsKept(s, WriterStep(s, c).w);
  }

  lemma SlotsKept<V>(s: State<V>, w: Writer<V>)
    requires Slots(s.cap, s.slots, s.w, s.r, s.pushed, |s.got|) && !s.w.WStore? && !w.WStore?
    ensures Slots(s.cap, s.slots, w, s.r, s.pushed, |s.got|)
  {
    hide Wrap;
    assert forall t :: Expected(w, s.r, s.pushed, |s.got|, t) == Expected(s.w, s.r, s.pushed, |s.got|, t);
    hide Expected;
  }

  lemma StorePushes<V>(s: State<V>, v: V)
    requires Inv(s) && s.w.WStore? && s.w.v == v && s.Shape()
    ensures Slots(s.cap, s.slots, WIdle, s.r, s.pushed + [v], |s.got|)
  {
    hide Wrap;
    forall t | |s.got| <= t < |s.got| + s.cap
      ensures Expected(WIdle, s.r, s.pushed + [v], |s.got|, t) == Expected(s.w, s.r, s.pushed, |s.got|, t)
    {
    }
  }

  lemma ReaderKeepsInv<V>(s: State<V>, c: ReaderCall)
    requires Inv(s) && s.Shape()
    ensures Inv(ReaderStep(s, c))
  {
    match s.r
    case RFront => if c.Pop? { PopTakes(s); } else { ReaderTurns(s, c); }
    case RStore(next, v) =>
      hide Wrap;
      FollowingWrap(s.cap, |s.got|);
      StorePops(s, v);
      hide Slots;
    case _ => ReaderTurns(s, c);
  }

  /** The reader's steps that touch no slot. */
  lemma ReaderTurns<V>(s: State<V>, c: ReaderCall)
    requires Inv(s) && s.Shape() && !s.r.RStore? && (s.r.RFront? ==> !c.Pop?)
    ensures Inv(ReaderStep(s, c))
  {
    hide Wrap, Slots;
    SameAround(s.cap, |s.got|, s.writesKnown);
    SameAround(s.cap, |s.got|, |s.pushed|);
    ReaderSlotsKept(s, ReaderStep(s, c).r);
  }

  lemma ReaderSlotsKept<V>(s: State<V>, r: Reader<V>)
    requires Slots(s.cap, s.slots, s.w, s.r, s.pushed, |s.got|) && !s.r.RStore? && !r.RStore?
    ensures Slots(s.cap, s.slots, s.w, r, s.pushed, |s.got|)
  {
    hide Wrap;
    assert forall t :: Expected(s.w, r, s.pushed, |s.got|, t) == Expected(s.w, s.r, s.pushed, |s.got|, t);
    hide Expected;
  }

  lemma PopTakes<V>(s: State<V>)
    requires Inv(s) && s.Shape() && s.r.RFront?
    ensures Inv(ReaderStep(s, Pop))
  {
    hide Wrap;
    var n := |s.got|;
    FollowingWrap(s.cap, n);
    assert s.slots[Wrap(s.cap, n)] == Expected(s.w, s.r, s.pushed, n, n);
    SlotsWrite(s.cap, s.slots, s.w, s.r, s.pushed, n, s.w, RStore(Following(s.cap, s.readIdx), s.pushed[n]), n, None);
    hide Slots;
  }

  /** The lap now starts one later: its last slot is the one just emptied. */
  lemma StorePops<V>(s: State<V>, v: V)
    requires Inv(s) && s.r.RStore? && s.r.v == v && s.Shape()
    ensures Slots(s.cap, s.slots, s.w, RIdle, s.pushed, |s.got| + 1)
  {
    hide Wrap;
    var n := |s.got|;
    WrapLap(s.cap, n);
    forall t | n + 1 <= t < n + 1 + s.cap
      ensures s.slots[Wrap(s.cap, t)] == Expected(s.w, RIdle, s.pushed, n + 1, t)
    {
      if t == n + s.cap {
        assert s.slots[Wrap(s.cap, n)] == Expected(s.w, s.r, s.pushed, n, n);
      } else {
        assert s.slots[Wrap(s.cap, t)] == Expected(s.w, s.r, s.pushed, n, t);
      }
    }
  }

  // ---------------------------------------------------------------- runs

  datatype Move<V> = ByWriter(wc: WriterCall<V>) | ByReader(rc: ReaderCall)

  function Step<V>(s: State<V>, m: Move<V>): (z: State<V>)
    requires s.Shape()
    ensures z.Shape()
  {
    match m
    case ByWriter(c) => WriterStep(s, c)
    case ByReader(c) => ReaderStep(s, c)
  }

  function Run<V>(s: State<V>, moves: seq<Move<V>>): (z: State<V>)
    requires s.Shape()
    ensures z.Shape()
    decreases |moves|
  {
    if moves == [] then s else Run(Step(s, moves[0]), moves[1..])
  }

  lemma StepKeepsInv<V>(s: State<V>, m: Move<V>)
    requires s.Shape() && Inv(s)
    ensures Inv(Step(s, m))
  {
    hide Inv, WriterStep, ReaderStep;
    match m
    case ByWriter(c) => WriterKeepsInv(s, c);
    case ByReader(c) => ReaderKeepsInv(s, c);
  }

  lemma {:induction false} RunKeepsInv<V>(s: State<V>, moves: seq<Move<V>>)
    requires s.Shape() && Inv(s)
    ensures Inv(Run(s, moves))
    decreases |moves|
  {
    hide Inv, Step;
    if moves != [] {
      StepKeepsInv(s, moves[0]);
      RunKeepsInv(Step(s, moves[0]), moves[1..]);
    }
  }

  function Reached<V>(cap: nat, moves: seq<Move<V>>): (s: State<V>)
    requires cap > 1
    ensures s.Shape()
  {
    Run(Init(cap), moves)
  }

  lemma ReachedInv<V>(cap: nat, moves: seq<Move<V>>)
    requires cap > 1
    ensures Inv(Reached(cap, moves))
  {
    hide Wrap;
    WrapIs(cap, 0, 0, 0);
    RunKeepsInv(Init(cap), moves);
  }

  // ---------------------------------------------------------------- what every run satisfies

  /**
   * The caches only lag: a stale read index below the true one, a stale write index below the true one, all within one
   * lap.
   */
  lemma CachesLag<V>(cap: nat, moves: seq<Move<V>>)
    requires cap > 1
    ensures var s := Reached(cap, moves);
      && s.readsKnown <= |s.got| <= s.writesKnown <= |s.pushed| <= s.readsKnown + cap - 1
      && s.readIdxCache == s.readsKnown % cap && s.readIdx == |s.got| % cap
      && s.writeIdxCache == s.writesKnown % cap && s.writeIdx == |s.pushed| % cap
  {
    ReachedInv(cap, moves);
    CapFixed(Init<V>(cap), moves);
  }

  lemma {:induction false} CapFixed<V>(s: State<V>, moves: seq<Move<V>>)
    requires s.Shape()
    ensures Run(s, moves).cap == s.cap
    decreases |moves|
  {
    if moves != [] {
      CapFixed(Step(s, moves[0]), moves[1..]);
    }
  }

  /**
   * What was popped, read from the slots, is what was pushed, in order, and the ring never holds more than its
   * capacity.
   */
  lemma Fifo<V>(cap: nat, moves: seq<Move<V>>)
    requires cap > 1
    ensures var s := Reached(cap, moves);
      && s.got <= s.pushed && |s.Content()| <= cap - 1
      && (s.r.RFront? ==> s.Content() != [] && s.slots[s.readIdx] == Some(s.Content()[0]))
      && (s.w.WBuild? ==> s.slots[s.writeIdx] == None)
  {
    hide Wrap;
    ReachedInv(cap, moves);
    CapFixed(Init<V>(cap), moves);
    var s := Reached(cap, moves);
    assert s.slots[Wrap(s.cap, |s.got|)] == Expected(s.w, s.r, s.pushed, |s.got|, |s.got|);
    if s.w.WBuild? {
      assert s.slots[Wrap(s.cap, |s.pushed|)] == Expected(s.w, s.r, s.pushed, |s.got|, |s.pushed|);
    }
  }

  /**
   * Each step is a step of a bounded queue: push at the back with room left, pop at the front of a non-empty one, or
   * nothing.
   */
  lemma StepRefines<V>(cap: nat, moves: seq<Move<V>>, m: Move<V>)
    requires cap > 1
    ensures var s := Reached(cap, moves);
      var z := Step(s, m);
      |s.got| <= |s.pushed| && |z.got| <= |z.pushed| &&
      if m.ByWriter? && s.w.WStore? then |s.Content()| < cap - 1 && z.Content() == s.Content() + [s.w.v]
      else if m.ByReader? && s.r.RStore? then s.Content() != [] && z.Content() == s.Content()[1..]
        && s.r.v == s.Content()[0]
      else z.Content() == s.Content()
  {
    hide Inv, WriterStep, ReaderStep;
    ReachedInv(cap, moves);
    CapFixed(Init<V>(cap), moves);
    match m
    case ByWriter(c) => WriterRefines(Reached(cap, moves), c);
    case ByReader(c) => ReaderRefines(Reached(cap, moves), c);
  }

  lemma WriterRefines<V>(s: State<V>, c: WriterCall<V>)
    requires s.Shape() && Inv(s)
    ensures var z := WriterStep(s, c);
      |s.got| <= |s.pushed| && |z.got| <= |z.pushed| &&
      if s.w.WStore? then |s.Content()| < s.cap - 1 && z.Content() == s.Content() + [s.w.v]
        else z.Content() == s.Content()
  {
    hide Wrap, Slots, Following;
    StoreInRange(s);
  }

  lemma ReaderRefines<V>(s: State<V>, c: ReaderCall)
    requires s.Shape() && Inv(s)
    ensures var z := ReaderStep(s, c);
      |s.got| <= |s.pushed| && |z.got| <= |z.pushed| &&
      if s.r.RStore? then s.Content() != [] && z.Content() == s.Content()[1..] && s.r.v == s.Content()[0]
      else z.Content() == s.Content()
  {
    hide Wrap, Slots, Following;
    StoreInRange(s);
  }

  lemma StoreInRange<V>(s: State<V>)
    requires Inv(s)
    ensures s.w.WStore? ==> s.w.next < s.cap
    ensures s.r.RStore? ==> s.r.next < s.cap
  {
  }

  /**
   * A `try_emplace` about to load the read index returns false just when the ring is then full; `emplace` then waits.
   */
  lemma FalseTryMeansFull<V>(cap: nat, moves: seq<Move<V>>, c: WriterCall<V>)
    requires cap > 1 && Reached<V>(cap, moves).w.WRefresh?
    ensures var s := Reached(cap, moves);
      && |s.got| <= |s.pushed|
      && (WriterStep(s, c).w.WBuild? <==> |s.Content()| < cap - 1)
      && (WriterStep(s, c).w.WIdle? <==> s.w.trying && |s.Content()| == cap - 1)
  {
    hide Wrap;
    ReachedInv(cap, moves);
    CapFixed(Init<V>(cap), moves);
    var s := Reached(cap, moves);
    SameAround(s.cap, |s.got|, |s.pushed| + 1);
    hide Slots;
  }

  /** A `front` about to load the write index returns null just when the ring is then empty. */
  lemma NullFrontMeansEmpty<V>(cap: nat, moves: seq<Move<V>>, c: ReaderCall)
    requires cap > 1 && Reached<V>(cap, moves).r.RRefresh?
    ensures var s := Reached(cap, moves);
      |s.got| <= |s.pushed| && (ReaderStep(s, c).r.RIdle? <==> s.Content() == [])
  {
    hide Wrap;
    ReachedInv(cap, moves);
    CapFixed(Init<V>(cap), moves);
    var s := Reached(cap, moves);
    SameAround(s.cap, |s.got|, |s.pushed|);
    hide Slots;
  }

  // ---------------------------------------------------------------- what a call comes to

  /** The call the writer's next access is part of: the one it begins, or the one it is in. */
  function WriterCallAt<V>(s: State<V>, call: Option<WriterCall<V>>, c: WriterCall<V>): Option<WriterCall<V>> {
    if s.w.WIdle? then Some(c) else call
  }

  /** The call the writer is in after a move, if `call` is the one before. */
  function WriterCallAfter<V>(s: State<V>, call: Option<WriterCall<V>>, m: Move<V>): Option<WriterCall<V>>
    requires s.Shape()
  {
    if m.ByReader? then call
    else if Step(s, m).w.WIdle? then None
    else WriterCallAt(s, call, m.wc)
  }

  /** The call the writer is in after a run, from the moves alone. */
  function WriterCallIn<V>(s: State<V>, call: Option<WriterCall<V>>, moves: seq<Move<V>>): Option<WriterCall<V>>
    requires s.Shape()
    decreases |moves|
  {
    if moves == [] then call else WriterCallIn(Step(s, moves[0]), WriterCallAfter(s, call, moves[0]), moves[1..])
  }

  /** The writer's place holds what its call was given. */
  ghost predicate WriterHolds<V>(w: Writer<V>, call: Option<WriterCall<V>>) {
    match w
    case WIdle => call.None?
    case WRefresh(v, _, trying) => call == Some(Emplace(v, trying))
    case WBuild(v, _) => call.Some? && call.value.Emplace? && call.value.v == v
    case WStore(v, _) => call.Some? && call.value.Emplace? && call.value.v == v
    case WSize(_) => call == Some(WriterSize)
  }

  lemma {:induction false} WriterHoldsOn<V>(s: State<V>, call: Option<WriterCall<V>>, moves: seq<Move<V>>)
    requires s.Shape() && WriterHolds(s.w, call)
    ensures WriterHolds(Run(s, moves).w, WriterCallIn(s, call, moves))
    decreases |moves|
  {
    if moves != [] {
      WriterHoldsOn(Step(s, moves[0]), WriterCallAfter(s, call, moves[0]), moves[1..]);
    }
  }

  /** What the calls of a run push: at each move of the write index the value its call was given. */
  function Pushes<V>(s: State<V>, call: Option<WriterCall<V>>, moves: seq<Move<V>>): seq<V>
    requires s.Shape()
    decreases |moves|
  {
    if moves == [] then []
    else
      var z := Step(s, moves[0]);
      var c := if moves[0].ByWriter? then WriterCallAt(s, call, moves[0].wc) else None;
      (if z.writeIdx != s.writeIdx && c.Some? && c.value.Emplace? then [c.value.v] else [])
        + Pushes(z, WriterCallAfter(s, call, moves[0]), moves[1..])
  }

  lemma {:induction false} RunPushes<V>(s: State<V>, call: Option<WriterCall<V>>, moves: seq<Move<V>>)
    requires s.Shape() && Inv(s) && WriterHolds(s.w, call)
    ensures Run(s, moves).pushed == s.pushed + Pushes(s, call, moves)
    decreases |moves|
  {
    hide Inv, Step, WriterStep, ReaderStep, WriterHolds, WriterCallAfter, WriterCallAt;
    if moves == [] {
      assert s.pushed + [] == s.pushed;
    } else {
      var z := Step(s, moves[0]);
      StepKeepsInv(s, moves[0]);
      StepPushes(s, call, moves[0]);
      RunPushes(z, WriterCallAfter(s, call, moves[0]), moves[1..]);
      var p := Pushes(z, WriterCallAfter(s, call, moves[0]), moves[1..]);
      assert s.pushed + [] + p == s.pushed + ([] + p);
      forall v
        ensures s.pushed + [v] + p == s.pushed + ([v] + p)
      {
      }
    }
  }

  lemma StepPushes<V>(s: State<V>, call: Option<WriterCall<V>>, m: Move<V>)
    requires s.Shape() && Inv(s) && WriterHolds(s.w, call)
    ensures var z := Step(s, m);
      && WriterHolds(z.w, WriterCallAfter(s, call, m))
      && (if z.writeIdx == s.writeIdx then z.pushed == s.pushed
          else
            var c := if m.ByWriter? then WriterCallAt(s, call, m.wc) else None;
            c.Some? && c.value.Emplace? && z.pushed == s.pushed + [c.value.v])
  {
    hide Wrap, Slots;
    StoreInRange(s);
    NextDiffers(s);
  }

  lemma NextDiffers<V>(s: State<V>)
    requires Inv(s)
    ensures s.w.WStore? ==> s.w.next != s.writeIdx
    ensures s.r.RStore? ==> s.r.next != s.readIdx
  {
    hide Slots;
    WrapApart(s.cap, |s.pushed|, |s.pushed| + 1);
    WrapApart(s.cap, |s.got|, |s.got| + 1);
  }

  /** Over every run, what was pushed is what the calls that moved the write index were given, in call order. */
  lemma PushedIsEmplaced<V>(cap: nat, moves: seq<Move<V>>)
    requires cap > 1
    ensures Reached(cap, moves).pushed == Pushes(Init(cap), None, moves)
  {
    ReachedInv<V>(cap, []);
    RunPushes(Init(cap), None, moves);
    assert [] + Pushes(Init<V>(cap), None, moves) == Pushes(Init<V>(cap), None, moves);
  }

  /**
   * Whatever place it is at: an `emplace` or `try_emplace` returns, and a call of either pushes its value on its
   * return, unless it is a `try_emplace` and the ring is full at its last access.
   */
  lemma EmplaceEnds<V>(cap: nat, moves: seq<Move<V>>, c: WriterCall<V>)
    requires cap > 1
    ensures var s := Reached(cap, moves);
      var call, z := WriterCallAt(s, WriterCallIn(Init(cap), None, moves), c), WriterStep(s, c);
      && |s.got| <= |s.pushed| && call.Some?
      && (z.w.WIdle? && call.value.Emplace? ==>
            z.pushed == s.pushed + [call.value.v]
            || (z.pushed == s.pushed && call.value.trying && |s.Content()| == cap - 1))
      && (!z.w.WIdle? ==> z.pushed == s.pushed)
  {
    hide Wrap;
    ReachedInv(cap, moves);
    CapFixed(Init<V>(cap), moves);
    WriterHoldsOn(Init<V>(cap), None, moves);
    var s := Reached(cap, moves);
    SameAround(s.cap, |s.got|, |s.pushed| + 1);
    StoreInRange(s);
    hide Slots;
  }

  function WriterMoves<V>(moves: seq<Move<V>>): nat {
    if moves == [] then 0 else (if moves[0].ByWriter? then 1 else 0) + WriterMoves(moves[1..])
  }

  function WriterLeft<V>(w: Writer<V>): nat {
    match w
    case WIdle => 4
    case WRefresh(_, _, _) => 3
    case WBuild(_, _) => 2
    case WStore(_, _) => 1
    case WSize(_) => 0
  }

  /** The writer is pushing, or about to begin to push, `v`, and there is room. */
  ghost predicate Pushing<V>(s: State<V>, v: V, moves: seq<Move<V>>) {
    && |s.pushed| - |s.got| < s.cap - 1
    && match s.w
       case WIdle => forall k :: 0 <= k < |moves| && moves[k].ByWriter? ==> moves[k].wc.Emplace? && moves[k].wc.v == v
       case WRefresh(w, _, _) => w == v
       case WBuild(w, _) => w == v
       case WStore(w, _) => w == v
       case WSize(_) => false
  }

  lemma PushGoesOn<V>(s: State<V>, v: V, moves: seq<Move<V>>)
    requires s.Shape() && Inv(s) && moves != [] && Pushing(s, v, moves)
    ensures var z := Step(s, moves[0]);
      if moves[0].ByReader? then Pushing(z, v, moves[1..]) && z.w == s.w && z.pushed == s.pushed
      else if s.w.WStore? then z.w.WIdle? && z.pushed == s.pushed + [v]
      else Pushing(z, v, moves[1..]) && !z.w.WIdle? && z.pushed == s.pushed && WriterLeft(z.w) < WriterLeft(s.w)
  {
    hide Wrap;
    SameAround(s.cap, |s.got|, |s.pushed| + 1);
    StoreInRange(s);
    hide Slots;
  }

  /**
   * With room in the ring an emplace of either form pushes its value within four accesses of the writer, whatever the
   * reader does meanwhile.
   */
  lemma {:induction false} EmplaceGoesThrough<V>(s: State<V>, v: V, moves: seq<Move<V>>) returns (n: nat)
    requires s.Shape() && Inv(s) && Pushing(s, v, moves) && WriterLeft(s.w) <= WriterMoves(moves)
    ensures n <= |moves| && Run(s, moves[..n]).w.WIdle? && Run(s, moves[..n]).pushed == s.pushed + [v]
    ensures WriterMoves(moves[..n]) <= WriterLeft(s.w)
    decreases |moves|
  {
    hide Inv, Step, Pushing;
    PushingLeft(s, v, moves);
    PushGoesOn(s, v, moves);
    StepKeepsInv(s, moves[0]);
    var z := Step(s, moves[0]);
    if moves[0].ByWriter? && s.w.WStore? {
      n := 1;
      assert moves[..1][1..] == [] && moves[..1][0] == moves[0];
      assert Run(s, moves[..1]) == Run(z, []);
    } else {
      var m := EmplaceGoesThrough(z, v, moves[1..]);
      n := m + 1;
      assert moves[..n][1..] == moves[1..][..m] && moves[..n][0] == moves[0];
    }
  }

  lemma PushingLeft<V>(s: State<V>, v: V, moves: seq<Move<V>>)
    requires Pushing(s, v, moves) && WriterLeft(s.w) <= WriterMoves(moves)
    ensures moves != [] && WriterLeft(s.w) >= 1
  {
  }

  /** The call the reader's next access is part of. */
  function ReaderCallAt<V>(s: State<V>, c: ReaderCall): ReaderCall {
    match s.r
    case RIdle => c
    case RFront => c
    case RRefresh => Front
    case RStore(_, _) => Pop
    case RSize(_, _) => ReaderSize
  }

  /**
   * Whatever place it is at: a `front` that ends in null does so with the ring empty at its last access, one that ends
   * otherwise with it not empty; and only a `pop` takes an element, the oldest, and on its return.
   */
  lemma FrontEnds<V>(cap: nat, moves: seq<Move<V>>, c: ReaderCall)
    requires cap > 1
    ensures var s := Reached(cap, moves);
      var call, z := ReaderCallAt(s, c), ReaderStep(s, c);
      && |s.got| <= |s.pushed|
      && (call.Front? && z.r.RIdle? ==> s.Content() == [])
      && (call.Front? && z.r.RFront? ==> s.Content() != [])
      && (call.Front? ==> z.r.RIdle? || z.r.RFront? || z.r.RRefresh?)
      && (if z.readIdx == s.readIdx then z.got == s.got
          else call.Pop? && z.r.RIdle? && s.Content() != [] && z.got == s.got + [s.Content()[0]])
      && (call.Pop? && !s.r.RIdle? && z.r.RIdle? ==> z.readIdx != s.readIdx)
  {
    hide Wrap;
    ReachedInv(cap, moves);
    CapFixed(Init<V>(cap), moves);
    var s := Reached(cap, moves);
    SameAround(s.cap, |s.got|, |s.pushed|);
    StoreInRange(s);
    NextDiffers(s);
    if s.r.RFront? { FrontFinds(s); }
    hide Slots;
  }

  /** With an element in the ring `front` finds it within two accesses, and `pop` then takes it in two. */
  lemma FrontPopGoThrough<V>(s: State<V>)
    requires s.Shape() && Inv(s) && s.r.RIdle? && |s.got| < |s.pushed|
    ensures var f := ReaderStep(s, Front);
      var g := if f.r.RFront? then f else ReaderStep(f, Front);
      var z := ReaderStep(ReaderStep(g, Pop), Pop);
      && g.r.RFront? && g.got == s.got && z.r.RIdle? && z.got == s.got + [s.pushed[|s.got|]]
  {
    hide Wrap, Slots, Inv;
    FrontFindsNow(s);
    var f := ReaderStep(s, Front);
    ReaderKeepsInv(s, Front);
    var g := if f.r.RFront? then f else ReaderStep(f, Front);
    ReaderKeepsInv(f, Front);
    FrontFinds(g);
    ReaderKeepsInv(g, Pop);
    StoreInRange(ReaderStep(g, Pop));
  }

  /** The other side's index is loaded only when the cache cannot answer: known room, or a known element, suffices. */
  lemma CachesSpareLoads<V>(cap: nat, moves: seq<Move<V>>, v: V, trying: bool)
    requires cap > 1
    ensures var s := Reached(cap, moves);
      var w, r := WriterStep(s, Emplace(v, trying)), ReaderStep(s, Front);
      && (s.w.WIdle? ==> if |s.pushed| + 1 < s.readsKnown + cap then w.w.WBuild? else w.w.WRefresh?)
      && (s.r.RIdle? ==> if |s.got| < s.writesKnown then r.r.RFront? else r.r.RRefresh?)
  {
    hide Wrap;
    ReachedInv(cap, moves);
    CapFixed(Init<V>(cap), moves);
    var s := Reached(cap, moves);
    FollowingWrap(s.cap, |s.pushed|);
    SameAround(s.cap, s.readsKnown, |s.pushed| + 1);
    SameAround(s.cap, |s.got|, s.writesKnown);
    hide Slots;
  }

  lemma FrontFindsNow<V>(s: State<V>)
    requires s.Shape() && Inv(s) && s.r.RIdle? && |s.got| < |s.pushed|
    ensures ReaderStep(s, Front).r.RFront? || ReaderStep(ReaderStep(s, Front), Front).r.RFront?
    ensures ReaderStep(s, Front).r.RFront? || ReaderStep(s, Front).r.RRefresh?
  {
    hide Wrap;
    SameAround(s.cap, |s.got|, |s.pushed|);
    hide Slots;
  }

  lemma SizeAround(cap: nat, r: nat, n: nat)
    requires cap > 1 && n < cap
    ensures SizeOf(cap, Wrap(cap, r + n), Wrap(cap, r)) == n
  {
    WrapAdd(cap, r, n);
    var x := Wrap(cap, r) + n;
    if x < cap {
      WrapIs(cap, x, 0, x);
    } else {
      WrapIs(cap, x, 1, x - cap);
    }
  }

  /**
   * `size` is exact when one of the two owners calls it: for the writer, at its load of the read index; for the reader,
   * at its load of the write index, whatever the writer does before the call returns.
   */
  lemma OwnerSizeIsExact<V>(cap: nat, moves: seq<Move<V>>)
    requires cap > 1
    ensures var s := Reached(cap, moves);
      && |s.got| <= |s.pushed|
      && (s.w.WSize? ==> SizeOf(cap, s.w.w, s.readIdx) == |s.Content()|)
      && (s.r.RSize? ==> SizeOf(cap, s.r.w, s.readIdx) == s.sized)
  {
    hide Wrap, SizeOf;
    ReachedInv(cap, moves);
    CapFixed(Init<V>(cap), moves);
    var s := Reached(cap, moves);
    SizeAround(cap, |s.got|, |s.pushed| - |s.got|);
    if s.r.RSize? {
      SizeAround(cap, |s.got|, s.sized);
    }
    hide Slots;
  }

  /** `empty` is as exact as `size`: it compares the same two loads. */
  lemma OwnerEmptyIsExact<V>(cap: nat, moves: seq<Move<V>>)
    requires cap > 1
    ensures var s := Reached(cap, moves);
      && |s.got| <= |s.pushed|
      && (s.w.WSize? ==> (s.w.w == s.readIdx <==> s.Content() == []))
      && (s.r.RSize? ==> (s.r.w == s.readIdx <==> s.sized == 0))
  {
    OwnerSizeIsExact(cap, moves);
    ReachedInv(cap, moves);
    CapFixed(Init<V>(cap), moves);
    hide Wrap, Slots, Reached;
  }

  // ---------------------------------------------------------------- the object

  class Queue<V> {
    const capacity: nat
    var writeIdx: nat
    var readIdxCache: nat
    var readIdx: nat
    var writeIdxCache: nat
    const slots: array<Option<V>>
    var writer: Writer<V>
    var reader: Reader<V>
    ghost var pushed: seq<V> // the ghost fields are records for the proofs
    ghost var got: seq<V>
    ghost var readsKnown: nat
    ghost var writesKnown: nat
    ghost var sized: int

    ghost function Snapshot(): State<V>
      reads this, slots
    {
      State(capacity, writeIdx, readIdxCache, readIdx, writeIdxCache, slots[..], writer, reader, pushed, got,
        readsKnown, writesKnown, sized)
    }

    ghost predicate Valid()
      reads this, slots
    {
      Snapshot().Shape() && Inv(Snapshot())
    }

    constructor (requested: nat, padding: nat)
      requires requested < SIZE_MAX && 2 * padding + 2 <= SIZE_MAX
      ensures Valid() && fresh(slots) && Snapshot() == Init(Capacity(requested, padding))
    {
      CapacityIsUsable(requested, padding);
      var cap := Capacity(requested, padding);
      capacity := cap;
      writeIdx, readIdxCache, readIdx, writeIdxCache := 0, 0, 0, 0;
      slots := new Option<V>[cap](_ => None);
      writer, reader := WIdle, RIdle;
      pushed, got, readsKnown, writesKnown, sized := [], [], 0, 0, 0;
      new;
      ReachedInv<V>(cap, []);
      assert Snapshot() == Init(cap);
    }

    /** One atomic access of the writer, in `emplace`, `try_emplace` or `size`. */
    method Write(c: WriterCall<V>)
      requires Valid()
      modifies this, slots
      ensures Valid() && Snapshot() == WriterStep(old(Snapshot()), c)
    {
      hide Inv;
      ghost var s := Snapshot();
      WriterKeepsInv(s, c);
      StoreInRange(s);
      match writer
      case WIdle =>
        match c {
          case Emplace(v, trying) =>
            var next := writeIdx + 1;
            if next == capacity {
              next := 0;
            }
            writer := if next == readIdxCache then WRefresh(v, next, trying) else WBuild(v, next);
          case WriterSize => writer := WSize(writeIdx);
        }
      case WRefresh(v, next, trying) =>
        readIdxCache := readIdx;
        readsKnown := |got|;
        if next != readIdxCache {
          writer := WBuild(v, next);
        } else if trying {
          writer := WIdle;
        }
      case WBuild(v, next) =>
        slots[writeIdx] := Some(v);
        writer := WStore(v, next);
      case WStore(v, next) =>
        writeIdx := next;
        pushed := pushed + [v];
        writer := WIdle;
      case WSize(_) => writer := WIdle;
    }

    /** One atomic access of the reader, in `front`, `pop` or `size`. */
    method Read(c: ReaderCall)
      requires Valid()
      modifies this, slots
      ensures Valid() && Snapshot() == ReaderStep(old(Snapshot()), c)
    {
      hide Inv;
      ghost var s := Snapshot();
      ReaderKeepsInv(s, c);
      StoreInRange(s);
      match reader
      case RIdle =>
        match c {
          case Front => reader := if readIdx == writeIdxCache then RRefresh else RFront;
          case Pop =>
          case ReaderSize => sized, reader := |pushed| - |got|, RSize(writeIdx, false);
        }
      case RRefresh =>
        writeIdxCache := writeIdx;
        writesKnown := |pushed|;
        reader := if writeIdxCache == readIdx then RIdle else RFront;
      case RFront =>
        match c {
          case Front =>
          case Pop =>
            match slots[readIdx] {
              case Some(v) =>
                slots[readIdx] := None;
                reader := RStore(if readIdx + 1 == capacity then 0 else readIdx + 1, v);
              case None =>
            }
          case ReaderSize => sized, reader := |pushed| - |got|, RSize(writeIdx, true);
        }
      case RStore(next, v) =>
        readIdx := next;
        got := got + [v];
        reader := RIdle;
      case RSize(_, held) => reader := if held then RFront else RIdle;
    }

    /** One turn of the destructor's loop: `front`, and `pop` if there is an element. */
    method DestroyFront() returns (v: Option<V>)
      requires Valid() && writer.WIdle? && reader.RIdle?
      modifies this, slots
      ensures Valid() && writer.WIdle? && reader.RIdle? && pushed == old(pushed)
      ensures old(got) <= pushed && got <= pushed
      ensures v == if old(got) == pushed then None else Some(pushed[|old(got)|])
      ensures got == if v.Some? then old(got) + [v.value] else old(got)
    {
      hide Inv, WriterOk, ReaderOk, Slots, Wrap;
      LagOf(Snapshot());
      Read(Front);
      if reader.RRefresh? {
        RefreshFinds(Snapshot());
        Read(Front);
      }
      if reader.RIdle? {
        return None;
      }
      FrontFinds(Snapshot());
      v := slots[readIdx];
      Read(Pop);
      StoreInRange(Snapshot());
      Read(Pop);
      LagOf(Snapshot());
    }

    /** The destructor: every element still in the ring is destroyed, oldest first, and no object is left. */
    method Destroy() returns (destroyed: seq<V>)
      requires Valid() && writer.WIdle? && reader.RIdle?
      modifies this, slots
      ensures Valid() && |old(got)| <= |pushed| && destroyed == old(pushed)[|old(got)|..]
        && got == pushed == old(pushed)
      ensures forall i :: 0 <= i < slots.Length ==> slots[i] == None
    {
      hide Inv;
      LagOf(Snapshot());
      destroyed := [];
      while true
        invariant Valid() && writer.WIdle? && reader.RIdle? && pushed == old(pushed)
        invariant old(got) + destroyed == got && got <= pushed
        decreases |pushed| - |got|
      {
        var v := DestroyFront();
        if v == None {
          break;
        }
        destroyed := destroyed + [v.value];
      }
      EmptySlots(Snapshot());
      assert slots[..] == Snapshot().slots;
    }
  }

  ghost predicate Lagging<V>(s: State<V>) {
    s.got <= s.pushed
  }

  lemma LagOf<V>(s: State<V>)
    requires Inv(s)
    ensures Lagging(s)
  {
  }

  lemma RefreshFinds<V>(s: State<V>)
    requires s.Shape() && Inv(s) && s.r.RRefresh?
    ensures s.writeIdx == s.readIdx <==> |s.got| == |s.pushed|
  {
    hide Wrap;
    SameAround(s.cap, |s.got|, |s.pushed|);
  }

  lemma FrontFinds<V>(s: State<V>)
    requires s.Shape() && Inv(s) && s.r.RFront?
    ensures |s.got| < |s.pushed| && s.slots[s.readIdx] == Some(s.pushed[|s.got|])
  {
    hide Wrap;
    assert s.slots[Wrap(s.cap, |s.got|)] == Expected(s.w, s.r, s.pushed, |s.got|, |s.got|);
  }

  /** An empty ring with no call under way holds no object. */
  lemma EmptySlots<V>(s: State<V>)
    requires s.Shape() && Inv(s) && s.w.WIdle? && |s.got| == |s.pushed|
    ensures forall i :: 0 <= i < |s.slots| ==> s.slots[i] == None
  {
    hide Wrap;
    forall i: nat | i < |s.slots|
      ensures s.slots[i] == None
    {
      var t := |s.got| + Wrap(s.cap, i - s.readIdx);
      WrapAdd(s.cap, i - s.readIdx, |s.got|);
      WrapAdd(s.cap, |s.got|, i - s.readIdx);
      WrapIs(s.cap, i, 0, i);
      assert Wrap(s.cap, t) == i;
      assert s.slots[Wrap(s.cap, t)] == Expected(s.w, s.r, s.pushed, |s.got|, t);
    }
  }
}
