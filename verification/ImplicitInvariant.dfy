/** What holds of an implicit producer at every step, piece by piece over the fields each piece reads. */
module ImplicitInvariant {
  import opened Common
  import opened Blocks
  import C = DequeueCounters
  import opened Claims
  import opened ImplicitQueue

  // ---------------------------------------------------------------- block indices

  /** The slot of block number `k` in index `h`. */
  function Pos(h: Header, k: int): (p: nat)
    requires h.cap > 0
    ensures p < h.cap
  {
    Wrap(h.cap, k + h.off)
  }

  ghost predicate HeaderOk(h: Header, n: nat) {
    && h.cap > 0 && |h.index| == h.cap && h.tail < h.cap
    && (forall p :: 0 <= p < h.cap ==> h.index[p] < n)
    && (forall p, q :: 0 <= p < q < h.cap ==> h.index[p] != h.index[q])
  }

  /** An entry the older index `g` shares with `h` stands for the same block numbers in both, up to laps of `g`. */
  ghost predicate Related(g: Header, h: Header)
    requires g.cap > 0 && |g.index| == g.cap && h.cap > 0 && |h.index| == h.cap
  {
    && h.cap % g.cap == 0
    && forall p, q :: 0 <= p < g.cap && 0 <= q < h.cap && g.index[p] == h.index[q] ==>
         Wrap(g.cap, p - g.off) == Wrap(g.cap, q - h.off)
  }

  ghost predicate Heads(hs: seq<Header>, n: nat) {
    && |hs| > 0
    && (forall g :: 0 <= g < |hs| ==> HeaderOk(hs[g], n))
    && (forall g :: 0 <= g < |hs| ==> Related(hs[g], hs[|hs| - 1]))
  }

  /** Slot `p` of `h` has a valid key, of a block number that belongs in slot `p`: reading it as the tail is safe. */
  ghost predicate Vis(B: nat, h: Header, entries: seq<Entry>, p: nat) {
    && B > 0 && h.cap > 0 && p < |h.index| && h.index[p] < |entries|
    && entries[h.index[p]].key.Some?
    && Slot(B, entries[h.index[p]].key.value) == 0
    && Pos(h, BlockNo(B, entries[h.index[p]].key.value)) == p
  }

  /** The published index `h` holds the keys of block numbers from `low` on, each in its slot. */
  ghost predicate Window(B: nat, h: Header, entries: seq<Entry>, entryOf: seq<nat>, low: nat, ins: nat, k0: nat) {
    && h.cap > 0 && |h.index| == h.cap
    && low <= k0 <= ins <= |entryOf| <= low + h.cap
    && h.tail == Pos(h, ins - 1)
    && forall j :: low <= j < |entryOf| ==>
         && h.index[Pos(h, j)] == entryOf[j] && entryOf[j] < |entries|
         && entries[entryOf[j]].key == Some(Base(B, j))
  }

  predicate Alive(p: Phase) {
    p.Open? || p.Closing?
  }

  /** The entry of a block number not completely dequeued points to its block. */
  ghost predicate Live(entries: seq<Entry>, entryOf: seq<nat>, low: nat, blockOf: seq<nat>, phase: seq<Phase>) {
    && |blockOf| == |phase|
    && forall k :: 0 <= k < |phase| && Alive(phase[k]) ==>
         && low <= k < |entryOf| && entryOf[k] < |entries|
         && entries[entryOf[k]].value == Some(blockOf[k])
  }

  // ---------------------------------------------------------------- blocks

  /** Every block is free, spare (requisitioned and not yet entered), or stands for exactly one block number. */
  ghost predicate Owns(n: nat, free: set<nat>, spare: set<nat>, blockOf: seq<nat>, phase: seq<Phase>) {
    && |blockOf| == |phase|
    && (forall id :: id in free || id in spare ==> id < n)
    && free !! spare
    && (forall k :: 0 <= k < |phase| && phase[k] != Gone ==>
          blockOf[k] < n && blockOf[k] !in free && blockOf[k] !in spare)
    && (forall j, k :: 0 <= j < k < |phase| && phase[j] != Gone && phase[k] != Gone ==> blockOf[j] != blockOf[k])
    && (forall id :: 0 <= id < n ==>
          id in free || id in spare || exists k :: 0 <= k < |phase| && phase[k] != Gone && blockOf[k] == id)
  }

  /** What slot of index `x` holds: a published value until it is delivered, a constructed one beyond the tail. */
  function Content<V>(tail: nat, enq: seq<V>, out: map<nat, V>, extra: seq<V>, x: nat): Option<V>
    requires |enq| == tail
  {
    if x < tail then (if x in out then None else Some(enq[x]))
    else if x - tail < |extra| then Some(extra[x - tail])
    else None
  }

  ghost predicate Cells<V>(B: nat, blocks: seq<Block<V>>, blockOf: seq<nat>, phase: seq<Phase>, finIn: seq<set<nat>>,
      tail: nat, enq: seq<V>, out: map<nat, V>, extra: seq<V>) {
    && |blockOf| == |phase| == |finIn| && |enq| == tail
    && forall k :: 0 <= k < |phase| && phase[k] != Gone ==>
         && blockOf[k] < |blocks| && |blocks[blockOf[k]].cells| == B
         && blocks[blockOf[k]].done == |finIn[k]|
         && forall o :: 0 <= o < B ==> blocks[blockOf[k]].cells[o] == Content(tail, enq, out, extra, Base(B, k) + o)
  }

  /** Completely dequeued slots were delivered; delivered values are the ones enqueued. */
  ghost predicate Marks<V>(B: nat, finIn: seq<set<nat>>, out: map<nat, V>, enq: seq<V>, head: nat) {
    && (forall x :: x in out ==> x < head && x < |enq| && out[x] == enq[x])
    && (forall k, o :: 0 <= k < |finIn| && o in finIn[k] ==> o < B && Base(B, k) + o in out)
  }

  ghost predicate Phases(B: nat, k0: nat, phase: seq<Phase>, finIn: seq<set<nat>>, readers: seq<Reader>) {
    && |phase| == |finIn| && k0 <= |phase|
    && (forall k :: 0 <= k < k0 ==> phase[k] != Void)
    && (forall k :: k0 <= k < |phase| ==> phase[k] == Open || phase[k] == Void || phase[k] == Gone)
    && (forall k :: 0 <= k < |phase| && phase[k] == Open ==> |finIn[k]| < B)
    && (forall k :: 0 <= k < k0 && phase[k] != Open ==> finIn[k] == Range(0, B))
    && (forall k :: 0 <= k < |phase| && phase[k].Closing? ==>
          phase[k].t < |readers| && readers[phase[k].t].ClearEntry? && readers[phase[k].t].k == k)
    && (forall k :: 0 <= k < |phase| && phase[k].Closed? ==>
          phase[k].t < |readers| && readers[phase[k].t].GiveBack? && readers[phase[k].t].k == k)
  }

  // ---------------------------------------------------------------- consumers

  /** Consumer `t` has claimed up to `e`, is done below `i`, and has taken nothing from `u` on. */
  ghost predicate Claim<V>(s: State<V>, t: nat, i: nat, u: nat, e: nat)
    requires s.B > 0
  {
    && t < |s.c.threads| && s.c.threads[t].Claimed?
    && e == s.c.threads[t].first + s.c.threads[t].a && s.c.threads[t].first <= i <= u <= e
    && (forall x :: s.c.threads[t].first <= x < i ==> Fin(s.B, s.finIn, x))
    && (forall x :: u <= x < e ==> x !in s.out)
  }

  /** Index `hd` has the entries of all of `[i, e)`. */
  ghost predicate Reaches<V>(s: State<V>, hd: nat, i: nat, e: nat)
    requires s.B > 0
  {
    && hd < |s.headers| && s.headers[hd].cap > 0 && |s.headers[hd].index| == s.headers[hd].cap
    && forall x :: i <= x < e ==>
         && BlockNo(s.B, x) < |s.entryOf|
         && s.headers[hd].index[Pos(s.headers[hd], BlockNo(s.B, x))] == s.entryOf[BlockNo(s.B, x)]
  }

  /** Consumer `t` completed block number `k` and continues, if at all, at its end. */
  ghost predicate Finishing<V>(s: State<V>, t: nat, k: nat, i: nat, e: nat, hd: nat, idx: nat, b: nat)
    requires s.B > 0
  {
    && Claim(s, t, i, i, e) && Reaches(s, hd, i, e)
    && k < |s.phase| && k < |s.blockOf| && k < |s.entryOf| && b == s.blockOf[k]
    && idx == Pos(s.headers[hd], k) && s.headers[hd].index[idx] == s.entryOf[k]
    && (i < e ==> i == Base(s.B, k + 1))
  }

  ghost predicate ReaderOk<V>(s: State<V>, t: nat, r: Reader)
    requires s.B > 0 && t < |s.c.threads|
  {
    match r
    case NotReading => !s.c.threads[t].Claimed?
    case LoadIndex(i, e) => i < e && Claim(s, t, i, i, e)
    case LoadIndexTail(i, e, hd) =>
      i < e && Claim(s, t, i, i, e) && Reaches(s, hd, i, e) && Vis(s.B, s.headers[hd], s.entries, s.headers[hd].tail)
    case LoadKey(i, e, hd, tp) =>
      i < e && Claim(s, t, i, i, e) && Reaches(s, hd, i, e) && Vis(s.B, s.headers[hd], s.entries, tp)
    case LoadValue(i, e, hd, idx) =>
      i < e && Claim(s, t, i, i, e) && Reaches(s, hd, i, e) && idx == Pos(s.headers[hd], BlockNo(s.B, i))
    case Take(i0, i, e, hd, idx, b) =>
      && i0 < e && i <= Base(s.B, BlockNo(s.B, i0) + 1)
      && Claim(s, t, i0, i, e) && Reaches(s, hd, i0, e)
      && idx == Pos(s.headers[hd], BlockNo(s.B, i0))
      && BlockNo(s.B, i0) < |s.blockOf| && b == s.blockOf[BlockNo(s.B, i0)]
      && forall x :: i0 <= x < i ==> x in s.out && !Fin(s.B, s.finIn, x)
    case ClearEntry(k, i, e, hd, idx, b) => Finishing(s, t, k, i, e, hd, idx, b) && s.phase[k] == Closing(t)
    case GiveBack(k, i, e, hd, idx, b) => Finishing(s, t, k, i, e, hd, idx, b) && s.phase[k] == Closed(t)
  }

  ghost predicate Readers<V>(s: State<V>)
    requires s.B > 0
  {
    |s.readers| == |s.c.threads| && forall t :: 0 <= t < |s.readers| ==> ReaderOk(s, t, s.readers[t])
  }

  // ---------------------------------------------------------------- the producer

  function Extra<V>(p: Prod<V>): seq<V> {
    match p
    case PBuild(vs, _, i) => if i <= |vs| then vs[..i] else []
    case PPublish(vs, _) => vs
    case _ => []
  }

  function Spare<V>(p: Prod<V>): set<nat> {
    match p
    case PValue(_, _, _, id) => {id}
    case _ => {}
  }

  /** The chain taken so far stands for the block numbers from `k0` on, in order. */
  ghost predicate Chain(k0: nat, got: seq<nat>, blockOf: seq<nat>, phase: seq<Phase>) {
    && |blockOf| == |phase| == k0 + |got|
    && forall j :: 0 <= j < |got| ==> blockOf[k0 + j] == got[j]
  }

  ghost predicate AllOpen(phase: seq<Phase>, from: nat) {
    forall k :: from <= k < |phase| ==> phase[k] == Open
  }

  ghost predicate AllAre(phase: seq<Phase>, from: nat, to: nat, p: Phase) {
    to <= |phase| && forall k :: from <= k < to ==> phase[k] == p
  }

  /** The slot the producer is about to key, or has keyed, for the next block number. */
  ghost predicate NextSlot(h: Header, entries: seq<Entry>, k: nat, e: nat, slot: nat) {
    h.cap > 0 && |h.index| == h.cap && slot == Pos(h, k) && h.index[slot] == e && e < |entries|
  }

  ghost predicate ProdOk<V>(s: State<V>)
    requires s.Wf()
  {
    var k0, nb, top, h := s.K0(), |s.phase|, |s.entryOf|, s.headers[s.Cur()];
    match s.prod
    case PIdle => nb == top == s.ins == k0
    case PNext(vs, got) => nb == top == s.ins <= Ceil(s.B, s.c.tail + |vs|) && Chain(k0, got, s.blockOf, s.phase)
      && AllOpen(s.phase, k0)
    case PIndex(vs, got) => nb == top == s.ins < Ceil(s.B, s.c.tail + |vs|) && Chain(k0, got, s.blockOf, s.phase)
      && AllOpen(s.phase, k0)
    case PGrow(vs, got) => nb == top == s.ins < Ceil(s.B, s.c.tail + |vs|) && Chain(k0, got, s.blockOf, s.phase)
      && AllOpen(s.phase, k0)
    case PKey(vs, got, e, slot) =>
      && nb == top == s.ins < Ceil(s.B, s.c.tail + |vs|) && Chain(k0, got, s.blockOf, s.phase) && AllOpen(s.phase, k0)
      && NextSlot(h, s.entries, nb, e, slot) && (s.entries[e].key.None? || s.entries[e].value.None?)
    case PTail(vs, got, e, slot) =>
      && nb == top == s.ins < Ceil(s.B, s.c.tail + |vs|) && Chain(k0, got, s.blockOf, s.phase) && AllOpen(s.phase, k0)
      && NextSlot(h, s.entries, nb, e, slot) && s.entries[e].key == Some(Base(s.B, nb)) && nb < s.low + h.cap
    case PBlock(vs, got, e) =>
      && nb + 1 == top == s.ins <= Ceil(s.B, s.c.tail + |vs|) && Chain(k0, got, s.blockOf, s.phase)
           && AllOpen(s.phase, k0)
      && s.entryOf[nb] == e && s.low <= nb
    case PValue(vs, got, e, id) =>
      && nb + 1 == top == s.ins <= Ceil(s.B, s.c.tail + |vs|) && Chain(k0, got, s.blockOf, s.phase)
           && AllOpen(s.phase, k0)
      && s.entryOf[nb] == e && s.low <= nb && id < |s.blocks| && s.blocks[id] == Block(Empty(s.B), 0)
    case PRewind(vs, got, e) =>
      && nb + 1 == top == s.ins && Chain(k0, got, s.blockOf, s.phase) && AllOpen(s.phase, k0)
      && s.entryOf[nb] == e && s.low <= nb
    case PClear(vs, got, e) =>
      && nb + 1 == top && s.ins == nb && Chain(k0, got, s.blockOf, s.phase) && AllOpen(s.phase, k0)
      && s.entryOf[nb] == e && s.low <= nb
    case PUndo(vs, got, j) =>
      && nb <= top && j <= |got| && s.ins == nb - j && Chain(k0, got, s.blockOf, s.phase)
      && AllOpen(s.phase, k0 + j) && AllAre(s.phase, k0, k0 + j, Void)
    case PUndoTail(vs, got, j) =>
      && nb <= top && j < |got| && s.ins == nb - j && Chain(k0, got, s.blockOf, s.phase)
      && AllOpen(s.phase, k0 + j + 1) && AllAre(s.phase, k0, k0 + j + 1, Void)
    case PGive(vs, got, j) =>
      && nb <= top && j <= |got| && s.ins == k0 && Chain(k0, got, s.blockOf, s.phase)
      && AllAre(s.phase, k0 + j, nb, Void) && AllAre(s.phase, k0, k0 + j, Gone)
    case PBuild(vs, got, i) =>
      nb == top == s.ins == Ceil(s.B, s.c.tail + |vs|) && i <= |vs| && Chain(k0, got, s.blockOf, s.phase)
        && AllOpen(s.phase, k0)
    case PPublish(vs, got) =>
      nb == top == s.ins == Ceil(s.B, s.c.tail + |vs|) && Chain(k0, got, s.blockOf, s.phase) && AllOpen(s.phase, k0)
  }

  /** The block being filled, if the tail is inside one. */
  ghost predicate Filling(B: nat, tail: nat, tailBlock: Option<nat>, blockOf: seq<nat>)
    requires B > 0
  {
    Slot(B, tail) != 0 ==>
      0 < Ceil(B, tail) <= |blockOf| && tailBlock == Some(blockOf[Ceil(B, tail) - 1])
  }

  ghost predicate Inv<V>(s: State<V>) {
    && s.Wf() && C.Inv(s.c) && C.AllAsk(s.c) && |s.enq| == s.c.tail
    && Heads(s.headers, |s.entries|)
    && Window(s.B, s.headers[s.Cur()], s.entries, s.entryOf, s.low, s.ins, s.K0())
    && Live(s.entries, s.entryOf, s.low, s.blockOf, s.phase)
    && Owns(|s.blocks|, s.free, Spare(s.prod), s.blockOf, s.phase)
    && Cells(s.B, s.blocks, s.blockOf, s.phase, s.finIn, s.c.tail, s.enq, s.out, Extra(s.prod))
    && Marks(s.B, s.finIn, s.out, s.enq, s.c.head)
    && Phases(s.B, s.K0(), s.phase, s.finIn, s.readers)
    && Taken(s.B, s.c, s.finIn)
    && Readers(s)
    && ProdOk(s)
    && Filling(s.B, s.c.tail, s.tailBlock, s.blockOf)
  }

  // ---------------------------------------------------------------- positions

  lemma LookupIsPos(B: nat, h: Header, entries: seq<Entry>, p: nat, i: nat)
    requires Vis(B, h, entries, p)
    ensures Lookup(B, h.cap, p, entries[h.index[p]].key.value, i) == Pos(h, BlockNo(B, i))
  {
    var x := entries[h.index[p]].key.value;
    var m, k := BlockNo(B, x), BlockNo(B, i);
    Join(B, x);
    MulDiff(B, m, k);
    QuotientIs(B, Base(B, k) - x, k - m, 0);
    WrapAdd(h.cap, m + h.off, k - m);
  }

  /** A shared entry keyed with block number `n` in the newer index is in `n`'s slot in the older one too. */
  lemma CarryOver(g: Header, h: Header, p: nat, q: nat, n: nat)
    requires g.cap > 0 && |g.index| == g.cap && h.cap > 0 && |h.index| == h.cap && Related(g, h)
    requires p < g.cap && q < h.cap && g.index[p] == h.index[q] && q == Pos(h, n)
    ensures Pos(g, n) == p
  {
    hide Wrap;
    WrapAdd(h.cap, n + h.off, -h.off);
    assert Wrap(h.cap, q - h.off) == Wrap(h.cap, n);
    var m := h.cap / g.cap;
    assert h.cap == g.cap * m;
    WrapCoarser(g.cap, m, q - h.off, n);
    WrapShift(g.cap, p - g.off, n, g.off);
    WrapSmall(g.cap, p);
  }

  lemma PosNext(h: Header, k: int)
    requires h.cap > 0
    ensures Wrap(h.cap, Pos(h, k) + 1) == Pos(h, k + 1)
    ensures Wrap(h.cap, Pos(h, k) - 1) == Pos(h, k - 1)
  {
    WrapAdd(h.cap, k + h.off, 1);
    WrapAdd(h.cap, k + h.off, -1);
  }

  lemma PosApart(h: Header, a: int, b: int)
    requires h.cap > 0 && a <= b < a + h.cap && Pos(h, a) == Pos(h, b)
    ensures a == b
  {
    WrapApart(h.cap, a + h.off, b + h.off);
  }
}
