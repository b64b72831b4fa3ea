/**
 * One implicit producer and its consumers. The producer enqueues in bulk (one element is a bulk of one); each consumer
 * dequeues up to `max` elements (one for a single dequeue). Every access to a word both sides share is one step.
 */
module ImplicitQueue {
  import opened Common
  import opened Blocks
  import C = DequeueCounters

  /** A block index: `off` is a record for the proofs, the position of block number 0 were it present. */
  datatype Header = Header(cap: nat, tail: nat, index: seq<nat>, off: int)

  datatype Entry = Entry(key: Option<nat>, value: Option<nat>)

  datatype Block<V> = Block(cells: seq<Option<V>>, done: nat)

  /** Where the producer stands in `enqueue_bulk(vs)`; `got` is the chain of blocks taken so far. */
  datatype Prod<V> =
    | PIdle
    | PNext(vs: seq<V>, got: seq<nat>)
    | PIndex(vs: seq<V>, got: seq<nat>)
    | PGrow(vs: seq<V>, got: seq<nat>)
    | PKey(vs: seq<V>, got: seq<nat>, e: nat, slot: nat)
    | PTail(vs: seq<V>, got: seq<nat>, e: nat, slot: nat)
    | PBlock(vs: seq<V>, got: seq<nat>, e: nat)
    | PValue(vs: seq<V>, got: seq<nat>, e: nat, id: nat)
    | PRewind(vs: seq<V>, got: seq<nat>, e: nat)
    | PClear(vs: seq<V>, got: seq<nat>, e: nat)
    | PUndo(vs: seq<V>, got: seq<nat>, j: nat)
    | PUndoTail(vs: seq<V>, got: seq<nat>, j: nat)
    | PGive(vs: seq<V>, got: seq<nat>, j: nat)
    | PBuild(vs: seq<V>, got: seq<nat>, i: nat)
    | PPublish(vs: seq<V>, got: seq<nat>)

  /** Where a consumer stands with the indices it has claimed and not yet taken. */
  datatype Reader =
    | NotReading
    | LoadIndex(i: nat, e: nat)
    | LoadIndexTail(i: nat, e: nat, hd: nat)
    | LoadKey(i: nat, e: nat, hd: nat, tp: nat)
    | LoadValue(i: nat, e: nat, hd: nat, idx: nat)
    | Take(i0: nat, i: nat, e: nat, hd: nat, idx: nat, b: nat)
    | ClearEntry(k: nat, i: nat, e: nat, hd: nat, idx: nat, b: nat)
    | GiveBack(k: nat, i: nat, e: nat, hd: nat, idx: nat, b: nat)

  /** The life of a block number, for the proofs. */
  datatype Phase =
    | Open            // some element of it is not completely dequeued
    | Closing(t: nat) // consumer `t` completed the count and has yet to clear the entry
    | Closed(t: nat)  // consumer `t` has cleared the entry and has yet to free the block
    | Void            // the producer is undoing it
    | Gone

  /**
   * Shared words: the counters `c`, the block indices (the last one is the published one), their entries, and the
   * blocks. `free` is every block the producer does not have. The rest, from `enq` on, are records for the proofs: the
   * values enqueued, the values delivered by index, how many block numbers the index tail covers, and for each block
   * number its entry, its block, its phase and its completely dequeued slots.
   */
  datatype State<V> = State(
    B: nat, limit: Option<nat>, c: C.State, headers: seq<Header>, entries: seq<Entry>, blocks: seq<Block<V>>,
    free: set<nat>, tailBlock: Option<nat>, prod: Prod<V>, readers: seq<Reader>,
    enq: seq<V>, out: map<nat, V>, ins: nat, entryOf: seq<nat>, low: nat,
    blockOf: seq<nat>, phase: seq<Phase>, finIn: seq<set<nat>>)
  {
    /** What makes the step functions below defined. */
    predicate Wf() {
      && B > 0 && |headers| > 0 && |readers| == |c.threads|
      && (forall h :: 0 <= h < |headers| ==> headers[h].cap > 0 && |headers[h].index| == headers[h].cap)
      && |blockOf| == |phase| == |finIn|
    }

    function Cur(): nat
      requires |headers| > 0
    {
      |headers| - 1
    }

    /** The block numbers that hold published elements. */
    function K0(): nat
      requires B > 0
    {
      Ceil(B, c.tail)
    }

    function SetIndexTail(p: nat): State<V>
      requires |headers| > 0
    {
      this.(headers := headers[Cur() := headers[Cur()].(tail := p)])
    }

    function SetValue(e: nat, v: Option<nat>): State<V>
      requires e < |entries|
    {
      this.(entries := entries[e := entries[e].(value := v)])
    }

    function Read(t: nat, r: Reader): State<V>
      requires t < |readers|
    {
      this.(readers := readers[t := r])
    }
  }

  function Empty<V>(B: nat): seq<Option<V>> {
    seq(B, _ => None)
  }

  function Init<V>(B: nat, limit: Option<nat>, cap: nat, n: nat): State<V> {
    State(B, limit, C.Init(n), [Header(cap, if cap > 0 then cap - 1 else 0, seq(cap, (p: nat) => p), 0)],
          seq(cap, _ => Entry(None, None)), [], {}, None, PIdle, seq(n, _ => NotReading),
          [], map[], 0, [], 0, [], [], [])
  }

  /** No leeway, or the size limit (a multiple of the block size) would be passed. */
  predicate Full<V>(s: State<V>, k: nat)
    requires s.B > 0
  {
    || !(s.c.head < Base(s.B, k) + s.B)
    || (s.limit.Some? && (s.limit.value == 0 || s.limit.value - s.B < Base(s.B, k) - s.c.head))
  }

  function SlotOf(h: Header, firstNew: nat, p: nat): nat
    requires h.cap > 0 && |h.index| == h.cap
  {
    if p < h.cap then h.index[Wrap(h.cap, h.tail + 1 + p)] else firstNew + (p - h.cap)
  }

  /** `new_block_index`: double the index, the old slots first, oldest first, and as many new entries after them. */
  function Doubled(h: Header, ins: nat, firstNew: nat): Header
    requires h.cap > 0 && |h.index| == h.cap
  {
    Header(2 * h.cap, h.cap - 1,
           seq(2 * h.cap, p requires 0 <= p => SlotOf(h, firstNew, p)),
           h.cap - ins)
  }

  /** `get_block_index_index_for_index`, after its three loads. */
  function Lookup(B: nat, cap: nat, tp: nat, tailBase: nat, i: nat): nat
    requires B > 0 && cap > 0
  {
    Wrap(cap, tp + (Base(B, BlockNo(B, i)) - tailBase) / B)
  }

  /** The producer's own lookup, of block number `k`. */
  function OwnEntry<V>(s: State<V>, k: nat): Option<nat>
    requires s.Wf()
  {
    var h := s.headers[s.Cur()];
    if h.tail < h.cap && h.index[h.tail] < |s.entries| && s.entries[h.index[h.tail]].key.Some? then
      Some(h.index[Lookup(s.B, h.cap, h.tail, s.entries[h.index[h.tail]].key.value, Base(s.B, k))])
    else None
  }

  /** Finding room in the block index for the next block: `insert_block_index_entry`. */
  function InsertStep<V>(s: State<V>, ok: bool): State<V>
    requires s.Wf() && (s.prod.PIndex? || s.prod.PGrow? || s.prod.PKey? || s.prod.PTail?)
  {
    var h := s.headers[s.Cur()];
    match s.prod
    case PIndex(vs, got) =>
      var slot := Wrap(h.cap, h.tail + 1);
      var e := h.index[slot];
      if e < |s.entries| && (s.entries[e].key.None? || s.entries[e].value.None?) then s.(prod := PKey(vs, got, e, slot))
      else s.(prod := PGrow(vs, got))
    case PGrow(vs, got) =>
      if !ok then s.(prod := PUndo(vs, got, 0))
      else
        s.(headers := s.headers + [Doubled(h, s.ins, |s.entries|)],
           entries := s.entries + seq(h.cap, _ => Entry(None, None)),
           prod := PIndex(vs, got))
    case PKey(vs, got, e, slot) =>
      if e >= |s.entries| then s
      else
        var k := s.K0() + |got|;
        s.(entries := s.entries[e := s.entries[e].(key := Some(Base(s.B, k)))],
           low := if k < s.low + h.cap then s.low else k + 1 - h.cap,
           prod := PTail(vs, got, e, slot))
    case PTail(vs, got, e, slot) =>
      s.SetIndexTail(slot).(entryOf := s.entryOf + [e], ins := s.ins + 1, prod := PBlock(vs, got, e))
  }

  /** Getting a block for the new entry, or giving the entry up. `id` is the block the pool hands out, if `ok`. */
  function BlockStep<V>(s: State<V>, ok: bool, id: nat): State<V>
    requires s.Wf() && (s.prod.PBlock? || s.prod.PValue? || s.prod.PRewind? || s.prod.PClear?)
  {
    var h := s.headers[s.Cur()];
    match s.prod
    case PBlock(vs, got, e) =>
      if ok && id in s.free && id < |s.blocks| then
        s.(blocks := s.blocks[id := Block(Empty(s.B), 0)], free := s.free - {id}, prod := PValue(vs, got, e, id))
      else if ok then
        s.(blocks := s.blocks + [Block(Empty(s.B), 0)], prod := PValue(vs, got, e, |s.blocks|))
      else s.(prod := PRewind(vs, got, e))
    case PValue(vs, got, e, b) =>
      if e >= |s.entries| then s
      else
        s.SetValue(e, Some(b)).(
          blockOf := s.blockOf + [b], phase := s.phase + [Open], finIn := s.finIn + [{}],
          prod := PNext(vs, got + [b]))
    case PRewind(vs, got, e) =>
      if s.ins == 0 then s
      else s.SetIndexTail(Wrap(h.cap, h.tail - 1)).(ins := s.ins - 1, prod := PClear(vs, got, e))
    case PClear(vs, got, e) =>
      if e >= |s.entries| then s else s.SetValue(e, None).(prod := PUndo(vs, got, 0))
  }

  /** Reverting the blocks and index entries taken so far, then failing. */
  function UndoStep<V>(s: State<V>): State<V>
    requires s.Wf() && (s.prod.PUndo? || s.prod.PUndoTail? || s.prod.PGive?)
  {
    var h := s.headers[s.Cur()];
    var k0 := s.K0();
    match s.prod
    case PUndo(vs, got, j) =>
      if j >= |got| then s.(prod := PGive(vs, got, 0))
      else
        (match OwnEntry(s, k0 + j)
         case None => s
         case Some(e) =>
           if e >= |s.entries| || k0 + j >= |s.phase| then s
           else s.SetValue(e, None).(phase := s.phase[k0 + j := Void], prod := PUndoTail(vs, got, j)))
    case PUndoTail(vs, got, j) =>
      if s.ins == 0 then s
      else s.SetIndexTail(Wrap(h.cap, h.tail - 1)).(ins := s.ins - 1, prod := PUndo(vs, got, j + 1))
    case PGive(vs, got, j) =>
      if j >= |got| then
        if k0 > |s.blockOf| || k0 > |s.entryOf| then s
        else
          s.(blockOf := s.blockOf[..k0], phase := s.phase[..k0], finIn := s.finIn[..k0], entryOf := s.entryOf[..k0],
             prod := PIdle)
      else if k0 + j >= |s.phase| then s
      else s.(free := s.free + {got[j]}, phase := s.phase[k0 + j := Gone], prod := PGive(vs, got, j + 1))
  }

  /** Where element number `i` of the bulk goes: the block the producer was filling, or one of the new chain. */
  function Target<V>(s: State<V>, got: seq<nat>, x: nat): Option<nat>
    requires s.B > 0
  {
    var k := BlockNo(s.B, x);
    if k < s.K0() then s.tailBlock
    else if k - s.K0() < |got| then Some(got[k - s.K0()])
    else None
  }

  /** Constructing the elements and publishing them with one store of the tail. */
  function FillStep<V>(s: State<V>): State<V>
    requires s.Wf() && (s.prod.PBuild? || s.prod.PPublish?)
  {
    match s.prod
    case PBuild(vs, got, i) =>
      if i >= |vs| then s.(prod := PPublish(vs, got))
      else
        (match Target(s, got, s.c.tail + i)
         case None => s
         case Some(b) =>
           var o := Slot(s.B, s.c.tail + i);
           if b >= |s.blocks| || o >= |s.blocks[b].cells| then s
           else
             s.(blocks := s.blocks[b := s.blocks[b].(cells := s.blocks[b].cells[o := Some(vs[i])])],
                prod := PBuild(vs, got, i + 1)))
    case PPublish(vs, got) =>
      s.(c := C.Publish(s.c, |vs|), enq := s.enq + vs,
         tailBlock := if got == [] then s.tailBlock else Some(got[|got| - 1]), prod := PIdle)
  }

  /** One step of the producer; when idle it begins `enqueue_bulk(vs)`. */
  function ProdStep<V>(s: State<V>, vs: seq<V>, ok: bool, id: nat): State<V>
    requires s.Wf()
  {
    var p := s.prod;
    if p.PIdle? then s.(prod := PNext(vs, []))
    else if p.PNext? then
      var k := s.K0() + |p.got|;
      if k >= Ceil(s.B, s.c.tail + |p.vs|) then s.(prod := PBuild(p.vs, p.got, 0))
      else if Full(s, k) then s.(prod := PUndo(p.vs, p.got, 0))
      else s.(prod := PIndex(p.vs, p.got))
    else if p.PIndex? || p.PGrow? || p.PKey? || p.PTail? then InsertStep(s, ok)
    else if p.PBlock? || p.PValue? || p.PRewind? || p.PClear? then BlockStep(s, ok, id)
    else if p.PBuild? || p.PPublish? then FillStep(s)
    else UndoStep(s)
  }

  /** The consumer has finished with one block: on to the next claimed one, through the next slot of the same index. */
  function AfterBlock<V>(s: State<V>, t: nat, i: nat, e: nat, hd: nat, idx: nat): State<V>
    requires s.Wf() && t < |s.readers| && hd < |s.headers|
  {
    if i == e then s.(c := C.Release(s.c, t)).Read(t, NotReading)
    else s.Read(t, LoadValue(i, e, hd, Wrap(s.headers[hd].cap, idx + 1)))
  }

  /** Finding the block of a claimed index. */
  function FindStep<V>(s: State<V>, t: nat): State<V>
    requires s.Wf() && t < |s.readers|
  {
    match s.readers[t]
    case LoadIndex(i, e) => s.Read(t, LoadIndexTail(i, e, s.Cur()))
    case LoadIndexTail(i, e, hd) =>
      if hd >= |s.headers| then s else s.Read(t, LoadKey(i, e, hd, s.headers[hd].tail))
    case LoadKey(i, e, hd, tp) =>
      if hd >= |s.headers| || tp >= s.headers[hd].cap || s.headers[hd].index[tp] >= |s.entries| then s
      else
        (match s.entries[s.headers[hd].index[tp]].key
         case None => s
         case Some(tb) => s.Read(t, LoadValue(i, e, hd, Lookup(s.B, s.headers[hd].cap, tp, tb, i))))
    case LoadValue(i, e, hd, idx) =>
      if hd >= |s.headers| || idx >= s.headers[hd].cap || s.headers[hd].index[idx] >= |s.entries| then s
      else
        (match s.entries[s.headers[hd].index[idx]].value
         case None => s
         case Some(b) => s.Read(t, Take(i, i, e, hd, idx, b)))
    case _ => s
  }

  /** Recording that block number `k`, if it has been entered, is at `p`. */
  function Mark(phase: seq<Phase>, k: nat, p: Phase): (z: seq<Phase>)
    ensures |z| == |phase|
  {
    if k < |phase| then phase[k := p] else phase
  }

  /** Recording that `n` slots from `o` on of block number `k` are completely dequeued. */
  function MarkDone(finIn: seq<set<nat>>, k: nat, o: nat, n: nat): (z: seq<set<nat>>)
    ensures |z| == |finIn|
  {
    if k < |finIn| then finIn[k := finIn[k] + Range(o, n)] else finIn
  }

  /** Moving out the claimed elements of one block, counting them, and freeing the block if that completes it. */
  function TakeStep<V>(s: State<V>, t: nat): State<V>
    requires s.Wf() && t < |s.readers|
  {
    match s.readers[t]
    case Take(i0, i, e, hd, idx, b) =>
      var k := BlockNo(s.B, i0);
      if b >= |s.blocks| || hd >= |s.headers| then s
      else if i < e && i < Base(s.B, k + 1) then
        var o := Slot(s.B, i);
        if o >= |s.blocks[b].cells| then s
        else
          (match s.blocks[b].cells[o]
           case None => s
           case Some(v) =>
             s.(blocks := s.blocks[b := s.blocks[b].(cells := s.blocks[b].cells[o := None])], out := s.out[i := v])
              .Read(t, Take(i0, i + 1, e, hd, idx, b)))
      else if i < i0 then s
      else
        var n := s.blocks[b].done + (i - i0);
        var z := s.(blocks := s.blocks[b := s.blocks[b].(done := n)],
                    finIn := MarkDone(s.finIn, k, Slot(s.B, i0), i - i0));
        if n == s.B then z.(phase := Mark(z.phase, k, Closing(t))).Read(t, ClearEntry(k, i, e, hd, idx, b))
        else AfterBlock(z, t, i, e, hd, idx)
    case ClearEntry(k, i, e, hd, idx, b) =>
      if hd >= |s.headers| || idx >= s.headers[hd].cap || s.headers[hd].index[idx] >= |s.entries| then s
      else
        s.SetValue(s.headers[hd].index[idx], None).(phase := Mark(s.phase, k, Closed(t)))
         .Read(t, GiveBack(k, i, e, hd, idx, b))
    case GiveBack(k, i, e, hd, idx, b) =>
      if hd >= |s.headers| then s
      else AfterBlock(s.(free := s.free + {b}, phase := Mark(s.phase, k, Gone)), t, i, e, hd, idx)
    case _ => s
  }

  /** One step of consumer `t`; when idle it asks for up to `max` elements, which may be none. */
  function ConsStep<V>(s: State<V>, t: nat, max: nat): State<V>
    requires s.Wf() && t < |s.readers|
  {
    var r := s.readers[t];
    if r.NotReading? then
      var c := C.Step(s.c, t, max);
      var z := s.(c := c);
      if c.threads[t].Claimed? then z.Read(t, LoadIndex(c.threads[t].first, c.threads[t].first + c.threads[t].a)) else z
    else if r.Take? || r.ClearEntry? || r.GiveBack? then TakeStep(s, t)
    else FindStep(s, t)
  }
}
