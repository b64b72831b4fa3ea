/**
 * One explicit producer, enqueueing single elements into a ring of blocks it keeps, and its consumers. Every access to
 * a word both sides share is one step.
 */
module ExplicitQueue {
  import opened Common
  import opened Blocks
  import C = DequeueCounters

  datatype Entry = Entry(base: nat, block: Option<nat>)

  /** A block index: `off` is a record for the proofs, the position of block number 0 were it present. */
  datatype Index = Index(size: nat, front: int, entries: seq<Entry>, off: int)

  /** `emptied` is the slots marked empty, whether kept as flags or counted; `next` links the ring. */
  datatype Block<V> = Block(cells: seq<Option<V>>, emptied: set<nat>, next: nat)

  /** Where the producer stands in `enqueue(v)`. */
  datatype Prod<V> =
    | EIdle
    | ENext(v: V)
    | EReset(v: V)
    | EHead(v: V)
    | EGrow(v: V)
    | ETake(v: V)
    | EWrite(v: V)
    | EFront(v: V)
    | EBuild(v: V)
    | EPublish(v: V)

  /** Where a consumer stands with the indices it has claimed and not yet taken. */
  datatype Reader =
    | NotReading
    | LoadIndex(i: nat, e: nat)
    | LoadFront(i: nat, e: nat, hd: nat)
    | LoadBase(i: nat, e: nat, hd: nat, f: nat)
    | LoadBlock(i: nat, e: nat, hd: nat, idx: nat)
    | Take(i0: nat, i: nat, e: nat, hd: nat, idx: nat, b: nat)

  /**
   * The counters `c`, the block indices (the last one is the published one), the producer's own `prFront` and `used`
   * slots, the blocks, those of them in the pool, and the tail block. From `enq` on, records for the proofs: the values
   * enqueued, the values delivered by index, the ring from its oldest block to the tail block, and for each block
   * number started its block and its completely dequeued slots.
   */
  datatype State<V> = State(
    B: nat, limit: Option<nat>, c: C.State, indices: seq<Index>, prFront: nat, used: nat, blocks: seq<Block<V>>,
    free: set<nat>, tailBlock: Option<nat>, prod: Prod<V>, readers: seq<Reader>,
    enq: seq<V>, out: map<nat, V>, ring: seq<nat>, blockOf: seq<nat>, doneIn: seq<set<nat>>)
  {
    /** What makes the step functions below defined. */
    predicate Wf() {
      && B > 0 && |indices| > 0 && |readers| == |c.threads| && |blockOf| == |doneIn|
      && (forall g :: 0 <= g < |indices| ==> indices[g].size > 0 && |indices[g].entries| == indices[g].size)
    }

    function Cur(): nat
      requires |indices| > 0
    {
      |indices| - 1
    }

    /** The block numbers that hold published elements. */
    function K0(): nat
      requires B > 0
    {
      Ceil(B, c.tail)
    }

    function Read(t: nat, r: Reader): State<V>
      requires t < |readers|
    {
      this.(readers := readers[t := r])
    }
  }

  function Unset(n: nat): seq<Entry> {
    seq(n, _ => Entry(0, None))
  }

  function Cells<V>(B: nat): seq<Option<V>> {
    seq(B, _ => None)
  }

  /** `pool` blocks are allocated up front. */
  function Init<V>(B: nat, limit: Option<nat>, size: nat, pool: nat, n: nat): State<V> {
    State(B, limit, C.Init(n), [Index(size, -1, Unset(size), 0)], 0, 0,
          seq(pool, _ => Block(Cells<V>(B), {}, 0)), Range(0, pool), None, EIdle, seq(n, _ => NotReading),
          [], map[], [], [], [])
  }

  /** No leeway, or the size limit would be passed. */
  predicate Full<V>(s: State<V>)
    requires s.B > 0
  {
    || !(s.c.head < s.c.tail + s.B)
    || (s.limit.Some? && (s.limit.value == 0 || s.limit.value - s.B < s.c.tail - s.c.head))
  }

  /** `new_block_index`: twice the size, the slots used copied first, oldest first. */
  function Doubled(g: Index, prFront: nat, used: nat, oldest: nat): Index
    requires g.size > 0 && |g.entries| == g.size && used <= g.size
  {
    Index(2 * g.size, used - 1,
          seq(used, (j: nat) => g.entries[Wrap(g.size, prFront - used + j)]) + Unset(2 * g.size - used),
          -(oldest as int))
  }

  /** A new block number begins in block `b`, which is now the tail block. */
  function Started<V>(s: State<V>, b: nat, ring: seq<nat>): State<V> {
    s.(tailBlock := Some(b), ring := ring, blockOf := s.blockOf + [b], doneIn := s.doneIn + [{}])
  }

  /** Linking block `b` in behind the tail block. */
  function Linked<V>(blocks: seq<Block<V>>, tail: Option<nat>, b: nat): seq<Block<V>>
    requires b < |blocks|
  {
    if tail.None? || tail.value >= |blocks| then blocks[b := blocks[b].(next := b)]
    else
      var t := tail.value;
      var bs := blocks[b := blocks[b].(next := blocks[t].next)];
      bs[t := bs[t].(next := b)]
  }

  /** Starting a block: reuse the oldest one if it is empty, else take one from the pool. */
  function BlockStep<V>(s: State<V>, ok: bool, id: nat): State<V>
    requires s.Wf() && (s.prod.ENext? || s.prod.EReset? || s.prod.EHead? || s.prod.EGrow? || s.prod.ETake?)
  {
    match s.prod
    case ENext(v) =>
      if s.tailBlock.Some? && s.tailBlock.value < |s.blocks| && s.blocks[s.tailBlock.value].next < |s.blocks|
         && |s.blocks[s.blocks[s.tailBlock.value].next].emptied| == s.B && s.ring != [] then
        Started(s, s.blocks[s.tailBlock.value].next, s.ring[1..] + [s.ring[0]]).(prod := EReset(v))
      else s.(prod := EHead(v))
    case EReset(v) =>
      if s.tailBlock.None? || s.tailBlock.value >= |s.blocks| then s
      else
        var b := s.tailBlock.value;
        s.(blocks := s.blocks[b := s.blocks[b].(emptied := {})], prod := EWrite(v))
    case EHead(v) =>
      if Full(s) then s.(prod := EIdle)
      else s.(prod := if s.used == s.indices[s.Cur()].size then EGrow(v) else ETake(v))
    case EGrow(v) =>
      if !ok then s.(prod := EIdle)
      else if s.used > s.indices[s.Cur()].size || s.used > |s.blockOf| then s
      else
        s.(indices := s.indices + [Doubled(s.indices[s.Cur()], s.prFront, s.used, |s.blockOf| - s.used)],
           prFront := s.used, prod := ETake(v))
    case ETake(v) =>
      if !ok then s.(prod := EIdle)
      else
        var b := if id in s.free && id < |s.blocks| then id else |s.blocks|;
        var empty := Block(Cells<V>(s.B), {}, b);
        var bs := if b < |s.blocks| then s.blocks[b := empty] else s.blocks + [empty];
        Started(s.(blocks := Linked(bs, s.tailBlock, b), free := s.free - {b}, used := s.used + 1), b, s.ring + [b])
          .(prod := EWrite(v))
  }

  /** Listing the new block in the index, then exposing it. */
  function ListStep<V>(s: State<V>): State<V>
    requires s.Wf() && (s.prod.EWrite? || s.prod.EFront?)
  {
    var g := s.indices[s.Cur()];
    match s.prod
    case EWrite(v) =>
      if s.prFront >= g.size then s
      else
        s.(indices := s.indices[s.Cur() := g.(entries := g.entries[s.prFront := Entry(s.c.tail, s.tailBlock)])],
          prod := EFront(v))
    case EFront(v) =>
      s.(indices := s.indices[s.Cur() := g.(front := s.prFront)], prFront := Wrap(g.size, s.prFront + 1),
        prod := EBuild(v))
  }

  /** One step of the producer; when idle it begins `enqueue(v)`. */
  function ProdStep<V>(s: State<V>, v: V, ok: bool, id: nat): State<V>
    requires s.Wf()
  {
    match s.prod
    case EIdle => s.(prod := if Slot(s.B, s.c.tail) == 0 then ENext(v) else EBuild(v))
    case EWrite(_) => ListStep(s)
    case EFront(_) => ListStep(s)
    case EBuild(w) =>
      var o := Slot(s.B, s.c.tail);
      if s.tailBlock.None? || s.tailBlock.value >= |s.blocks| || o >= |s.blocks[s.tailBlock.value].cells| then s
      else
        var b := s.tailBlock.value;
        s.(blocks := s.blocks[b := s.blocks[b].(cells := s.blocks[b].cells[o := Some(w)])], prod := EPublish(w))
    case EPublish(w) => s.(c := C.Publish(s.c, 1), enq := s.enq + [w], prod := EIdle)
    case _ => BlockStep(s, ok, id)
  }

  /** The slot of the block of index `i`, from the exposed front slot `f` and the base found there. */
  function Lookup(B: nat, size: nat, f: nat, frontBase: nat, i: nat): nat
    requires B > 0 && size > 0
  {
    Wrap(size, f + (Base(B, BlockNo(B, i)) - frontBase) / B)
  }

  /** Finding the block of a claimed index. */
  function FindStep<V>(s: State<V>, t: nat): State<V>
    requires s.Wf() && t < |s.readers|
  {
    match s.readers[t]
    case LoadIndex(i, e) => s.Read(t, LoadFront(i, e, s.Cur()))
    case LoadFront(i, e, hd) =>
      if hd >= |s.indices| || s.indices[hd].front < 0 then s else s.Read(t, LoadBase(i, e, hd, s.indices[hd].front))
    case LoadBase(i, e, hd, f) =>
      if hd >= |s.indices| || f >= s.indices[hd].size then s
      else s.Read(t, LoadBlock(i, e, hd, Lookup(s.B, s.indices[hd].size, f, s.indices[hd].entries[f].base, i)))
    case LoadBlock(i, e, hd, idx) =>
      if hd >= |s.indices| || idx >= s.indices[hd].size then s
      else
        (match s.indices[hd].entries[idx].block
         case None => s
         case Some(b) => s.Read(t, Take(i, i, e, hd, idx, b)))
    case _ => s
  }

  /** Recording that the slots `part` of block number `k` are completely dequeued. */
  function MarkDone(doneIn: seq<set<nat>>, k: nat, part: set<nat>): (z: seq<set<nat>>)
    ensures |z| == |doneIn|
  {
    if k < |doneIn| then doneIn[k := doneIn[k] + part] else doneIn
  }

  /** Moving out the claimed elements of one block, and marking their slots empty. */
  function TakeStep<V>(s: State<V>, t: nat): State<V>
    requires s.Wf() && t < |s.readers| && s.readers[t].Take?
  {
    var Take(i0, i, e, hd, idx, b) := s.readers[t];
    var k := BlockNo(s.B, i0);
    if b >= |s.blocks| || hd >= |s.indices| then s
    else if i < e && i < Base(s.B, k + 1) then
      var o := Slot(s.B, i);
      if o >= |s.blocks[b].cells| then s
      else
        match s.blocks[b].cells[o]
        case None => s
        case Some(v) =>
          s.(blocks := s.blocks[b := s.blocks[b].(cells := s.blocks[b].cells[o := None])], out := s.out[i := v])
           .Read(t, Take(i0, i + 1, e, hd, idx, b))
    else if i < i0 then s
    else
      var part: set<nat> := Range(Slot(s.B, i0), i - i0);
      AfterBlock(s.(blocks := s.blocks[b := s.blocks[b].(emptied := s.blocks[b].emptied + part)],
                    doneIn := MarkDone(s.doneIn, k, part)), t, i, e, hd, idx)
  }

  /** The consumer has finished with one block: on to the next claimed one, through the next slot of the same index. */
  function AfterBlock<V>(s: State<V>, t: nat, i: nat, e: nat, hd: nat, idx: nat): State<V>
    requires s.Wf() && t < |s.readers| && hd < |s.indices|
  {
    if i == e then s.(c := C.Release(s.c, t)).Read(t, NotReading)
    else s.Read(t, LoadBlock(i, e, hd, Wrap(s.indices[hd].size, idx + 1)))
  }

  /** One step of consumer `t`; when idle it asks for up to `max` elements. */
  function ConsStep<V>(s: State<V>, t: nat, max: nat): State<V>
    requires s.Wf() && t < |s.readers|
  {
    if s.readers[t].NotReading? then
      var c := C.Step(s.c, t, max);
      var z := s.(c := c);
      if c.threads[t].Claimed? then z.Read(t, LoadIndex(c.threads[t].first, c.threads[t].first + c.threads[t].a)) else z
    else if s.readers[t].Take? then TakeStep(s, t)
    else FindStep(s, t)
  }
}
