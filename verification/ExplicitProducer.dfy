/** The explicit producer as the object it is: its fields updated in place, one access at a time. */
module ExplicitProducer {
  import opened Common
  import opened Blocks
  import C = DequeueCounters
  import opened Claims
  import opened ExplicitQueue
  import opened ExplicitInvariant
  import opened ExplicitSteps
  import opened ExplicitReads
  import opened ExplicitRuns

  /**
   * `prod` and `readers` are where the producer and the consumers stand, `free` the blocks of the pool. The ghost
   * fields are records for the proofs.
   */
  class Producer<V> {
    const B: nat
    const limit: Option<nat>
    const counters: C.Counters
    var blockIndex: seq<Index>
    var blockIndexFront: nat
    var blockIndexSlotsUsed: nat
    var blocks: seq<Block<V>>
    var free: set<nat>
    var tailBlock: Option<nat>
    var prod: Prod<V>
    var readers: seq<Reader>
    ghost var enq: seq<V>
    ghost var out: map<nat, V>
    ghost var ring: seq<nat>
    ghost var blockOf: seq<nat>
    ghost var doneIn: seq<set<nat>>

    ghost function Snapshot(): State<V>
      reads this, counters, counters.threads
    {
      State(B, limit, counters.Snapshot(), blockIndex, blockIndexFront, blockIndexSlotsUsed, blocks, free, tailBlock,
            prod, readers, enq, out, ring, blockOf, doneIn)
    }

    ghost predicate Valid()
      reads this, counters, counters.threads
    {
      Inv(Snapshot())
    }

    constructor (B: nat, limit: Option<nat>, size: nat, pool: nat, n: nat)
      requires B > 0 && size > 0
      ensures Valid() && Snapshot() == Init(B, limit, size, pool, n) && fresh(counters) && fresh(counters.threads)
    {
      this.B, this.limit := B, limit;
      counters := new C.Counters(n);
      blockIndex := [Index(size, -1, Unset(size), 0)];
      blockIndexFront, blockIndexSlotsUsed, tailBlock, prod := 0, 0, None, EIdle;
      blocks := seq(pool, _ => Block(Cells<V>(B), {}, 0));
      free := Range(0, pool);
      readers := seq(n, _ => NotReading);
      enq, out, ring, blockOf, doneIn := [], map[], [], [], [];
      new;
      InitInv<V>(B, limit, size, pool, n);
      assert Snapshot() == Init(B, limit, size, pool, n);
    }

    /** The index `new_block_index` makes: the slots used are copied, oldest first, up to the front slot. */
    static method NewBlockIndex(g: Index, front: nat, used: nat, oldest: nat) returns (z: Index)
      requires g.size > 0 && |g.entries| == g.size && 0 < used <= g.size && front < g.size
      ensures z == Doubled(g, front, used, oldest)
    {
      hide Wrap;
      var entries := new Entry[2 * g.size](_ => Entry(0, None));
      var i, j := Wrap(g.size, front - used), 0;
      while j < used
        invariant 0 <= j <= used && i == Wrap(g.size, front - used + j)
        invariant forall k :: 0 <= k < j ==> entries[k] == g.entries[Wrap(g.size, front - used + k)]
        invariant forall k :: j <= k < entries.Length ==> entries[k] == Entry(0, None)
      {
        entries[j] := g.entries[i];
        WrapAdd(g.size, front - used + j, 1);
        i := Wrap(g.size, i + 1);
        j := j + 1;
      }
      z := Index(2 * g.size, used - 1, entries[..], -(oldest as int));
      assert entries[..] == Doubled(g, front, used, oldest).entries;
    }

    /** Reusing the oldest block if it is empty. */
    method Reuse(ghost ok: bool, ghost id: nat)
      requires Snapshot().Wf() && prod.ENext?
      requires tailBlock.Some? ==> tailBlock.value < |blocks| && blocks[tailBlock.value].next < |blocks| && ring != []
      modifies this`prod, this`tailBlock, this`ring, this`blockOf, this`doneIn
      ensures Snapshot() == BlockStep(old(Snapshot()), ok, id)
    {
      hide C.Counters.Snapshot;
      if tailBlock.Some? && |blocks[blocks[tailBlock.value].next].emptied| == B {
        var next := blocks[tailBlock.value].next;
        tailBlock := Some(next);
        ring, blockOf, doneIn := ring[1..] + [ring[0]], blockOf + [next], doneIn + [{}];
        prod := EReset(prod.v);
      } else {
        prod := EHead(prod.v);
      }
    }

    method ResetEmpty(ghost ok: bool, ghost id: nat)
      requires Snapshot().Wf() && prod.EReset? && tailBlock.Some? && tailBlock.value < |blocks|
      modifies this`prod, this`blocks
      ensures Snapshot() == BlockStep(old(Snapshot()), ok, id)
    {
      hide C.Counters.Snapshot;
      var b := tailBlock.value;
      blocks := blocks[b := blocks[b].(emptied := {})];
      prod := EWrite(prod.v);
    }

    /** The leeway and size checks, against the head index loaded here. */
    method CheckRoom(ghost ok: bool, ghost id: nat)
      requires Snapshot().Wf() && prod.EHead?
      modifies this`prod
      ensures Snapshot() == BlockStep(old(Snapshot()), ok, id)
    {
      var head, tail := counters.headIndex, counters.tailIndex;
      var full := !(head < tail + B) || (limit.Some? && (limit.value == 0 || limit.value - B < tail - head));
      if full {
        prod := EIdle;
      } else {
        prod := if blockIndexSlotsUsed == blockIndex[|blockIndex| - 1].size then EGrow(prod.v) else ETake(prod.v);
      }
    }

    /** `ok` is whether there is memory for a larger index. */
    method Grow(ok: bool, ghost id: nat)
      requires Snapshot().Wf() && prod.EGrow?
      requires 0 < blockIndexSlotsUsed <= blockIndex[|blockIndex| - 1].size && blockIndexSlotsUsed <= |blockOf|
      requires |blockOf| == Ceil(B, counters.tailIndex)
      requires blockIndexFront < blockIndex[|blockIndex| - 1].size
      modifies this`prod, this`blockIndex, this`blockIndexFront
      ensures Snapshot() == BlockStep(old(Snapshot()), ok, id)
    {
      hide C.Counters.Snapshot, Doubled, Ceil;
      if !ok {
        prod := EIdle;
      } else {
        var z := NewBlockIndex(blockIndex[|blockIndex| - 1], blockIndexFront, blockIndexSlotsUsed,
          Ceil(B, counters.tailIndex) - blockIndexSlotsUsed);
        blockIndex := blockIndex + [z];
        blockIndexFront := blockIndexSlotsUsed;
        prod := ETake(prod.v);
      }
    }

    /** `requisition_block`, answered with block `id` of the pool or a new one; then `reset_empty`. */
    method Requisition(id: nat) returns (b: nat)
      modifies this`blocks, this`free
      ensures b == (if id in old(free) && id < |old(blocks)| then id else |old(blocks)|) < |blocks|
      ensures blocks == WithFresh(old(Snapshot()), b) && free == old(free) - {b}
    {
      hide C.Counters.Snapshot;
      b := if id in free && id < |blocks| then id else |blocks|;
      blocks := if b < |blocks| then blocks[b := Block(Cells<V>(B), {}, b)] else blocks + [Block(Cells<V>(B), {}, b)];
      free := free - {b};
    }

    method RequisitionLinked(id: nat) returns (b: nat)
      modifies this`blocks, this`free
      ensures b == if id in old(free) && id < |old(blocks)| then id else |old(blocks)|
      ensures b < |WithFresh(old(Snapshot()), b)|
      ensures Snapshot() == old(Snapshot()).(blocks := Linked(WithFresh(old(Snapshot()), b), tailBlock, b),
        free := old(free) - {b})
    {
      hide C.Counters.Snapshot, Linked, WithFresh;
      b := Requisition(id);
      LinkIn(b);
    }

    /** Block `b`, already linked in, is the new tail block. */
    method AppendBlock(b: nat)
      requires prod.ETake?
      modifies this`prod, this`blockIndexSlotsUsed, this`tailBlock, this`ring, this`blockOf, this`doneIn
      ensures Snapshot() ==
        Started(old(Snapshot()).(used := old(blockIndexSlotsUsed) + 1), b, old(ring) + [b])
          .(prod := EWrite(old(prod).v))
    {
      hide C.Counters.Snapshot;
      blockIndexSlotsUsed, tailBlock := blockIndexSlotsUsed + 1, Some(b);
      ring, blockOf, doneIn := ring + [b], blockOf + [b], doneIn + [{}];
      prod := EWrite(prod.v);
    }

    /** A block from the pool, linked in behind the tail block. */
    method TakeBlock(id: nat)
      requires Snapshot().Wf() && prod.ETake?
      modifies this`prod, this`blocks, this`free, this`blockIndexSlotsUsed, this`tailBlock, this`ring, this`blockOf,
        this`doneIn
      ensures Snapshot() == BlockStep(old(Snapshot()), true, id)
    {
      hide C.Counters.Snapshot, Linked, WithFresh, BlockStep;
      PoolStepIs(Snapshot(), id, if id in free && id < |blocks| then id else |blocks|);
      var b := RequisitionLinked(id);
      AppendBlock(b);
    }

    method LinkIn(b: nat)
      requires b < |blocks|
      modifies this`blocks
      ensures blocks == Linked(old(blocks), tailBlock, b)
    {
      if tailBlock.None? || tailBlock.value >= |blocks| {
        blocks := blocks[b := blocks[b].(next := b)];
      } else {
        var t := tailBlock.value;
        blocks := blocks[b := blocks[b].(next := blocks[t].next)];
        blocks := blocks[t := blocks[t].(next := b)];
      }
    }

    method GiveUp(ghost id: nat)
      requires Snapshot().Wf() && prod.ETake?
      modifies this`prod
      ensures Snapshot() == BlockStep(old(Snapshot()), false, id)
    {
      hide C.Counters.Snapshot;
      prod := EIdle;
    }

    /** Listing the new block in the slot at the front of the index. */
    method WriteEntry()
      requires Snapshot().Wf() && prod.EWrite? && blockIndexFront < blockIndex[|blockIndex| - 1].size
      modifies this`prod, this`blockIndex
      ensures Snapshot() == ListStep(old(Snapshot()))
    {
      var cur := |blockIndex| - 1;
      var g := blockIndex[cur];
      blockIndex := blockIndex[cur := g.(entries :=
        g.entries[blockIndexFront := Entry(counters.tailIndex, tailBlock)])];
      prod := EFront(prod.v);
    }

    method StoreFront()
      requires Snapshot().Wf() && prod.EFront?
      modifies this`prod, this`blockIndex, this`blockIndexFront
      ensures Snapshot() == ListStep(old(Snapshot()))
    {
      hide C.Counters.Snapshot, Wrap;
      var cur := |blockIndex| - 1;
      var g := blockIndex[cur];
      blockIndex := blockIndex[cur := g.(front := blockIndexFront)];
      blockIndexFront := Wrap(g.size, blockIndexFront + 1);
      prod := EBuild(prod.v);
    }

    method Begin(v: V, ghost ok: bool, ghost id: nat)
      requires Snapshot().Wf() && prod.EIdle?
      modifies this`prod
      ensures Snapshot() == ProdStep(old(Snapshot()), v, ok, id)
    {
      prod := if Slot(B, counters.tailIndex) == 0 then ENext(v) else EBuild(v);
    }

    method Construct(ghost v: V, ghost ok: bool, ghost id: nat)
      requires Snapshot().Wf() && prod.EBuild? && tailBlock.Some? && tailBlock.value < |blocks|
      requires Slot(B, counters.tailIndex) < |blocks[tailBlock.value].cells|
      modifies this`prod, this`blocks
      ensures Snapshot() == ProdStep(old(Snapshot()), v, ok, id)
    {
      hide Slot;
      var b, o := tailBlock.value, Slot(B, counters.tailIndex);
      blocks := blocks[b := blocks[b].(cells := blocks[b].cells[o := Some(prod.v)])];
      prod := EPublish(prod.v);
    }

    method Publish(ghost v: V, ghost ok: bool, ghost id: nat)
      requires Snapshot().Wf() && prod.EPublish? && counters.Valid()
      modifies this`prod, this`enq, counters`tailIndex
      ensures Snapshot() == ProdStep(old(Snapshot()), v, ok, id)
    {
      counters.StoreTail(1);
      enq := enq + [prod.v];
      prod := EIdle;
    }

    // -------------------------------------------------------------- consumers

    /** The counters of a dequeue; a claim ends it. */
    method Claim(t: nat, max: nat)
      requires Snapshot().Wf() && counters.Valid() && t < |readers| && readers[t].NotReading?
      modifies this`readers, counters, counters.threads
      ensures Snapshot() == ConsStep(old(Snapshot()), t, max) && counters.Valid()
    {
      hide C.Step, C.Inv;
      counters.Advance(t, max);
      match counters.threads[t] {
        case Claimed(first, a) => readers := readers[t := LoadIndex(first, first + a)];
        case _ =>
      }
    }

    /** Finding the block of a claimed index, one load at a time. */
    method Find(t: nat)
      requires Snapshot().Wf() && t < |readers| && Finding(readers[t])
      modifies this`readers
      ensures Snapshot() == FindStep(old(Snapshot()), t)
    {
      hide Lookup, C.Counters.Snapshot;
      match readers[t]
      case LoadIndex(i, e) => readers := readers[t := LoadFront(i, e, |blockIndex| - 1)];
      case LoadFront(i, e, hd) =>
        if hd < |blockIndex| && blockIndex[hd].front >= 0 {
          readers := readers[t := LoadBase(i, e, hd, blockIndex[hd].front)];
        }
      case LoadBase(i, e, hd, f) =>
        if hd < |blockIndex| && f < blockIndex[hd].size {
          readers := readers[t := LoadBlock(i, e, hd,
            Lookup(B, blockIndex[hd].size, f, blockIndex[hd].entries[f].base, i))];
        }
      case LoadBlock(i, e, hd, idx) =>
        if hd < |blockIndex| && idx < blockIndex[hd].size {
          var block := blockIndex[hd].entries[idx].block;
          if block.Some? {
            readers := readers[t := Take(i, i, e, hd, idx, block.value)];
          }
        }
    }

    /** Moving one element out of its slot. */
    method MoveOut(t: nat)
      requires Snapshot().Wf() && t < |readers| && Taking(Snapshot(), t)
      requires var r := readers[t];
        && BlockNo(B, r.i0) < |doneIn| && r.hd < |blockIndex| && r.b < |blocks|
        && Slot(B, r.i) < |blocks[r.b].cells| && blocks[r.b].cells[Slot(B, r.i)].Some?
      modifies this`readers, this`blocks, this`out
      ensures Snapshot() == TakeStep(old(Snapshot()), t)
    {
      hide BlockNo, Base, Slot, C.Counters.Snapshot;
      var Take(i0, i, e, hd, idx, b) := readers[t];
      var o := Slot(B, i);
      var v := blocks[b].cells[o].value;
      blocks := blocks[b := blocks[b].(cells := blocks[b].cells[o := None])];
      out := out[i := v];
      readers := readers[t := Take(i0, i + 1, e, hd, idx, b)];
    }

    /** On to the next claimed block, or done. */
    method Leave(t: nat, i: nat, e: nat, hd: nat, idx: nat)
      requires Snapshot().Wf() && t < |readers| && hd < |blockIndex| && counters.Valid() && counters.threads[t].Claimed?
      modifies this`readers, counters.threads
      ensures Snapshot() == AfterBlock(old(Snapshot()), t, i, e, hd, idx) && counters.Valid()
    {
      hide Wrap, C.Inv;
      if i == e {
        counters.FinishClaim(t);
        readers := readers[t := NotReading];
      } else {
        readers := readers[t := LoadBlock(i, e, hd, Wrap(blockIndex[hd].size, idx + 1))];
      }
    }

    /** `set_many_empty` for the part of the block taken. */
    method FinishPart(t: nat)
      requires Snapshot().Wf() && t < |readers| && readers[t].Take? && !Taking(Snapshot(), t)
      requires counters.Valid() && counters.threads[t].Claimed?
      requires var r := readers[t]; r.hd < |blockIndex| && r.b < |blocks| && r.i0 <= r.i
      modifies this`readers, this`blocks, this`doneIn, counters.threads
      ensures Snapshot() == TakeStep(old(Snapshot()), t) && counters.Valid()
    {
      hide BlockNo, Base, Slot, Range, AfterBlock, C.Inv, C.Counters.Snapshot;
      var Take(i0, i, e, hd, idx, b) := readers[t];
      var k := BlockNo(B, i0);
      var part: set<nat> := Range(Slot(B, i0), i - i0);
      LastStepIs(Snapshot(), t, k, Slot(B, i0), part);
      hide TakeStep, MarkDone;
      blocks := blocks[b := blocks[b].(emptied := blocks[b].emptied + part)];
      doneIn := MarkDone(doneIn, k, part);
      Leave(t, i, e, hd, idx);
    }

    // -------------------------------------------------------------- any step

    /** One step of the producer; when idle it begins `enqueue(v)`. */
    method Produce(v: V, ok: bool, id: nat)
      requires Valid()
      modifies this, counters`tailIndex
      ensures Valid() && Snapshot() == ProdStep(old(Snapshot()), v, ok, id)
    {
      hide Inv, BlockStep, ListStep, Slot, C.Inv;
      ghost var s := Snapshot();
      ProducerReady(s);
      ProdStepKeepsInv(s, v, ok, id);
      if prod.EIdle? {
        Begin(v, ok, id);
      } else if prod.EBuild? {
        Construct(v, ok, id);
      } else if prod.EPublish? {
        Publish(v, ok, id);
      } else if prod.EWrite? {
        WriteEntry();
      } else if prod.EFront? {
        StoreFront();
      } else {
        StartBlock(ok, id);
      }
    }

    method StartBlock(ok: bool, id: nat)
      requires Snapshot().Wf() && ProducerAble(Snapshot())
      requires prod.ENext? || prod.EReset? || prod.EHead? || prod.EGrow? || prod.ETake?
      modifies this
      ensures Snapshot() == BlockStep(old(Snapshot()), ok, id)
    {
      hide BlockStep;
      match prod
      case ENext(_) => Reuse(ok, id);
      case EReset(_) => ResetEmpty(ok, id);
      case EHead(_) => CheckRoom(ok, id);
      case EGrow(_) => Grow(ok, id);
      case ETake(_) => if ok { TakeBlock(id); } else { GiveUp(id); }
    }

    /** One step of consumer `t`; when idle it asks for up to `max` elements. */
    method Consume(t: nat, max: nat)
      requires Valid() && t < |readers|
      modifies this, counters, counters.threads
      ensures Valid() && Snapshot() == ConsStep(old(Snapshot()), t, max)
    {
      hide Inv, TakeStep, FindStep, C.Step, C.Inv, BlockNo, Slot, Base;
      ghost var s := Snapshot();
      ConsumerReady(s, t);
      if readers[t].Take? && (readers[t].b >= |blocks| || readers[t].hd >= |blockIndex|) {
        TakeStuck(s, t);
      }
      ConsStepKeepsInv(s, t, max);
      var r := readers[t];
      if r.NotReading? {
        Claim(t, max);
      } else if r.Take? {
        if r.i < r.e && r.i < Base(B, BlockNo(B, r.i0) + 1) {
          MoveOut(t);
        } else if r.b < |blocks| && r.hd < |blockIndex| {
          FinishPart(t);
        }
      } else {
        Find(t);
      }
    }
  }

  /** What the producer's steps rely on, at the places that do. */
  ghost predicate ProducerAble<V>(s: State<V>)
    requires s.Wf()
  {
    && C.Inv(s.c)
    && (s.prod.ENext? && s.tailBlock.Some? ==>
          s.tailBlock.value < |s.blocks| && s.blocks[s.tailBlock.value].next < |s.blocks| && s.ring != [])
    && (s.prod.EReset? || s.prod.EBuild? ==> s.tailBlock.Some? && s.tailBlock.value < |s.blocks|)
    && (s.prod.EGrow? ==> 0 < s.used <= s.indices[s.Cur()].size && s.used <= |s.blockOf| == s.K0())
    && s.prFront < s.indices[s.Cur()].size
    && (s.prod.EBuild? ==> Slot(s.B, s.c.tail) < |s.blocks[s.tailBlock.value].cells|)
  }

  lemma ProducerReady<V>(s: State<V>)
    requires Inv(s)
    ensures s.Wf() && ProducerAble(s)
  {
    hide Inv, C.Inv, Owns, Filled, Marks, Readers, Ceil, Slot, BlockNo, Order, Links, Wrap, Entered;
    Pieces(s);
    RingApart(s);
    if s.used > 0 {
      TailIs(s);
      RingRotates(s.blocks, s.ring, s.tailBlock, s.used, s.blockOf);
    }
    if s.prod.EBuild? {
      BuildReady(s);
      FilledBuild(s.B, s.blocks, s.used, s.blockOf, s.doneIn, s.c.tail, s.enq, s.out, s.prod.v);
    }
  }

  lemma TakeStuck<V>(s: State<V>, t: nat)
    requires s.Wf() && t < |s.readers| && s.readers[t].Take?
    requires s.readers[t].b >= |s.blocks| || s.readers[t].hd >= |s.indices|
    ensures TakeStep(s, t) == s
  {
    hide BlockNo, Slot, Base, AfterBlock, Range;
  }

  /** What the steps of consumer `t` rely on. */
  ghost predicate ConsumerAble<V>(s: State<V>, t: nat)
    requires s.Wf() && t < |s.readers|
  {
    var r := s.readers[t];
    && C.Inv(s.c) && t < |s.c.threads| && (!r.NotReading? ==> s.c.threads[t].Claimed?)
    && (r.Take? ==> r.i0 <= r.i)
    && (r.Take? && !EmptyHanded(r) ==> BlockNo(s.B, r.i0) < |s.doneIn| && r.hd < |s.indices| && r.b < |s.blocks|)
    && (r.Take? && Taking(s, t) ==>
          r.b < |s.blocks| && Slot(s.B, r.i) < |s.blocks[r.b].cells| && s.blocks[r.b].cells[Slot(s.B, r.i)].Some?)
  }

  lemma ConsumerReady<V>(s: State<V>, t: nat)
    requires Inv(s) && t < |s.readers|
    ensures s.Wf() && ConsumerAble(s, t)
  {
    hide Inv, C.Inv, Lists, RingOk, Owns, Filled, Marks, ProdOk, Taken, Readers, Base, BlockNo, Slot, Ceil, Reaches,
         Pos, Fin;
    Pieces(s);
    ReaderIs(s, t);
    if s.readers[t].Take? && !EmptyHanded(s.readers[t]) {
      TakeReady(s, t);
      TakeBlockIn(s, t);
      if Taking(s, t) {
        TakeReads(s, t);
      }
    }
  }

  lemma TakeBlockIn<V>(s: State<V>, t: nat)
    requires Inv(s) && t < |s.readers| && s.readers[t].Take? && !EmptyHanded(s.readers[t])
    ensures s.readers[t].b < |s.blocks|
  {
    hide Inv, C.Inv, Lists, RingOk, Owns, Marks, ProdOk, Taken, Readers, Base, BlockNo, Slot, Ceil, Reaches, Pos, Fin,
         Claim;
    Pieces(s);
    TakeReady(s, t);
  }
}
