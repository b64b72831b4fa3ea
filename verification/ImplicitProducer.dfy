/** The implicit producer as the object it is: its fields updated in place, one access at a time. */
module ImplicitProducer {
  import opened Common
  import opened Blocks
  import C = DequeueCounters
  import opened Claims
  import opened ImplicitQueue
  import opened ImplicitInvariant
  import opened ImplicitProducerSteps
  import opened ImplicitFillSteps
  import opened ImplicitConsumerSteps
  import opened ImplicitRuns

  /**
   * `prod` and `readers` are where the producer and the consumers stand, `free` the blocks of the pool. The ghost
   * fields are records for the proofs.
   */
  class Producer<V> {
    const B: nat
    const limit: Option<nat>
    const counters: C.Counters
    var blockIndex: seq<Header>
    var entries: seq<Entry>
    var blocks: seq<Block<V>>
    var free: set<nat>
    var tailBlock: Option<nat>
    var prod: Prod<V>
    var readers: seq<Reader>
    ghost var enq: seq<V>
    ghost var out: map<nat, V>
    ghost var ins: nat
    ghost var entryOf: seq<nat>
    ghost var low: nat
    ghost var blockOf: seq<nat>
    ghost var phase: seq<Phase>
    ghost var finIn: seq<set<nat>>

    ghost function Snapshot(): State<V>
      reads this, counters, counters.threads
    {
      State(B, limit, counters.Snapshot(), blockIndex, entries, blocks, free, tailBlock, prod, readers,
            enq, out, ins, entryOf, low, blockOf, phase, finIn)
    }

    ghost predicate Valid()
      reads this, counters, counters.threads
    {
      Inv(Snapshot())
    }

    constructor (B: nat, limit: Option<nat>, capacity: nat, n: nat)
      requires B > 0 && capacity > 0
      ensures Valid() && Snapshot() == Init(B, limit, capacity, n) && fresh(counters) && fresh(counters.threads)
    {
      this.B, this.limit := B, limit;
      counters := new C.Counters(n);
      blockIndex := [Header(capacity, capacity - 1, seq(capacity, (p: nat) => p), 0)];
      entries := seq(capacity, _ => Entry(None, None));
      blocks, free, tailBlock, prod := [], {}, None, PIdle;
      readers := seq(n, _ => NotReading);
      enq, out, ins, entryOf, low, blockOf, phase, finIn := [], map[], 0, [], 0, [], [], [];
      new;
      InitInv<V>(B, limit, capacity, n);
      assert Snapshot() == Init(B, limit, capacity, n);
    }

    /** The header `new_block_index` makes: the old slots are copied from the one after the tail on, around the ring. */
    static method NewBlockIndex(prev: Header, ins: nat, n: nat) returns (header: Header)
      requires prev.cap > 0 && |prev.index| == prev.cap && prev.tail < prev.cap
      ensures header == Doubled(prev, ins, n)
    {
      hide Wrap;
      WrapSmall(prev.cap, prev.tail);
      var index := new nat[2 * prev.cap](_ => 0);
      var prevPos, i := prev.tail, 0;
      while i < prev.cap
        invariant 0 <= i <= prev.cap && prevPos == Wrap(prev.cap, prev.tail + i)
        invariant forall p :: 0 <= p < i ==> index[p] == SlotOf(prev, n, p)
      {
        WrapAdd(prev.cap, prev.tail + i, 1);
        prevPos := Wrap(prev.cap, prevPos + 1);
        index[i] := prev.index[prevPos];
        i := i + 1;
      }
      for k := 0 to prev.cap
        invariant forall p :: 0 <= p < prev.cap + k ==> index[p] == SlotOf(prev, n, p)
      {
        index[prev.cap + k] := n + k;
      }
      header := Header(2 * prev.cap, prev.cap - 1, index[..], prev.cap - ins);
      assert index[..] == Doubled(prev, ins, n).index;
    }

    /** Looking for a slot, or growing for one; `ok` is whether there is memory for a larger index. */
    method FindSlot(ok: bool)
      requires Snapshot().Wf() && (prod.PIndex? || prod.PGrow?)
      requires blockIndex[|blockIndex| - 1].tail < blockIndex[|blockIndex| - 1].cap
      requires prod.PGrow? ==> ins == Ceil(B, counters.tailIndex) + |prod.got|
      modifies this`prod, this`entries, this`blockIndex
      ensures Snapshot() == InsertStep(old(Snapshot()), ok)
    {
      hide Doubled, Wrap, Base, Ceil, C.Counters.Snapshot;
      var h := blockIndex[|blockIndex| - 1];
      match prod
      case PIndex(vs, got) =>
        var slot := Wrap(h.cap, h.tail + 1);
        var e := h.index[slot];
        if e < |entries| && (entries[e].key.None? || entries[e].value.None?) {
          prod := PKey(vs, got, e, slot);
        } else {
          prod := PGrow(vs, got);
        }
      case PGrow(vs, got) =>
        if ok {
          var header := NewBlockIndex(h, Ceil(B, counters.tailIndex) + |got|, |entries|);
          entries := entries + seq(h.cap, _ => Entry(None, None));
          blockIndex := blockIndex + [header];
          prod := PIndex(vs, got);
        } else {
          prod := PUndo(vs, got, 0);
        }
    }

    /** Keying the slot found. */
    method StoreKey(ghost ok: bool)
      requires Snapshot().Wf() && prod.PKey? && prod.e < |entries|
      modifies this`prod, this`entries, this`low
      ensures Snapshot() == InsertStep(old(Snapshot()), ok)
    {
      hide Wrap, Base, Ceil;
      var h := blockIndex[|blockIndex| - 1];
      var PKey(vs, got, e, slot) := prod;
      var k := Ceil(B, counters.tailIndex) + |got|;
      entries := entries[e := entries[e].(key := Some(Base(B, k)))];
      low := if k < low + h.cap then low else k + 1 - h.cap;
      prod := PTail(vs, got, e, slot);
    }

    method StoreIndexTail(ghost ok: bool)
      requires Snapshot().Wf() && prod.PTail?
      modifies this`prod, this`blockIndex, this`entryOf, this`ins
      ensures Snapshot() == InsertStep(old(Snapshot()), ok)
    {
      hide Wrap, C.Counters.Snapshot;
      var cur := |blockIndex| - 1;
      var PTail(vs, got, e, slot) := prod;
      blockIndex := blockIndex[cur := blockIndex[cur].(tail := slot)];
      entryOf, ins := entryOf + [e], ins + 1;
      prod := PBlock(vs, got, e);
    }

    /** `requisition_block`, answered with block `id` of the pool, a new one, or none; then `reset_empty`. */
    method Requisition(ok: bool, id: nat)
      requires Snapshot().Wf() && prod.PBlock?
      modifies this`prod, this`blocks, this`free
      ensures Snapshot() == BlockStep(old(Snapshot()), ok, id)
    {
      hide Wrap, C.Counters.Snapshot;
      var PBlock(vs, got, e) := prod;
      if !ok {
        prod := PRewind(vs, got, e);
      } else if id in free && id < |blocks| {
        blocks := blocks[id := Block(Empty<V>(B), 0)];
        free := free - {id};
        prod := PValue(vs, got, e, id);
      } else {
        prod := PValue(vs, got, e, |blocks|);
        blocks := blocks + [Block(Empty<V>(B), 0)];
      }
    }

    method StoreValue(ghost ok: bool, ghost id: nat)
      requires Snapshot().Wf() && prod.PValue? && prod.e < |entries|
      modifies this`prod, this`entries, this`blockOf, this`phase, this`finIn
      ensures Snapshot() == BlockStep(old(Snapshot()), ok, id)
    {
      hide Wrap, C.Counters.Snapshot;
      var PValue(vs, got, e, b) := prod;
      entries := entries[e := entries[e].(value := Some(b))];
      blockOf, phase, finIn := blockOf + [b], phase + [Open], finIn + [{}];
      prod := PNext(vs, got + [b]);
    }

    method RewindBlockIndexTail()
      requires Snapshot().Wf() && ins > 0
      modifies this`blockIndex, this`ins
      ensures var h := old(blockIndex)[|old(blockIndex)| - 1];
        blockIndex == old(blockIndex)[|old(blockIndex)| - 1 := h.(tail := Wrap(h.cap, h.tail - 1))]
          && ins == old(ins) - 1
    {
      var cur := |blockIndex| - 1;
      var h := blockIndex[cur];
      blockIndex := blockIndex[cur := h.(tail := Wrap(h.cap, h.tail - 1))];
      ins := ins - 1;
    }

    method RewindFailed(ghost ok: bool, ghost id: nat)
      requires Snapshot().Wf() && prod.PRewind? && ins > 0
      modifies this`prod, this`blockIndex, this`ins
      ensures Snapshot() == BlockStep(old(Snapshot()), ok, id)
    {
      hide Wrap, C.Counters.Snapshot;
      RewindBlockIndexTail();
      prod := PClear(prod.vs, prod.got, prod.e);
    }

    method ClearFailed(ghost ok: bool, ghost id: nat)
      requires Snapshot().Wf() && prod.PClear? && prod.e < |entries|
      modifies this`prod, this`entries
      ensures Snapshot() == BlockStep(old(Snapshot()), ok, id)
    {
      hide Wrap, C.Counters.Snapshot;
      var e := prod.e;
      entries := entries[e := entries[e].(value := None)];
      prod := PUndo(prod.vs, prod.got, 0);
    }

    /** `get_block_index_entry_for_index`, called by the producer for the base of block number `k`. */
    method GetOwnEntry(k: nat) returns (e: nat)
      requires Snapshot().Wf() && OwnEntry(Snapshot(), k).Some?
      ensures e == OwnEntry(Snapshot(), k).value
    {
      hide Base, BlockNo;
      var h := blockIndex[|blockIndex| - 1];
      e := h.index[Lookup(B, h.cap, h.tail, entries[h.index[h.tail]].key.value, Base(B, k))];
    }

    /** The undo loop: clear an entry already given its block. */
    method UndoValue()
      requires Snapshot().Wf() && prod.PUndo?
      requires prod.j < |prod.got| ==>
        var k := Ceil(B, counters.tailIndex) + prod.j;
        OwnEntry(Snapshot(), k).Some? && OwnEntry(Snapshot(), k).value < |entries| && k < |phase|
      modifies this`prod, this`entries, this`phase
      ensures Snapshot() == UndoStep(old(Snapshot()))
    {
      hide Ceil, OwnEntry;
      var PUndo(vs, got, j) := prod;
      if j >= |got| {
        prod := PGive(vs, got, 0);
      } else {
        var k := Ceil(B, counters.tailIndex) + j;
        var e := GetOwnEntry(k);
        entries := entries[e := entries[e].(value := None)];
        phase := phase[k := Void];
        prod := PUndoTail(vs, got, j);
      }
    }

    method UndoIndexTail()
      requires Snapshot().Wf() && prod.PUndoTail? && ins > 0
      modifies this`prod, this`blockIndex, this`ins
      ensures Snapshot() == UndoStep(old(Snapshot()))
    {
      hide Wrap, C.Counters.Snapshot, Ceil;
      RewindBlockIndexTail();
      prod := PUndo(prod.vs, prod.got, prod.j + 1);
    }

    /** `add_blocks_to_free_list`: one block of the chain. */
    method GiveOne()
      requires Snapshot().Wf() && prod.PGive? && prod.j < |prod.got| && Ceil(B, counters.tailIndex) + prod.j < |phase|
      modifies this`prod, this`free, this`phase
      ensures Snapshot() == UndoStep(old(Snapshot()))
    {
      hide Ceil;
      var PGive(vs, got, j) := prod;
      free := free + {got[j]};
      phase := phase[Ceil(B, counters.tailIndex) + j := Gone];
      prod := PGive(vs, got, j + 1);
    }

    /** The end of a failed enqueue. */
    method Fail()
      requires Snapshot().Wf() && prod.PGive? && prod.j >= |prod.got|
      requires Ceil(B, counters.tailIndex) <= |blockOf| && Ceil(B, counters.tailIndex) <= |entryOf|
      modifies this`prod, this`phase, this`blockOf, this`finIn, this`entryOf
      ensures Snapshot() == UndoStep(old(Snapshot()))
    {
      hide Ceil;
      var k0 := Ceil(B, counters.tailIndex);
      blockOf, phase, finIn, entryOf := blockOf[..k0], phase[..k0], finIn[..k0], entryOf[..k0];
      prod := PIdle;
    }

    /** Constructing one element in its slot. */
    method Construct()
      requires Snapshot().Wf() && prod.PBuild?
      requires prod.i < |prod.vs| ==>
        var b := Target(Snapshot(), prod.got, counters.tailIndex + prod.i);
        b.Some? && b.value < |blocks| && Slot(B, counters.tailIndex + prod.i) < |blocks[b.value].cells|
      modifies this`prod, this`blocks
      ensures Snapshot() == FillStep(old(Snapshot()))
    {
      hide Ceil, BlockNo, Slot;
      var PBuild(vs, got, i) := prod;
      if i >= |vs| {
        prod := PPublish(vs, got);
      } else {
        var x := counters.tailIndex + i;
        var k, k0 := BlockNo(B, x), Ceil(B, counters.tailIndex);
        var b := if k < k0 then tailBlock.value else got[k - k0];
        blocks := blocks[b := blocks[b].(cells := blocks[b].cells[Slot(B, x) := Some(vs[i])])];
        prod := PBuild(vs, got, i + 1);
      }
    }

    /** The one store of the tail index that publishes the bulk. */
    method PublishBulk()
      requires Snapshot().Wf() && prod.PPublish? && counters.Valid()
      modifies this`prod, this`enq, this`tailBlock, counters`tailIndex
      ensures Snapshot() == FillStep(old(Snapshot()))
    {
      var PPublish(vs, got) := prod;
      counters.StoreTail(|vs|);
      enq := enq + vs;
      tailBlock := if got == [] then tailBlock else Some(got[|got| - 1]);
      prod := PIdle;
    }

    /** Beginning `enqueue_bulk`, and the head of its block loop. */
    method Decide(vs: seq<V>, ghost ok: bool, ghost id: nat)
      requires Snapshot().Wf() && (prod.PIdle? || prod.PNext?)
      modifies this`prod
      ensures Snapshot() == ProdStep(old(Snapshot()), vs, ok, id)
    {
      hide Ceil, Base;
      match prod
      case PIdle => prod := PNext(vs, []);
      case PNext(ws, got) =>
        var k := Ceil(B, counters.tailIndex) + |got|;
        if k >= Ceil(B, counters.tailIndex + |ws|) {
          prod := PBuild(ws, got, 0);
        } else {
          var head := counters.headIndex;
          var over := limit.Some? && (limit.value == 0 || limit.value - B < Base(B, k) - head);
          var full := !(head < Base(B, k) + B) || over;
          prod := if full then PUndo(ws, got, 0) else PIndex(ws, got);
        }
    }

    // -------------------------------------------------------------- consumers

    /** The counters of a dequeue; a claim ends it. */
    method Claim(t: nat, max: nat)
      requires Snapshot().Wf() && counters.Valid() && t < |readers| && readers[t].NotReading?
      modifies this`readers, counters, counters.threads
      ensures Snapshot() == ConsStep(old(Snapshot()), t, max) && counters.Valid()
    {
      hide C.Step, C.Inv;
      counters.Advance(t, max);
      match counters.threads[t] {
        case Claimed(first, a) => readers := readers[t := LoadIndex(first, first + a)];
        case _ =>
      }
    }

    /** `get_block_index_index_for_index`, one load at a time, and the load of the entry's value. */
    method Find(t: nat)
      requires Snapshot().Wf() && t < |readers|
      requires readers[t].LoadIndex? || readers[t].LoadIndexTail? || readers[t].LoadKey? || readers[t].LoadValue?
      modifies this`readers
      ensures Snapshot() == FindStep(old(Snapshot()), t)
    {
      hide Lookup, C.Counters.Snapshot;
      match readers[t]
      case LoadIndex(i, e) => readers := readers[t := LoadIndexTail(i, e, |blockIndex| - 1)];
      case LoadIndexTail(i, e, hd) =>
        if hd < |blockIndex| {
          readers := readers[t := LoadKey(i, e, hd, blockIndex[hd].tail)];
        }
      case LoadKey(i, e, hd, tp) =>
        if hd < |blockIndex| && tp < blockIndex[hd].cap && blockIndex[hd].index[tp] < |entries| {
          var key := entries[blockIndex[hd].index[tp]].key;
          if key.Some? {
            readers := readers[t := LoadValue(i, e, hd, Lookup(B, blockIndex[hd].cap, tp, key.value, i))];
          }
        }
      case LoadValue(i, e, hd, idx) =>
        if hd < |blockIndex| && idx < blockIndex[hd].cap && blockIndex[hd].index[idx] < |entries| {
          var value := entries[blockIndex[hd].index[idx]].value;
          if value.Some? {
            readers := readers[t := Take(i, i, e, hd, idx, value.value)];
          }
        }
    }

    /** Moving one element out of its slot. */
    method MoveOut(t: nat)
      requires Snapshot().Wf() && t < |readers| && Taking(Snapshot(), t)
      requires var r := readers[t];
        && BlockNo(B, r.i0) < |phase| && r.hd < |blockIndex| && r.b < |blocks|
        && Slot(B, r.i) < |blocks[r.b].cells| && blocks[r.b].cells[Slot(B, r.i)].Some?
      modifies this`readers, this`blocks, this`out
      ensures Snapshot() == TakeStep(old(Snapshot()), t)
    {
      hide BlockNo, Base, Slot, C.Counters.Snapshot;
      var Take(i0, i, e, hd, idx, b) := readers[t];
      var o := Slot(B, i);
      var v := blocks[b].cells[o].value;
      blocks := blocks[b := blocks[b].(cells := blocks[b].cells[o := None])];
      out := out[i := v];
      readers := readers[t := Take(i0, i + 1, e, hd, idx, b)];
    }

    /** `set_many_empty`: true if the slots of `[i0, i)` complete the block. */
    method SetManyEmpty(b: nat, k: nat, i0: nat, i: nat) returns (empty: bool)
      requires Snapshot().Wf() && b < |blocks| && k < |finIn| && i0 <= i
      modifies this`blocks, this`finIn
      ensures blocks == old(blocks)[b := old(blocks)[b].(done := old(blocks)[b].done + (i - i0))]
      ensures finIn == old(finIn)[k := old(finIn)[k] + Range(Slot(B, i0), i - i0)]
      ensures empty <==> blocks[b].done == B
    {
      hide Slot, Range;
      blocks := blocks[b := blocks[b].(done := blocks[b].done + (i - i0))];
      finIn := finIn[k := finIn[k] + Range(Slot(B, i0), i - i0)];
      empty := blocks[b].done == B;
    }

    /** On to the next claimed block, or done. */
    method Leave(t: nat, i: nat, e: nat, hd: nat, idx: nat)
      requires Snapshot().Wf() && t < |readers| && hd < |blockIndex| && counters.Valid() && counters.threads[t].Claimed?
      modifies this`readers, counters.threads
      ensures Snapshot() == AfterBlock(old(Snapshot()), t, i, e, hd, idx) && counters.Valid()
    {
      hide Wrap, C.Inv;
      if i == e {
        counters.FinishClaim(t);
        readers := readers[t := NotReading];
      } else {
        readers := readers[t := LoadValue(i, e, hd, Wrap(blockIndex[hd].cap, idx + 1))];
      }
    }

    /**
     * The last element of its block, or of the claim, has been moved out, and other slots of the block are still in
     * use.
     */
    method FinishPart(t: nat)
      requires Snapshot().Wf() && t < |readers| && readers[t].Take? && !Taking(Snapshot(), t)
      requires counters.Valid() && counters.threads[t].Claimed?
      requires var r := readers[t];
        && BlockNo(B, r.i0) < |phase| && r.hd < |blockIndex| && r.b < |blocks| && r.i0 <= r.i
        && blocks[r.b].done + (r.i - r.i0) != B
      modifies this`readers, this`blocks, this`finIn, counters.threads
      ensures Snapshot() == TakeStep(old(Snapshot()), t) && counters.Valid()
    {
      hide BlockNo, Base, Slot, Range, AfterBlock, C.Inv, C.Counters.Snapshot;
      var Take(i0, i, e, hd, idx, b) := readers[t];
      var empty := SetManyEmpty(b, BlockNo(B, i0), i0, i);
      Leave(t, i, e, hd, idx);
    }

    /** The elements moved out complete the block. */
    method FinishBlock(t: nat)
      requires Snapshot().Wf() && t < |readers| && readers[t].Take? && !Taking(Snapshot(), t)
      requires var r := readers[t];
        && BlockNo(B, r.i0) < |phase| && r.hd < |blockIndex| && r.b < |blocks| && r.i0 <= r.i
        && blocks[r.b].done + (r.i - r.i0) == B
      modifies this`readers, this`blocks, this`finIn, this`phase
      ensures Snapshot() == TakeStep(old(Snapshot()), t)
    {
      hide BlockNo, Base, Slot, Range, AfterBlock, C.Counters.Snapshot;
      var Take(i0, i, e, hd, idx, b) := readers[t];
      var k := BlockNo(B, i0);
      var empty := SetManyEmpty(b, k, i0, i);
      phase := phase[k := Closing(t)];
      readers := readers[t := ClearEntry(k, i, e, hd, idx, b)];
    }

    /** The block is empty: its entry's value is cleared. */
    method ClearEmpty(t: nat)
      requires Snapshot().Wf() && t < |readers| && readers[t].ClearEntry?
      requires var r := readers[t];
        r.hd < |blockIndex| && r.idx < blockIndex[r.hd].cap && blockIndex[r.hd].index[r.idx] < |entries|
          && r.k < |phase|
      modifies this`readers, this`entries, this`phase
      ensures Snapshot() == TakeStep(old(Snapshot()), t)
    {
      hide C.Counters.Snapshot;
      var ClearEntry(k, i, e, hd, idx, b) := readers[t];
      var entry := blockIndex[hd].index[idx];
      entries := entries[entry := entries[entry].(value := None)];
      phase := phase[k := Closed(t)];
      readers := readers[t := Reader.GiveBack(k, i, e, hd, idx, b)];
    }

    /** `add_block_to_free_list`. */
    method FreeBlock(t: nat)
      requires Snapshot().Wf() && t < |readers| && readers[t].GiveBack? && counters.Valid()
        && counters.threads[t].Claimed?
      requires readers[t].hd < |blockIndex| && readers[t].k < |phase|
      modifies this`readers, this`free, this`phase, counters.threads
      ensures Snapshot() == TakeStep(old(Snapshot()), t) && counters.Valid()
    {
      hide AfterBlock, C.Inv, C.Counters.Snapshot;
      var GiveBack(k, i, e, hd, idx, b) := readers[t];
      free := free + {b};
      phase := phase[k := Gone];
      Leave(t, i, e, hd, idx);
    }

    // -------------------------------------------------------------- any step

    /** One step of the producer; when idle it begins `enqueue_bulk(vs)`. */
    method Produce(vs: seq<V>, ok: bool, id: nat)
      requires Valid()
      modifies this, counters`tailIndex
      ensures Valid() && Snapshot() == ProdStep(old(Snapshot()), vs, ok, id)
    {
      hide Inv, InsertStep, BlockStep, UndoStep, FillStep, OwnEntry, Target, Ceil, Slot, C.Inv;
      ghost var s := Snapshot();
      ProducerReady(s);
      ProdStepKeepsInv(s, vs, ok, id);
      if prod.PIdle? || prod.PNext? {
        Decide(vs, ok, id);
      } else if prod.PIndex? || prod.PGrow? || prod.PKey? || prod.PTail? {
        InsertBlockIndexEntry(ok);
      } else if prod.PBlock? || prod.PValue? || prod.PRewind? || prod.PClear? {
        EnterBlock(ok, id);
      } else if prod.PBuild? {
        Construct();
      } else if prod.PPublish? {
        PublishBulk();
      } else {
        Undo();
      }
    }

    /** `insert_block_index_entry`. */
    method InsertBlockIndexEntry(ok: bool)
      requires Snapshot().Wf() && ProducerAble(Snapshot()) && (prod.PIndex? || prod.PGrow? || prod.PKey? || prod.PTail?)
      modifies this
      ensures Snapshot() == InsertStep(old(Snapshot()), ok)
    {
      hide InsertStep;
      match prod
      case PIndex(_, _) => FindSlot(ok);
      case PGrow(_, _) => FindSlot(ok);
      case PKey(_, _, _, _) => StoreKey(ok);
      case PTail(_, _, _, _) => StoreIndexTail(ok);
    }

    method EnterBlock(ok: bool, id: nat)
      requires Snapshot().Wf() && ProducerAble(Snapshot())
        && (prod.PBlock? || prod.PValue? || prod.PRewind? || prod.PClear?)
      modifies this
      ensures Snapshot() == BlockStep(old(Snapshot()), ok, id)
    {
      hide BlockStep;
      match prod
      case PBlock(_, _, _) => Requisition(ok, id);
      case PValue(_, _, _, _) => StoreValue(ok, id);
      case PRewind(_, _, _) => RewindFailed(ok, id);
      case PClear(_, _, _) => ClearFailed(ok, id);
    }

    method Undo()
      requires Snapshot().Wf() && ProducerAble(Snapshot()) && (prod.PUndo? || prod.PUndoTail? || prod.PGive?)
      modifies this
      ensures Snapshot() == UndoStep(old(Snapshot()))
    {
      hide UndoStep, OwnEntry, Ceil;
      match prod
      case PUndo(_, _, _) => UndoValue();
      case PUndoTail(_, _, _) => UndoIndexTail();
      case PGive(_, got, j) => if j < |got| { GiveOne(); } else { Fail(); }
    }

    /**
     * One step of consumer `t`; when idle it asks for up to `max` elements. Asking for none can break the invariant.
     */
    method Consume(t: nat, max: nat)
      requires Valid() && t < |readers|
      modifies this, counters, counters.threads
      ensures Snapshot() == ConsStep(old(Snapshot()), t, max)
      ensures Asks(old(Snapshot()), ImplicitRuns.Consume(t, max)) ==> Valid()
    {
      hide Inv, TakeStep, FindStep, C.Step, C.Inv, BlockNo, Slot, Base;
      ghost var s := Snapshot();
      ConsumerReady(s, t);
      if Asks(s, ImplicitRuns.Consume(t, max)) {
        ConsStepKeepsInv(s, t, max);
      }
      var r := readers[t];
      if r.NotReading? {
        Claim(t, max);
      } else if r.Take? {
        if r.i < r.e && r.i < Base(B, BlockNo(B, r.i0) + 1) {
          MoveOut(t);
        } else if blocks[r.b].done + (r.i - r.i0) == B {
          FinishBlock(t);
        } else {
          FinishPart(t);
        }
      } else if r.ClearEntry? {
        ClearEmpty(t);
      } else if r.GiveBack? {
        FreeBlock(t);
      } else {
        Find(t);
      }
    }
  }

  /** What the producer's steps rely on, at the places that do. */
  ghost predicate ProducerAble<V>(s: State<V>)
    requires s.Wf()
  {
    && s.headers[s.Cur()].tail < s.headers[s.Cur()].cap && C.Inv(s.c)
    && (s.prod.PGrow? ==> s.ins == s.K0() + |s.prod.got|)
    && (s.prod.PKey? || s.prod.PValue? || s.prod.PClear? ==> s.prod.e < |s.entries|)
    && (s.prod.PRewind? || s.prod.PUndoTail? ==> s.ins > 0)
    && (s.prod.PUndo? && s.prod.j < |s.prod.got| ==>
          var k := s.K0() + s.prod.j; OwnEntry(s, k).Some? && OwnEntry(s, k).value < |s.entries| && k < |s.phase|)
    && (s.prod.PGive? ==>
          if s.prod.j < |s.prod.got| then s.K0() + s.prod.j < |s.phase|
            else s.K0() <= |s.blockOf| && s.K0() <= |s.entryOf|)
    && (s.prod.PBuild? && s.prod.i < |s.prod.vs| ==>
          var b := Target(s, s.prod.got, s.c.tail + s.prod.i);
          b.Some? && b.value < |s.blocks| && Slot(s.B, s.c.tail + s.prod.i) < |s.blocks[b.value].cells|)
  }

  lemma ProducerReady<V>(s: State<V>)
    requires Inv(s)
    ensures s.Wf() && ProducerAble(s)
  {
    hide Inv, C.Inv, Heads, Window, Live, Owns, Cells, Marks, Phases, Readers, ProdOk, Filling, OwnEntry, Target, Ceil,
         Slot, BlockNo, Base, Taken, AllOpen, AllAre, NextSlot;
    Pieces(s);
    InvCounters(s);
    BelowItself(s);
    HeadTail(s);
    match s.prod
    case PGrow(_, _) => GrowReady(s);
    case PKey(_, _, _, _) => KeyReady(s);
    case PValue(_, _, _, _) => ValueReady(s);
    case PClear(_, _, _) => ClearReady(s);
    case PRewind(_, _, _) => RewoundOk(s, true, 0);
    case PUndoTail(_, _, _) => UntailedOk(s);
    case PUndo(_, got, j) => if j < |got| { UndoReady(s); UndoFinds(s); }
    case PGive(_, got, j) => if j < |got| { GiveReady(s); }
    case PBuild(vs, _, i) => if i < |vs| { BuildTargets(s); }
    case _ =>
  }

  lemma GrowReady<V>(s: State<V>)
    requires Inv(s) && s.prod.PGrow?
    ensures s.Wf() && s.ins == s.K0() + |s.prod.got|
  {
    hide Inv, Heads, Window, Live, Owns, Cells, Marks, Phases, Readers, Filling, Ceil;
    Pieces(s);
  }

  lemma BuildTargets<V>(s: State<V>)
    requires Inv(s) && s.prod.PBuild? && s.prod.i < |s.prod.vs|
    ensures s.Wf()
    ensures var b := Target(s, s.prod.got, s.c.tail + s.prod.i);
      b.Some? && b.value < |s.blocks| && Slot(s.B, s.c.tail + s.prod.i) < |s.blocks[b.value].cells|
  {
    hide Inv, C.Inv, Heads, Window, Live, Owns, Cells, Marks, Phases, Readers, ProdOk, Filling, Target, BlockNo, Base;
    Pieces(s);
    BuildReady(s);
    Join(s.B, s.c.tail + s.prod.i);
    CellsBuild(s.B, |s.blocks|, s.free, s.blocks, s.blockOf, s.phase, s.finIn, s.c.tail, s.enq, s.out, s.prod.vs,
      s.prod.i,
               BlockNo(s.B, s.c.tail + s.prod.i), Slot(s.B, s.c.tail + s.prod.i));
  }

  /** What the steps of consumer `t` rely on. */
  ghost predicate ConsumerAble<V>(s: State<V>, t: nat)
    requires s.Wf() && t < |s.readers|
  {
    var r := s.readers[t];
    && C.Inv(s.c) && t < |s.c.threads| && (!r.NotReading? ==> s.c.threads[t].Claimed?)
    && (r.Take? ==> BlockNo(s.B, r.i0) < |s.phase| && r.hd < |s.headers| && r.b < |s.blocks| && r.i0 <= r.i)
    && (r.Take? && Taking(s, t) ==>
          r.b < |s.blocks| && Slot(s.B, r.i) < |s.blocks[r.b].cells| && s.blocks[r.b].cells[Slot(s.B, r.i)].Some?)
    && (r.ClearEntry? ==>
          r.hd < |s.headers| && r.idx < s.headers[r.hd].cap && s.headers[r.hd].index[r.idx] < |s.entries|
            && r.k < |s.phase|)
    && (r.GiveBack? ==> r.hd < |s.headers| && r.k < |s.phase|)
  }

  lemma ConsumerReady<V>(s: State<V>, t: nat)
    requires Inv(s) && t < |s.readers|
    ensures s.Wf() && ConsumerAble(s, t)
  {
    hide Inv, C.Inv, Heads, Window, Live, Owns, Cells, Marks, Phases, Readers, ProdOk, Filling, Slot, BlockNo, Base,
         Taken, Reaches, Finishing, Pos, HeaderOk, Fin;
    Pieces(s);
    InvCounters(s);
    ReaderIs(s, t);
    var r := s.readers[t];
    if r.Take? {
      TakePlace(s, t);
      TakeBlockIn(s, t);
      if Taking(s, t) {
        TakeReads(s, t);
      }
    } else if r.ClearEntry? || r.GiveBack? {
      EndingReady(s, t, r.k, r.i, r.e, r.hd, r.idx, r.b);
      if r.ClearEntry? {
        LiveKey(s, r.k);
      }
    }
  }

  lemma TakeBlockIn<V>(s: State<V>, t: nat)
    requires Inv(s) && t < |s.readers| && s.readers[t].Take?
    ensures s.readers[t].b < |s.blocks|
  {
    hide Inv, Heads, Window, Live, Owns, Marks, Phases, Readers, ProdOk, Filling, Slot, BlockNo, Base, Reaches, Pos,
         Fin, Claim;
    Pieces(s);
    TakeReady(s, t);
  }

  lemma HeadTail<V>(s: State<V>)
    requires Inv(s)
    ensures s.Wf() && s.headers[s.Cur()].tail < s.headers[s.Cur()].cap
  {
    hide Inv, Window, Live, Owns, Cells, Marks, Phases, Readers, ProdOk, Filling;
    Pieces(s);
  }
}
