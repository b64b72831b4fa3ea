/** The lazily erased byte queue behind each socket: `BackPressure`. */
module BackPressure {
  newtype Byte = x: int | 0 <= x < 256

  const UINT_RANGE: nat := 0x1_0000_0000

  function Drop<T>(s: seq<T>, n: nat): seq<T> {
    if n < |s| then s[n..] else []
  }

  function Zeros(n: nat): (r: seq<Byte>)
    ensures |r| == n && forall k :: 0 <= k < n ==> r[k] == 0
  {
    seq(n, _ => 0)
  }

  /** The object as a value: the first `pending` bytes of `buffer` are already consumed. */
  datatype Store = Store(buffer: seq<Byte>, pending: nat)
  {
    predicate Ok() {
      pending <= |buffer| && pending < UINT_RANGE
    }

    function Contents(): seq<Byte>
      requires Ok()
    {
      buffer[pending..]
    }

    /** At most one stored byte in 32 is already consumed. */
    predicate Lean() {
      32 * pending <= |buffer|
    }
  }

  /** `erase`, with `pendingRemoval` a 32-bit word and `std::string::erase` stopping at the end. */
  function Erased(s: Store, length: nat): (z: Store)
    requires s.Ok() && length < UINT_RANGE
    ensures z.Ok()
  {
    var p := (s.pending + length) % UINT_RANGE;
    if p > |s.buffer| / 32 then Store(Drop(s.buffer, p), 0) else Store(s.buffer, p)
  }

  lemma DropDrop<T>(s: seq<T>, a: nat, b: nat)
    requires a <= |s|
    ensures Drop(s[a..], b) == Drop(s, a + b)
  {
  }

  lemma EraseInRange(s: Store, length: nat)
    requires s.Ok() && s.pending + length < UINT_RANGE
    ensures Erased(s, length).Contents() == Drop(s.Contents(), length) && Erased(s, length).Lean()
  {
    var p := s.pending + length;
    assert p % UINT_RANGE == p;
    DropDrop(s.buffer, s.pending, length);
    assert Erased(s, length).Contents() == Drop(s.buffer, p);
  }

  lemma EraseOutOfRange(s: Store, length: nat)
    requires s.Ok() && length < UINT_RANGE <= s.pending + length
    ensures |Erased(s, length).Contents()| > |Drop(s.Contents(), length)| && Erased(s, length).Lean()
  {
    var p := s.pending + length - UINT_RANGE;
    assert (s.pending + length) % UINT_RANGE == p;
    assert |Erased(s, length).Contents()| == |s.buffer| - p;
  }

  /**
   * Erasing drops that many bytes from the front, everything if there are fewer, exactly when `pendingRemoval` does not
   * wrap; when it does, bytes consumed earlier come back.
   */
  lemma EraseIsExact(s: Store, length: nat)
    requires s.Ok() && length < UINT_RANGE
    ensures Erased(s, length).Contents() == Drop(s.Contents(), length) <==> s.pending + length < UINT_RANGE
    ensures Erased(s, length).Lean()
  {
    hide Erased, Drop;
    if s.pending + length < UINT_RANGE {
      EraseInRange(s, length);
    } else {
      EraseOutOfRange(s, length);
    }
  }

  /** Bytes are moved only to drop more than one in 32 of those stored, so erasing costs a constant for each. */
  lemma EraseIsAmortized(s: Store, length: nat)
    requires s.Ok() && length < UINT_RANGE
    ensures var z := Erased(s, length);
      if z.buffer == s.buffer then z.pending == (s.pending + length) % UINT_RANGE || s.buffer == []
      else z.pending == 0 && 32 * (|s.buffer| - |z.buffer|) > |s.buffer|
  {
  }

  /** Sixty-four bytes, two consumed: erasing 2^32 - 1 more, where all should go, leaves 63 and brings one back. */
  lemma EraseWraps(s: Store)
    requires |s.buffer| == 64 && s.pending == 2
    ensures s.Ok() && s.Lean()
    ensures Drop(s.Contents(), UINT_RANGE - 1) == [] && Erased(s, UINT_RANGE - 1).Contents() == s.buffer[1..]
  {
    assert (2 + (UINT_RANGE - 1)) % UINT_RANGE == 1;
  }

  function Resized(s: Store, length: nat): (z: Store)
    requires s.Ok()
    ensures z.Ok()
  {
    var n := length + s.pending;
    Store(if n <= |s.buffer| then s.buffer[..n] else s.buffer + Zeros(n - |s.buffer|), s.pending)
  }

  /**
   * Resizing keeps a prefix of the contents or pads them; it keeps the waste bound just when the new length allows it.
   */
  lemma ResizeIsExact(s: Store, length: nat)
    requires s.Ok()
    ensures var c := s.Contents();
      Resized(s, length).Contents() == if length <= |c| then c[..length] else c + Zeros(length - |c|)
    ensures Resized(s, length).Lean() <==> 31 * s.pending <= length
    ensures s.Lean() && length >= |s.Contents()| ==> Resized(s, length).Lean()
  {
    var c, z := s.Contents(), Resized(s, length);
    if length <= |c| {
      assert z.Contents() == c[..length];
    } else {
      assert z.Contents() == c + Zeros(length - |c|);
    }
  }

  /** Sixty-four bytes, two consumed, resized to ten: the contents are right, and the waste bound does not hold. */
  lemma ShrinkingWastes(s: Store)
    requires |s.buffer| == 64 && s.pending == 2
    ensures s.Ok() && s.Lean() && Resized(s, 10).Contents() == s.buffer[2..12] && !Resized(s, 10).Lean()
  {
    ResizeIsExact(s, 10);
    assert s.Contents()[..10] == s.buffer[2..12];
  }

  // ---------------------------------------------------------------- the refinement, over whole runs

  datatype Op = Append(data: seq<Byte>) | Erase(n: nat) | Grow(n: nat) | Clear

  /** What each operation means for a plain byte queue. */
  function Meaning(q: seq<Byte>, op: Op): seq<Byte> {
    match op
    case Append(data) => q + data
    case Erase(n) => Drop(q, n)
    case Grow(n) => q + Zeros(n)
    case Clear => []
  }

  function Apply(s: Store, op: Op): (z: Store)
    requires s.Ok() && (op.Erase? ==> op.n < UINT_RANGE)
    ensures z.Ok()
  {
    match op
    case Append(data) => Store(s.buffer + data, s.pending)
    case Erase(n) => Erased(s, n)
    case Grow(n) => Resized(s, |s.Contents()| + n)
    case Clear => Store([], 0)
  }

  /** An erase of bytes that are there, from a buffer a 32-bit length can count. */
  predicate InRange(s: Store, op: Op)
    requires s.Ok()
  {
    op.Erase? ==> op.n <= |s.Contents()| && |s.buffer| < UINT_RANGE
  }

  function RunOps(s: Store, ops: seq<Op>): Store
    requires s.Ok()
    decreases |ops|
  {
    if ops == [] then s
    else if InRange(s, ops[0]) then RunOps(Apply(s, ops[0]), ops[1..])
    else s
  }

  /** The operations of a run that are carried out: all before the first erase out of range. */
  function Done(s: Store, ops: seq<Op>): seq<Op>
    requires s.Ok()
    decreases |ops|
  {
    if ops != [] && InRange(s, ops[0]) then [ops[0]] + Done(Apply(s, ops[0]), ops[1..]) else []
  }

  function Meanings(q: seq<Byte>, ops: seq<Op>): seq<Byte>
    decreases |ops|
  {
    if ops == [] then q else Meanings(Meaning(q, ops[0]), ops[1..])
  }

  lemma StepRefines(s: Store, op: Op)
    requires s.Ok() && s.Lean() && InRange(s, op)
    ensures Apply(s, op).Lean() && Apply(s, op).Contents() == Meaning(s.Contents(), op)
  {
    match op
    case Append(data) => assert (s.buffer + data)[s.pending..] == s.buffer[s.pending..] + data;
    case Erase(n) => EraseIsExact(s, n);
    case Grow(n) => ResizeIsExact(s, |s.Contents()| + n);
    case Clear =>
  }

  /** Over every run the buffer is the plain queue, and at most 1/32 of what it stores is waste. */
  lemma {:induction false} RunRefines(s: Store, ops: seq<Op>)
    requires s.Ok() && s.Lean()
    ensures RunOps(s, ops).Ok() && RunOps(s, ops).Lean()
    ensures RunOps(s, ops).Contents() == Meanings(s.Contents(), Done(s, ops))
    decreases |ops|
  {
    if ops != [] && InRange(s, ops[0]) {
      StepRefines(s, ops[0]);
      RunRefines(Apply(s, ops[0]), ops[1..]);
      assert Done(s, ops)[1..] == Done(Apply(s, ops[0]), ops[1..]);
    }
  }

  // ---------------------------------------------------------------- the object

  class BackPressure {
    var buffer: seq<Byte>
    var pendingRemoval: nat

    ghost function Snapshot(): Store
      reads this
    {
      Store(buffer, pendingRemoval)
    }

    ghost predicate Valid()
      reads this
    {
      Snapshot().Ok()
    }

    ghost function Contents(): seq<Byte>
      requires Valid()
      reads this
    {
      Snapshot().Contents()
    }

    constructor ()
      ensures Valid() && Contents() == [] && Snapshot().Lean()
    {
      buffer, pendingRemoval := [], 0;
    }

    method Append(data: seq<Byte>)
      requires Valid()
      modifies this
      ensures Valid() && Snapshot() == Apply(old(Snapshot()), Op.Append(data)) && Contents() == old(Contents()) + data
      ensures old(Snapshot().Lean()) ==> Snapshot().Lean()
    {
      buffer := buffer + data;
    }

    method Erase(length: nat)
      requires Valid() && length < UINT_RANGE
      modifies this
      ensures Valid() && Snapshot() == Erased(old(Snapshot()), length) && Snapshot().Lean()
      ensures Contents() == Drop(old(Contents()), length) <==> old(pendingRemoval) + length < UINT_RANGE
    {
      EraseIsExact(Snapshot(), length);
      pendingRemoval := (pendingRemoval + length) % UINT_RANGE;
      if pendingRemoval > |buffer| / 32 {
        buffer := if pendingRemoval < |buffer| then buffer[pendingRemoval..] else [];
        pendingRemoval := 0;
      }
    }

    method Length() returns (n: nat)
      requires Valid()
      ensures n == |Contents()|
    {
      n := |buffer| - pendingRemoval;
    }

    method Clear()
      modifies this
      ensures Valid() && Contents() == [] && Snapshot() == Store([], 0)
    {
      pendingRemoval := 0;
      buffer := [];
    }

    method Resize(length: nat)
      requires Valid()
      modifies this
      ensures Valid() && Snapshot() == Resized(old(Snapshot()), length)
      ensures var c := old(Contents()); Contents() == if length <= |c| then c[..length] else c + Zeros(length - |c|)
      ensures old(Snapshot().Lean()) && length >= |old(Contents())| ==> Snapshot().Lean()
    {
      ResizeIsExact(Snapshot(), length);
      var n := length + pendingRemoval;
      buffer := if n <= |buffer| then buffer[..n] else buffer + Zeros(n - |buffer|);
    }

    /** Bytes written through the pointer `data()` returns, at `offset` from it. */
    method Overwrite(offset: nat, bytes: seq<Byte>)
      requires Valid() && offset + |bytes| <= |Contents()|
      modifies this
      ensures Valid() && pendingRemoval == old(pendingRemoval) && |buffer| == old(|buffer|)
      ensures var c := old(Contents()); Contents() == c[..offset] + bytes + c[offset + |bytes|..]
    {
      var at := pendingRemoval + offset;
      ghost var was := buffer;
      buffer := buffer[..at] + bytes + buffer[at + |bytes|..];
      assert Contents() == was[pendingRemoval..][..offset] + bytes + was[pendingRemoval..][offset + |bytes|..];
    }

    /** `data()` up to the end: the bytes not yet consumed. */
    method Data() returns (d: seq<Byte>)
      requires Valid()
      ensures d == Contents()
    {
      d := buffer[pendingRemoval..];
    }

    method TotalLength() returns (n: nat)
      ensures n == |buffer|
    {
      n := |buffer|;
    }
  }
}
