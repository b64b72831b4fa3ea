/**
 * Corking and backpressure: bytes move between the shared cork buffer of a loop, the backpressure of each socket and
 * the kernel. The kernel is a script of answers, so what holds for every script holds for every behaviour of
 * `us_socket_write`.
 */
module AsyncSocket {
  import opened B = BackPressure
  import opened Common

  const CORK_BUFFER_SIZE: nat := 16 * 1024
  const INT_RANGE: nat := 0x8000_0000

  class LoopData {
    const corkBuffer: array<Byte>
    var corkOffset: nat
    var corkedSocket: Socket?

    constructor ()
      ensures Valid() && fresh(corkBuffer) && corkedSocket == null
    {
      corkBuffer := new Byte[CORK_BUFFER_SIZE];
      corkOffset, corkedSocket := 0, null;
    }

    /** Within bounds, which is all a write on an uncorked socket relies on. */
    ghost predicate InBounds()
      reads this
    {
      corkBuffer.Length == CORK_BUFFER_SIZE && corkOffset <= CORK_BUFFER_SIZE
    }

    ghost predicate Valid()
      reads this
    {
      InBounds() && (corkedSocket == null ==> corkOffset == 0)
    }
  }

  datatype SendBuffer = InCork(at: nat) | InBackPressure(at: nat)

  datatype Attribute = NeedsNothing | NeedsDrain | NeedsUncork

  class Socket {
    const loop: LoopData
    const backPressure: BackPressure
    var kernel: seq<Byte>
    var answers: seq<nat>

    constructor (loop: LoopData, answers: seq<nat>)
      ensures this.loop == loop && fresh(backPressure) && this.answers == answers && kernel == []
      ensures backPressure.Valid() && backPressure.Contents() == [] && backPressure.Snapshot().Lean()
    {
      this.loop, this.answers, kernel := loop, answers, [];
      backPressure := new BackPressure();
    }

    /** What this socket has in the cork buffer. */
    ghost function Corked(): seq<Byte>
      requires loop.InBounds()
      reads this, loop, loop.corkBuffer
    {
      if loop.corkedSocket == this then loop.corkBuffer[..loop.corkOffset] else []
    }

    /** Everything accepted from the caller so far, in order, wherever it is now. */
    ghost function Stream(): seq<Byte>
      requires loop.InBounds() && backPressure.Valid()
      reads this, backPressure, loop, loop.corkBuffer
    {
      kernel + backPressure.Contents() + Corked()
    }

    /** Corked bytes mean no backpressure: they would overtake it. */
    ghost predicate Ordered()
      requires loop.InBounds() && backPressure.Valid()
      reads this, backPressure, loop, loop.corkBuffer
    {
      Corked() != [] ==> backPressure.Contents() == []
    }

    ghost predicate Valid()
      reads this, backPressure, loop, loop.corkBuffer
    {
      loop.InBounds() && backPressure.Valid() && backPressure.Snapshot().Lean() && Ordered()
    }

    /** The backpressure, and `n` bytes, are each within the `int` lengths the kernel interface takes. */
    ghost predicate Fits(n: nat)
      requires backPressure.Valid()
      reads this, backPressure
    {
      |backPressure.Contents()| < INT_RANGE && n < INT_RANGE
    }

    /** `us_socket_write`: the kernel takes any number of the bytes, here the next one of the script. */
    method UsSocketWrite(src: seq<Byte>) returns (written: nat)
      modifies this
      ensures written == Taken(old(answers), |src|) && answers == Tail(old(answers))
      ensures kernel == old(kernel) + src[..written]
    {
      written := Taken(answers, |src|);
      answers := Tail(answers);
      kernel := kernel + src[..written];
    }

    method IsCorked() returns (r: bool)
      ensures r <==> loop.corkedSocket == this
    {
      r := loop.corkedSocket == this;
    }

    method CanCork() returns (r: bool)
      ensures r <==> loop.corkedSocket == null
    {
      r := loop.corkedSocket == null;
    }

    /** False where the program terminates: another socket has bytes in the cork buffer. */
    method Cork() returns (ok: bool)
      requires Valid()
      modifies loop
      ensures ok <==> old(loop.corkOffset) == 0 || old(loop.corkedSocket) == this
      ensures loop.corkOffset == old(loop.corkOffset)
      ensures loop.corkedSocket == if ok then this else old(loop.corkedSocket)
      ensures Valid() && Stream() == old(Stream())
    {
      if loop.corkOffset != 0 && loop.corkedSocket != this {
        return false;
      }
      loop.corkedSocket := this;
      ok := true;
    }

    /** What a write depends on. */
    ghost function Now(): Link
      requires backPressure.Valid()
      reads this, backPressure, loop
    {
      Link(answers, |backPressure.Contents()|, if loop.corkedSocket == this then Some(loop.corkOffset) else None)
    }

    /** The first part of `write`: the backpressure goes first, all of it or as much as the kernel takes. */
    method Drain() returns (left: bool)
      requires Valid() && Fits(0)
      modifies this, backPressure
      ensures Valid() && Stream() == old(Stream())
      ensures left <==> backPressure.Contents() != []
      ensures old(backPressure.Contents()) != [] && loop.corkedSocket == this ==> loop.corkOffset == 0
      ensures var r := Offer(old(answers), [old(Now().behind)]);
        left == r.short && answers == r.answers && |kernel| == |old(kernel)| + r.sent
    {
      var length := backPressure.Length();
      OfferOne(answers, length);
      left := false;
      if length != 0 {
        var data := backPressure.Data();
        var n := UsSocketWrite(data);
        left := n < length;
        if left {
          backPressure.Erase(n);
        } else {
          backPressure.Clear();
        }
      }
    }

    /** The part of `write` for a socket that is not corked and has no backpressure. */
    method WriteThrough(src: seq<Byte>, optionally: bool) returns (written: nat, failed: bool)
      requires Valid() && loop.corkedSocket != this && backPressure.Contents() == []
      modifies this, backPressure
      ensures Valid()
      ensures written <= |src| && Stream() == old(Stream()) + src[..written]
      ensures answers == Tail(old(answers)) && |kernel| == |old(kernel)| + Taken(old(answers), |src|)
      ensures failed <==> Taken(old(answers), |src|) < |src|
      ensures written == if optionally then Taken(old(answers), |src|) else |src|
      ensures failed && !optionally <==> backPressure.Contents() != []
    {
      assert Stream() == kernel;
      written := UsSocketWrite(src);
      failed := written < |src|;
      if failed && !optionally {
        BufferRest(src, written);
        written := |src|;
      }
    }

    method BufferRest(src: seq<Byte>, n: nat)
      requires Valid() && loop.corkedSocket != this && backPressure.Contents() == [] && n < |src|
      modifies backPressure
      ensures Valid() && backPressure.Contents() == src[n..] && Stream() == kernel + src[n..]
    {
      backPressure.Append(src[n..]);
    }

    /**
     * Write to the cork buffer, the kernel or the backpressure. The bytes counted as written join the stream at its
     * end, and no others. What the kernel gets, what is counted and whether the write fails is as `WriteResult` says:
     * all that is ahead is offered first, and the write fails just if an offer is not taken whole.
     */
    method Write(src: seq<Byte>, optionally: bool) returns (written: nat, failed: bool)
      requires Valid() && Fits(|src|) && (loop.corkedSocket == this ==> loop.Valid())
      modifies this, backPressure, loop, loop.corkBuffer
      ensures Valid() && (old(loop.Valid()) ==> loop.Valid())
      ensures written <= |src| && Stream() == old(Stream()) + src[..written]
      ensures Outcome(|kernel|, failed, answers, written)
        == After(old(|kernel|), WriteResult(old(Now()), |src|, optionally))
      ensures failed && !optionally ==> backPressure.Contents() != []
      ensures !failed ==> backPressure.Contents() == []
      ensures old(loop.corkedSocket) != this ==> unchanged(loop) && unchanged(loop.corkBuffer)
      ensures old(loop.corkedSocket) == this ==>
        (loop.corkedSocket, loop.corkOffset) == if KeepsCork(old(Now()), |src|)
          then (this, old(loop.corkOffset) + (if failed then 0 else |src|)) else (null, 0)
      decreases if loop.corkedSocket == this then 2 else 0, 1
    {
      hide Stream, Corked, Ordered, Offer, Taken, Tail, WriteResult, Result, Store.Contents, Store.Lean;
      ghost var was := Now();
      var left := Drain();
      Drained(was, |src|, optionally);
      if left {
        failed := true;
        written := BufferBehind(src, optionally);
      } else {
        NothingAhead(Now(), |src|, optionally);
        written, failed := WriteOn(src, optionally);
      }
    }

    /** The second part of `write`: there is no backpressure, or none any more. */
    method WriteOn(src: seq<Byte>, optionally: bool) returns (written: nat, failed: bool)
      requires Valid() && backPressure.Contents() == [] && |src| < INT_RANGE
        && (loop.corkedSocket == this ==> loop.Valid())
      modifies this, backPressure, loop, loop.corkBuffer
      ensures Valid() && (old(loop.Valid()) ==> loop.Valid())
      ensures written <= |src| && Stream() == old(Stream()) + src[..written]
      ensures Outcome(|kernel|, failed, answers, written)
        == After(old(|kernel|), WriteResult(old(Now()), |src|, optionally))
      ensures failed && !optionally ==> backPressure.Contents() != []
      ensures !failed ==> backPressure.Contents() == []
      ensures old(loop.corkedSocket) != this ==> unchanged(loop) && unchanged(loop.corkBuffer)
      ensures old(loop.corkedSocket) == this ==>
        (loop.corkedSocket, loop.corkOffset) == if old(loop.corkOffset) + |src| <= CORK_BUFFER_SIZE
          then (this, old(loop.corkOffset) + |src|) else (null, 0)
      decreases if loop.corkedSocket == this then 2 else 0, 0
    {
      NothingAhead(Now(), |src|, optionally);
      hide Result;
      if |src| != 0 {
        if loop.corkedSocket == this {
          if CORK_BUFFER_SIZE - loop.corkOffset >= |src| {
            CopyToCork(src);
          } else {
            written, failed := Uncork(src, optionally);
            return;
          }
        } else {
          written, failed := WriteThrough(src, optionally);
          return;
        }
      }
      return |src|, false;
    }

    /** Backpressure is left: the bytes go behind it, or nowhere. */
    method BufferBehind(src: seq<Byte>, optionally: bool) returns (written: nat)
      requires Valid() && backPressure.Contents() != []
      modifies backPressure
      ensures written == if optionally then 0 else |src|
      ensures Valid() && backPressure.Contents() != [] && Stream() == old(Stream()) + src[..written]
    {
      if optionally {
        return 0;
      }
      backPressure.Append(src);
      return |src|;
    }

    method CopyToCork(src: seq<Byte>)
      requires Valid() && loop.corkedSocket == this && backPressure.Contents() == []
      requires loop.corkOffset + |src| <= CORK_BUFFER_SIZE
      modifies loop`corkOffset, loop.corkBuffer
      ensures Valid() && Stream() == old(Stream()) + src && loop.corkOffset == old(loop.corkOffset) + |src|
    {
      var at := loop.corkOffset;
      for k := 0 to |src|
        invariant loop.corkOffset == at
        invariant loop.corkBuffer[..at] == old(loop.corkBuffer[..at]) && loop.corkBuffer[at..at + k] == src[..k]
      {
        loop.corkBuffer[at + k] := src[k];
        assert loop.corkBuffer[at..at + k + 1] == loop.corkBuffer[at..at + k] + [src[k]];
      }
      loop.corkOffset := at + |src|;
      assert loop.corkBuffer[..at + |src|] == loop.corkBuffer[..at] + loop.corkBuffer[at..at + |src|];
    }

    /** The first part of `uncork`: the cork is given up, and what was corked goes to the kernel or the backpressure. */
    method FlushCork() returns (short: bool)
      requires Valid() && loop.Valid() && loop.corkedSocket == this
      modifies this, backPressure, loop, loop.corkBuffer
      ensures Valid() && loop.corkedSocket == null && loop.corkOffset == 0 && Stream() == old(Stream())
      ensures var r := Offer(old(answers), [old(loop.corkOffset)]);
        short == r.short && answers == r.answers && |kernel| == |old(kernel)| + r.sent
      ensures old(loop.corkOffset) > 0 ==> (short <==> backPressure.Contents() != [])
      ensures old(loop.corkOffset) == 0 ==> unchanged(backPressure)
      decreases 1, 1
    {
      OfferOne(answers, loop.corkOffset);
      hide Offer, Stream, Ordered, Taken;
      if loop.corkOffset == 0 {
        GiveUp();
        return false;
      }
      short := FlushBytes(loop.corkBuffer[..loop.corkOffset]);
      ForgetBytes();
    }

    method GiveUp()
      requires Valid() && loop.corkedSocket == this && loop.corkOffset == 0
      modifies loop`corkedSocket
      ensures Valid() && loop.corkedSocket == null && Stream() == old(Stream())
    {
      loop.corkedSocket := null;
    }

    method ForgetBytes()
      requires Valid() && loop.corkedSocket == null
      modifies loop`corkOffset
      ensures Valid() && loop.corkOffset == 0 && Stream() == old(Stream())
    {
      loop.corkOffset := 0;
    }

    /** Giving up the cork and writing what was in it. */
    method FlushBytes(bytes: seq<Byte>) returns (short: bool)
      requires Valid() && loop.Valid() && loop.corkedSocket == this && bytes == Corked() && bytes != []
      modifies this, backPressure, loop, loop.corkBuffer
      ensures Valid() && loop.corkedSocket == null && loop.corkOffset == old(loop.corkOffset)
      ensures Stream() == old(Stream())
      ensures short <==> Taken(old(answers), |bytes|) < |bytes|
      ensures answers == Tail(old(answers)) && |kernel| == |old(kernel)| + Taken(old(answers), |bytes|)
      ensures short <==> backPressure.Contents() != []
      decreases 1, 0
    {
      loop.corkedSocket := null;
      assert Stream() + bytes == old(Stream());
      NothingAhead(Now(), |bytes|, false);
      hide Stream, Corked, Ordered, Result;
      var flushed;
      flushed, short := Write(bytes, false);
      assert bytes[..|bytes|] == bytes;
    }

    /** Flush the cork buffer and write `src` behind it; only bytes of `src` are counted. */
    method Uncork(src: seq<Byte>, optionally: bool) returns (written: nat, failed: bool)
      requires Valid() && (loop.corkedSocket == this ==> loop.Valid() && Fits(|src|))
      modifies this, backPressure, loop, loop.corkBuffer
      ensures Valid() && (old(loop.Valid()) ==> loop.Valid())
      ensures written <= |src| && Stream() == old(Stream()) + src[..written]
      ensures old(loop.corkedSocket) == this ==>
        (Outcome(|kernel|, failed, answers, written)
          == After(old(|kernel|), Result(old(Now()), |src|, optionally, true)))
      ensures old(loop.corkedSocket) == this && !failed ==> backPressure.Contents() == []
      ensures failed && !optionally ==> backPressure.Contents() != []
      ensures old(loop.corkedSocket) == this ==> loop.corkedSocket == null && loop.corkOffset == 0
      ensures old(loop.corkedSocket) != this ==>
        written == 0 && !failed && unchanged(this) && unchanged(backPressure) && unchanged(loop)
          && unchanged(loop.corkBuffer)
      decreases 1, 2
    {
      if loop.corkedSocket != this {
        return 0, false;
      }
      Flushed(Now(), |src|, optionally);
      hide Result;
      var short := FlushCork();
      if short {
        return 0, true;
      }
      written, failed := Write(src, optionally);
    }

    /**
     * `getSendBuffer`: room for `size` bytes at the end of the stream, in the cork buffer if it is ours or free and
     * they fit, else behind the backpressure, which then takes over our corked bytes.
     */
    method GetSendBuffer(size: nat) returns (room: SendBuffer, attribute: Attribute)
      requires Valid() && loop.Valid()
      modifies backPressure, loop, loop.corkBuffer
      ensures Valid() && loop.Valid() && Holds(room, size)
      ensures |Stream()| == |old(Stream())| + size && Stream()[..|old(Stream())|] == old(Stream())
      ensures attribute.NeedsDrain? <==> room.InBackPressure?
      ensures attribute.NeedsUncork? <==> room.InCork? && old(loop.corkedSocket) == null
      ensures room.InCork? <==>
        && old(backPressure.Contents()) == [] && old(loop.corkOffset) + size < CORK_BUFFER_SIZE
        && (old(loop.corkedSocket) == this || old(loop.corkedSocket) == null)
      ensures loop.corkedSocket == if room.InCork? then this else old(loop.corkedSocket)
      ensures old(loop.corkedSocket) != this && old(loop.corkedSocket) != null ==>
        unchanged(loop) && unchanged(loop.corkBuffer)
    {
      var existing := backPressure.Length();
      var corked := IsCorked();
      var free := CanCork();
      if existing == 0 && (corked || free) && loop.corkOffset + size < CORK_BUFFER_SIZE {
        if !corked {
          var ok := Cork();
        }
        var at := loop.corkOffset;
        ExtendCork(size);
        return InCork(at), if corked then NeedsNothing else NeedsUncork;
      } else {
        var ours := 0;
        if corked && loop.corkOffset != 0 {
          ours := loop.corkOffset;
        }
        MoveCorkBehind(existing, ours, size);
        return InBackPressure(existing + ours), NeedsDrain;
      }
    }

    /** Where the last `size` bytes of the stream are. */
    ghost predicate Holds(room: SendBuffer, size: nat)
      requires loop.InBounds() && backPressure.Valid()
      reads this, backPressure, loop, loop.corkBuffer
    {
      match room
      case InCork(at) => loop.corkedSocket == this && at + size == loop.corkOffset
      case InBackPressure(at) => at + size == |backPressure.Contents()| && Corked() == []
    }

    method ExtendCork(size: nat)
      requires Valid() && loop.corkedSocket == this && backPressure.Contents() == []
      requires loop.corkOffset + size < CORK_BUFFER_SIZE
      modifies loop`corkOffset
      ensures Valid() && loop.corkOffset == old(loop.corkOffset) + size
      ensures |Stream()| == |old(Stream())| + size && Stream()[..|old(Stream())|] == old(Stream())
    {
      loop.corkOffset := loop.corkOffset + size;
      assert Corked()[..old(loop.corkOffset)] == old(Corked());
    }

    method MoveCorkBehind(existing: nat, ours: nat, size: nat)
      requires Valid() && loop.Valid() && existing == |backPressure.Contents()|
      requires ours == if loop.corkedSocket == this then loop.corkOffset else 0
      modifies backPressure, loop`corkOffset
      ensures Valid() && loop.Valid() && Corked() == [] && |backPressure.Contents()| == existing + ours + size
      ensures |Stream()| == |old(Stream())| + size && Stream()[..|old(Stream())|] == old(Stream())
      ensures loop.corkOffset == if ours != 0 then 0 else old(loop.corkOffset)
    {
      ghost var was := Stream();
      var bytes := loop.corkBuffer[..ours];
      assert was == kernel + (backPressure.Contents() + bytes);
      if ours != 0 {
        loop.corkOffset := 0;
      }
      MakeRoom(bytes, size);
      assert Stream() == was + Zeros(size);
    }

    method MakeRoom(bytes: seq<Byte>, size: nat)
      requires backPressure.Valid()
      modifies backPressure
      ensures backPressure.Valid() && backPressure.Contents() == old(backPressure.Contents()) + bytes + Zeros(size)
      ensures old(backPressure.Snapshot().Lean()) ==> backPressure.Snapshot().Lean()
    {
      var existing := backPressure.Length();
      ghost var q := backPressure.Contents();
      backPressure.Resize(|bytes| + existing + size);
      Overlaid(q, Zeros(|bytes| + size), bytes);
      backPressure.Overwrite(existing, bytes);
      assert Zeros(|bytes| + size)[|bytes|..] == Zeros(size);
    }

    /** The caller writes its bytes through the pointer it was given. */
    method Fill(room: SendBuffer, data: seq<Byte>)
      requires Valid() && loop.Valid() && Holds(room, |data|)
      modifies backPressure, loop.corkBuffer
      ensures Valid() && |data| <= |old(Stream())| && Stream() == old(Stream())[..|old(Stream())| - |data|] + data
      ensures room.InBackPressure? ==> unchanged(loop.corkBuffer)
    {
      match room
      case InCork(at) => FillCork(at, data);
      case InBackPressure(at) => FillBehind(at, data);
    }

    method FillCork(at: nat, data: seq<Byte>)
      requires Valid() && Holds(InCork(at), |data|)
      modifies loop.corkBuffer
      ensures Valid() && |data| <= |old(Stream())| && Stream() == old(Stream())[..|old(Stream())| - |data|] + data
    {
      ghost var was := loop.corkBuffer[..at];
      Replaced(kernel + backPressure.Contents(), Corked(), at, data);
      for k := 0 to |data|
        invariant loop.corkBuffer[..at] == was && loop.corkBuffer[at..at + k] == data[..k]
      {
        loop.corkBuffer[at + k] := data[k];
        assert loop.corkBuffer[at..at + k + 1] == loop.corkBuffer[at..at + k] + [data[k]];
      }
      assert loop.corkBuffer[..at + |data|] == was + data;
    }

    method FillBehind(at: nat, data: seq<Byte>)
      requires Valid() && Holds(InBackPressure(at), |data|)
      modifies backPressure
      ensures Valid() && |data| <= |old(Stream())| && Stream() == old(Stream())[..|old(Stream())| - |data|] + data
    {
      ghost var was := backPressure.Contents();
      Replaced(kernel, was, at, data);
      assert Stream() == kernel + was;
      backPressure.Overwrite(at, data);
      assert backPressure.Contents() == was[..at] + data;
      assert Stream() == kernel + (was[..at] + data);
    }

    /** `getSendBuffer` and what its caller does with the buffer. */
    method Send(data: seq<Byte>) returns (attribute: Attribute)
      requires Valid() && loop.Valid()
      modifies backPressure, loop, loop.corkBuffer
      ensures Valid() && loop.Valid() && Stream() == old(Stream()) + data
      ensures loop.corkedSocket == old(loop.corkedSocket)
        || (loop.corkedSocket == this && old(loop.corkedSocket) == null)
      ensures old(loop.corkedSocket) != this && old(loop.corkedSocket) != null ==>
        unchanged(loop) && unchanged(loop.corkBuffer)
    {
      var room;
      room, attribute := GetSendBuffer(|data|);
      assert Stream()[..|Stream()| - |data|] == old(Stream());
      Fill(room, data);
    }
  }

  // ---------------------------------------------------------------- runs over any number of sockets of one loop

  datatype Call =
    | Cork(k: nat)
    | Write(k: nat, src: seq<Byte>, optionally: bool)
    | Uncork(k: nat, src: seq<Byte>, optionally: bool)
    | Send(k: nat, src: seq<Byte>)

  function Source(call: Call): seq<Byte> {
    if call.Cork? then [] else call.src
  }

  function Owned(sockets: seq<Socket>): set<object> {
    (set i | 0 <= i < |sockets| :: sockets[i]) + (set i | 0 <= i < |sockets| :: sockets[i].backPressure)
  }

  /** Open sockets of one loop, each with its own backpressure. */
  ghost predicate Together(loop: LoopData, sockets: seq<Socket>)
    reads loop, loop.corkBuffer, Owned(sockets)
  {
    && loop.Valid()
    && (forall i :: 0 <= i < |sockets| ==> sockets[i].loop == loop)
    && (forall i :: 0 <= i < |sockets| ==> sockets[i].Valid())
    && forall i, j :: 0 <= i < j < |sockets| ==>
         sockets[i] != sockets[j] && sockets[i].backPressure != sockets[j].backPressure
  }

  ghost function Streams(loop: LoopData, sockets: seq<Socket>): (r: seq<seq<Byte>>)
    requires Together(loop, sockets)
    reads loop, loop.corkBuffer, Owned(sockets)
    ensures |r| == |sockets| && forall i :: 0 <= i < |sockets| ==> r[i] == sockets[i].Stream()
  {
    seq(|sockets|,
        i requires 0 <= i < |sockets| && Together(loop, sockets) reads loop, loop.corkBuffer, Owned(sockets) =>
          sockets[i].Stream())
  }

  /** Counted calls: how many bytes of each were accepted. */
  predicate Counted(calls: seq<Call>, counts: seq<nat>) {
    |calls| == |counts| && forall c :: 0 <= c < |calls| ==> counts[c] <= |Source(calls[c])|
  }

  /** The bytes socket `k` has accepted: the counted part of each call made on it, in order. */
  function Accepted(calls: seq<Call>, counts: seq<nat>, k: nat): seq<Byte>
    requires Counted(calls, counts)
  {
    if calls == [] then []
    else
      var n := |calls| - 1;
      Accepted(calls[..n], counts[..n], k) + if calls[n].k == k then Source(calls[n])[..counts[n]] else []
  }

  /** Every stream with the bytes its socket accepted behind it. */
  function WithAccepted(streams: seq<seq<Byte>>, calls: seq<Call>, counts: seq<nat>): (r: seq<seq<Byte>>)
    requires Counted(calls, counts)
    ensures |r| == |streams|
  {
    seq(|streams|, i requires 0 <= i < |streams| => streams[i] + Accepted(calls, counts, i))
  }

  lemma AcceptedNext(streams: seq<seq<Byte>>, calls: seq<Call>, counts: seq<nat>, call: Call, count: nat)
    requires Counted(calls, counts) && count <= |Source(call)| && call.k < |streams|
    ensures Counted(calls + [call], counts + [count])
    ensures var before := WithAccepted(streams, calls, counts);
      WithAccepted(streams, calls + [call], counts + [count])
        == before[call.k := before[call.k] + Source(call)[..count]]
  {
    assert (calls + [call])[..|calls|] == calls && (counts + [count])[..|calls|] == counts;
    var before, after := WithAccepted(streams, calls, counts), WithAccepted(streams, calls + [call], counts + [count]);
    forall i | 0 <= i < |streams|
      ensures after[i] == before[call.k := before[call.k] + Source(call)[..count]][i]
    {
      assert after[i] == streams[i] + (Accepted(calls, counts, i) + if call.k == i then Source(call)[..count] else []);
    }
  }

  /** The program goes on: no cork that is refused, no length the kernel's `int` cannot hold. */
  ghost predicate Possible(s: Socket, call: Call)
    requires s.Valid()
    reads s, s.backPressure, s.loop, s.loop.corkBuffer
  {
    match call
    case Cork(_) => s.loop.corkOffset == 0 || s.loop.corkedSocket == s
    case Write(_, src, _) => s.Fits(|src|)
    case Uncork(_, src, _) => s.loop.corkedSocket == s ==> s.Fits(|src|)
    case Send(_, _) => true
  }

  /**
   * A buffer sent counts whole. A write counts whole unless its caller is told so, and then not at all if not optional.
   */
  predicate Told(call: Call, count: nat, failed: bool) {
    match call
    case Cork(_) => count == 0 && !failed
    case Write(_, src, optionally) => count == |src| || (failed && (count == 0 || optionally))
    case Uncork(_, src, optionally) => count == |src| || count == 0 || (failed && optionally)
    case Send(_, src) => count == |src| && !failed
  }

  predicate AllTold(calls: seq<Call>, counts: seq<nat>, fails: seq<bool>) {
    |fails| == |counts| == |calls| && forall c :: 0 <= c < |calls| ==> Told(calls[c], counts[c], fails[c])
  }

  lemma AllToldNext(calls: seq<Call>, counts: seq<nat>, fails: seq<bool>, call: Call, count: nat, failed: bool)
    requires AllTold(calls, counts, fails) && Told(call, count, failed)
    ensures AllTold(calls + [call], counts + [count], fails + [failed])
  {
    hide Told;
  }

  /** How much exactly a call counts, and whether it fails, by the state before it. */
  twostate predicate CountsRight(s: Socket, call: Call, count: nat, failed: bool)
    requires old(s.Valid())
    reads s, s.backPressure, s.loop, s.loop.corkBuffer
  {
    match call
    case Cork(_) => count == 0 && !failed
    case Write(_, src, optionally) =>
      var r := WriteResult(old(s.Now()), |src|, optionally);
      count == r.written && failed == r.failed && |s.kernel| == |old(s.kernel)| + r.sent
    case Uncork(_, src, optionally) =>
      if old(s.loop.corkedSocket) != s then count == 0 && !failed && s.kernel == old(s.kernel)
      else
        var r := Result(old(s.Now()), |src|, optionally, true);
        count == r.written && failed == r.failed && |s.kernel| == |old(s.kernel)| + r.sent
    case Send(_, src) => count == |src| && !failed && s.kernel == old(s.kernel)
  }

  /** One call, made just if it is possible. */
  method PerformOne(s: Socket, call: Call) returns (made: bool, count: nat, failed: bool)
    requires s.Valid() && s.loop.Valid()
    modifies s, s.backPressure, s.loop, s.loop.corkBuffer
    ensures s.Valid() && s.loop.Valid() && count <= |Source(call)| && (!made ==> count == 0)
    ensures made <==> old(Possible(s, call))
    ensures made ==> Told(call, count, failed) && CountsRight(s, call, count, failed)
    ensures !made ==> !Possible(s, call)
    ensures s.Stream() == old(s.Stream()) + Source(call)[..count]
    ensures old(s.loop.corkedSocket) != s && old(s.loop.corkedSocket) != null ==>
      && s.loop.corkOffset == old(s.loop.corkOffset) && s.loop.corkBuffer[..] == old(s.loop.corkBuffer[..])
      && (s.loop.corkedSocket == old(s.loop.corkedSocket) || s.loop.corkOffset == 0)
    ensures s.loop.corkedSocket == old(s.loop.corkedSocket) || s.loop.corkedSocket == s || s.loop.corkedSocket == null
  {
    hide Result, Offer, Taken, Tail, KeepsCork, Socket.Ordered, Store.Contents, Store.Lean, Store.Ok;
    var buffered := s.backPressure.Length();
    var corked := s.IsCorked();
    made, count, failed := true, 0, false;
    match call
    case Cork(_) =>
      made := s.Cork();
    case Write(_, src, optionally) =>
      if buffered >= INT_RANGE || |src| >= INT_RANGE {
        return false, 0, false;
      }
      ResultTold(s.Now(), |src|, optionally, corked && s.loop.corkOffset + |src| > CORK_BUFFER_SIZE);
      count, failed := s.Write(src, optionally);
    case Uncork(_, src, optionally) =>
      if corked && (buffered >= INT_RANGE || |src| >= INT_RANGE) {
        return false, 0, false;
      }
      ResultTold(s.Now(), |src|, optionally, true);
      count, failed := s.Uncork(src, optionally);
    case Send(_, src) =>
      var attribute := s.Send(src);
      count := |src|;
      assert src[..count] == src;
  }

  method Perform(loop: LoopData, sockets: seq<Socket>, call: Call) returns (made: bool, count: nat, failed: bool)
    requires Together(loop, sockets) && call.k < |sockets|
    modifies loop, loop.corkBuffer, Owned(sockets)
    ensures Together(loop, sockets) && count <= |Source(call)| && (!made ==> count == 0)
    ensures made <==> old(Possible(sockets[call.k], call))
    ensures made ==> Told(call, count, failed) && CountsRight(sockets[call.k], call, count, failed)
    ensures !made ==> !Possible(sockets[call.k], call)
    ensures var before := old(Streams(loop, sockets));
      Streams(loop, sockets) == before[call.k := before[call.k] + Source(call)[..count]]
  {
    hide Result, Offer, WriteResult, CountsRight, Told, KeepsCork, Possible, Streams, Accepted;
    ghost var before := Streams(loop, sockets);
    var s := sockets[call.k];
    made, count, failed := PerformOne(s, call);
    forall i | 0 <= i < |sockets| && i != call.k
      ensures sockets[i].Valid() && sockets[i].Stream() == old(sockets[i].Stream())
    {
      var o := sockets[i];
      assert o != s && o.backPressure != s.backPressure;
      assert o.Corked() == old(o.Corked());
    }
    hide Socket.Valid, Socket.Stream, Socket.Corked;
    StreamsAre(loop, sockets, before[call.k := before[call.k] + Source(call)[..count]]);
  }

  lemma StreamsAre(loop: LoopData, sockets: seq<Socket>, r: seq<seq<Byte>>)
    requires Together(loop, sockets) && |r| == |sockets| && forall i :: 0 <= i < |r| ==> r[i] == sockets[i].Stream()
    ensures Streams(loop, sockets) == r
  {
  }

  /**
   * Any calls on any sockets, against any kernel: what the kernel got, then the backpressure, then the corked bytes of
   * each socket are together just the bytes it accepted, in order; corked bytes never wait behind backpressure. Every
   * call counts what it must, and the run ends early only at a call that ends the program.
   */
  method Drive(loop: LoopData, sockets: seq<Socket>, calls: seq<Call>) returns (counts: seq<nat>, fails: seq<bool>)
    requires Together(loop, sockets) && forall c :: 0 <= c < |calls| ==> calls[c].k < |sockets|
    modifies loop, loop.corkBuffer, Owned(sockets)
    ensures Together(loop, sockets) && |counts| <= |calls| && Counted(calls[..|counts|], counts)
    ensures Streams(loop, sockets) == WithAccepted(old(Streams(loop, sockets)), calls[..|counts|], counts)
    ensures AllTold(calls[..|counts|], counts, fails)
    ensures |counts| < |calls| ==> !Possible(sockets[calls[|counts|].k], calls[|counts|])
  {
    hide Accepted, Counted, Streams, Told, AllTold, Possible, CountsRight, Together, Owned;
    ghost var before := Streams(loop, sockets);
    counts, fails := [], [];
    assert AllTold(calls[..0], counts, fails) by { NoneTold(calls[..0]); }
    NothingAccepted(before, calls[..0]);
    while |counts| < |calls|
      invariant Together(loop, sockets) && |counts| <= |calls| && Counted(calls[..|counts|], counts)
      invariant AllTold(calls[..|counts|], counts, fails)
      invariant Streams(loop, sockets) == WithAccepted(before, calls[..|counts|], counts)
      decreases |calls| - |counts|
    {
      var call := calls[|counts|];
      var made, count, failed := Perform(loop, sockets, call);
      if !made {
        NothingMore(Streams(loop, sockets), before, calls[..|counts|], counts, call);
        return;
      }
      AcceptedNext(before, calls[..|counts|], counts, call, count);
      AllToldNext(calls[..|counts|], counts, fails, call, count, failed);
      assert calls[..|counts|] + [call] == calls[..|counts| + 1];
      counts, fails := counts + [count], fails + [failed];
    }
  }

  lemma NoneTold(calls: seq<Call>)
    requires calls == []
    ensures AllTold(calls, [], [])
  {
  }

  lemma NothingAccepted(streams: seq<seq<Byte>>, calls: seq<Call>)
    requires calls == []
    ensures Counted(calls, []) && WithAccepted(streams, calls, []) == streams
  {
    forall i | 0 <= i < |streams|
      ensures WithAccepted(streams, calls, [])[i] == streams[i]
    {
      assert streams[i] + [] == streams[i];
    }
  }

  lemma NothingMore(now: seq<seq<Byte>>, streams: seq<seq<Byte>>, calls: seq<Call>, counts: seq<nat>, call: Call)
    requires Counted(calls, counts) && call.k < |streams|
    requires var before := WithAccepted(streams, calls, counts);
      now == before[call.k := before[call.k] + Source(call)[..0]]
    ensures now == WithAccepted(streams, calls, counts)
  {
    var before := WithAccepted(streams, calls, counts);
    assert before[call.k] + Source(call)[..0] == before[call.k];
  }

  /**
   * A write that is not optional can still be dropped whole: ten bytes corked, a chunk that does not fit, a kernel that
   * takes none.
   */
  method FlushFailureDropsWrite(ten: seq<Byte>, chunk: seq<Byte>) returns (written: nat, failed: bool, s: Socket)
    requires |ten| == 10 && |chunk| == CORK_BUFFER_SIZE
    ensures written == 0 && failed && s.loop.InBounds() && s.backPressure.Valid() && s.Stream() == ten
  {
    var loop := new LoopData();
    s := new Socket(loop, [0]);
    var ok := s.Cork();
    NothingAhead(s.Now(), 10, false);
    var w, f := s.Write(ten, false);
    assert s.Stream() == ten;
    NothingAhead(s.Now(), |chunk|, false);
    Flushed(s.Now(), |chunk|, false);
    OfferOne(s.answers, 10);
    written, failed := s.Write(chunk, false);
  }

  lemma Replaced<T>(k: seq<T>, c: seq<T>, at: nat, d: seq<T>)
    requires at + |d| == |c|
    ensures (k + c)[..|k + c| - |d|] + d == k + (c[..at] + d)
  {
  }

  lemma Overlaid<T>(q: seq<T>, z: seq<T>, c: seq<T>)
    requires |c| <= |z|
    ensures (q + z)[..|q|] + c + (q + z)[|q| + |c|..] == q + c + z[|c|..]
  {
  }

  function Min(a: nat, b: nat): nat {
    if a < b then a else b
  }

  /** How many of `n` bytes the kernel takes next; with the script over, none. */
  function Taken(answers: seq<nat>, n: nat): (k: nat)
    ensures k <= n
  {
    if answers == [] then 0 else Min(answers[0], n)
  }

  function Tail(answers: seq<nat>): seq<nat> {
    if answers == [] then [] else answers[1..]
  }

  // ---------------------------------------------------------------- what a write comes to

  /** The kernel's answers to come, the length of the backpressure, and of what the socket has corked. */
  datatype Link = Link(answers: seq<nat>, behind: nat, corked: Option<nat>)

  datatype Offered = Offered(sent: nat, short: bool, answers: seq<nat>)

  /** The kernel is offered chunks of these lengths in turn, none of length 0, up to one it does not take whole. */
  function Offer(answers: seq<nat>, sizes: seq<nat>): Offered {
    if sizes == [] then Offered(0, false, answers)
    else if sizes[0] == 0 then Offer(answers, sizes[1..])
    else if Taken(answers, sizes[0]) < sizes[0] then Offered(Taken(answers, sizes[0]), true, Tail(answers))
    else
      var r := Offer(Tail(answers), sizes[1..]);
      Offered(sizes[0] + r.sent, r.short, r.answers)
  }

  /** What the kernel got of all a call offered, whether that fell short, the answers left, and the bytes counted. */
  datatype Outcome = Outcome(sent: nat, failed: bool, answers: seq<nat>, written: nat)

  function After(sent: nat, r: Outcome): Outcome {
    r.(sent := sent + r.sent)
  }

  /**
   * Writing `n` bytes, which stay in the cork buffer unless it is to be flushed or is not the socket's. Counted are all
   * of them, except those that come behind corked bytes not all taken, and of an optional write those not taken.
   */
  function Result(l: Link, n: nat, optionally: bool, flush: bool): Outcome {
    var corked := if l.corked.Some? then l.corked.value else 0;
    var stays := l.corked.Some? && !flush;
    var o := Offer(l.answers, if stays then [l.behind] else [l.behind, corked, n]);
    var ahead := l.behind + corked;
    var written :=
      if stays then (if o.short && optionally then 0 else n)
      else if optionally then (if o.sent > ahead then o.sent - ahead else 0)
      else if o.short && l.behind <= o.sent < ahead then 0
      else n;
    Outcome(o.sent, o.short, o.answers, written)
  }

  function WriteResult(l: Link, n: nat, optionally: bool): Outcome {
    Result(l, n, optionally, l.corked.Some? && l.corked.value + n > CORK_BUFFER_SIZE)
  }

  /** A write leaves the socket corked if the bytes fit, or if it does not come to the cork buffer. */
  predicate KeepsCork(l: Link, n: nat) {
    l.corked.Some? && (l.corked.value + n <= CORK_BUFFER_SIZE || Offer(l.answers, [l.behind]).short)
  }

  lemma OfferOne(answers: seq<nat>, a: nat)
    ensures Offer(answers, [a]) ==
      if a == 0 then Offered(0, false, answers)
      else Offered(Taken(answers, a), Taken(answers, a) < a, Tail(answers))
  {
    assert [a][1..] == [];
    assert Offer(Tail(answers), []) == Offered(0, false, Tail(answers));
  }

  lemma OfferSplit(answers: seq<nat>, a: nat, rest: seq<nat>)
    ensures var o := Offer(answers, [a]);
      Offer(answers, [a] + rest) ==
        if o.short then o
        else
          var r := Offer(o.answers, rest);
          Offered(o.sent + r.sent, r.short, r.answers)
  {
    OfferOne(answers, a);
    assert ([a] + rest)[1..] == rest;
  }

  lemma OfferThree(answers: seq<nat>, a: nat, b: nat, c: nat)
    ensures Offer(answers, [a, b, c]) == Offer(answers, [a] + [b, c])
    ensures forall t :: Offer(t, [b, c]) == Offer(t, [b] + [c])
  {
    assert [a, b, c] == [a] + [b, c] && [b, c] == [b] + [c];
  }

  /** Backpressure, corked bytes and new bytes are offered one after the other. */
  lemma OfferAll(l: Link, n: nat)
    ensures var corked := if l.corked.Some? then l.corked.value else 0;
      var d := Offer(l.answers, [l.behind]);
      var f := Offer(d.answers, [corked]);
      var w := Offer(f.answers, [n]);
      var o := if d.short then d
               else if f.short then Offered(d.sent + f.sent, true, f.answers)
               else Offered(d.sent + f.sent + w.sent, w.short, w.answers);
      Offer(l.answers, [l.behind, corked, n]) == o
  {
    var corked := if l.corked.Some? then l.corked.value else 0;
    OfferThree(l.answers, l.behind, corked, n);
    OfferSplit(l.answers, l.behind, [corked, n]);
    OfferSplit(Offer(l.answers, [l.behind]).answers, corked, [n]);
  }

  /** What is not counted fails, and if the write is not optional nothing is counted then. */
  lemma ResultTold(l: Link, n: nat, optionally: bool, flush: bool)
    ensures var r := Result(l, n, optionally, flush);
      r.written <= n && (r.written < n ==> r.failed && (!optionally ==> r.written == 0))
  {
    var corked := if l.corked.Some? then l.corked.value else 0;
    OfferAll(l, n);
    OfferOne(l.answers, l.behind);
    var d := Offer(l.answers, [l.behind]);
    OfferOne(d.answers, corked);
    OfferOne(Offer(d.answers, [corked]).answers, n);
    hide Offer;
  }

  /** Nothing ahead: the kernel is offered the bytes, or they are corked. */
  lemma NothingAhead(l: Link, n: nat, optionally: bool)
    requires l.behind == 0
    ensures var r, k := WriteResult(l, n, optionally), Taken(l.answers, n);
      && (n == 0 && l.corked.None? ==> r == Outcome(0, false, l.answers, 0))
      && (n > 0 && l.corked.None? ==> r == Outcome(k, k < n, Tail(l.answers), if optionally then k else n))
      && (l.corked.Some? && l.corked.value + n <= CORK_BUFFER_SIZE ==> r == Outcome(0, false, l.answers, n))
      && (l.corked.Some? && l.corked.value + n > CORK_BUFFER_SIZE ==> r == Result(l, n, optionally, true))
  {
    OfferOne(l.answers, 0);
    OfferOne(l.answers, n);
    OfferOne(l.answers, l.behind);
    OfferAll(l, n);
  }

  /** Backpressure: if it is not all taken that is all; if it is, the rest is as if there had been none. */
  lemma Drained(l: Link, n: nat, optionally: bool)
    requires l.corked.Some? && l.behind > 0 ==> l.corked.value == 0
    ensures var o := Offer(l.answers, [l.behind]);
      && o.sent <= l.behind && (o.short <==> o.sent < l.behind)
      && WriteResult(l, n, optionally) ==
         if o.short then Outcome(o.sent, true, o.answers, if optionally then 0 else n)
         else After(o.sent, WriteResult(Link(o.answers, 0, l.corked), n, optionally))
  {
    var o := Offer(l.answers, [l.behind]);
    var z := Link(o.answers, 0, l.corked);
    OfferOne(l.answers, l.behind);
    OfferOne(o.answers, 0);
    OfferAll(l, n);
    OfferAll(z, n);
    hide Offer;
  }

  /** Corked bytes: if they are not all taken nothing is counted; if they are, the rest is as if there had been none. */
  lemma Flushed(l: Link, n: nat, optionally: bool)
    requires l.corked.Some? && (l.behind > 0 ==> l.corked.value == 0)
    ensures var o := Offer(l.answers, [l.corked.value]);
      && o.sent <= l.corked.value && (o.short <==> o.sent < l.corked.value)
      && Result(l, n, optionally, true) ==
         if o.short then Outcome(o.sent, true, o.answers, 0)
         else After(o.sent, WriteResult(Link(o.answers, l.behind, None), n, optionally))
  {
    var o := Offer(l.answers, [l.corked.value]);
    var z := Link(o.answers, l.behind, None);
    OfferOne(l.answers, l.behind);
    OfferOne(l.answers, l.corked.value);
    OfferOne(o.answers, 0);
    OfferOne(Offer(o.answers, [l.behind]).answers, 0);
    OfferAll(l, n);
    OfferAll(z, n);
    hide Offer;
  }

  /**
   * Backpressure that goes out whole: the new bytes are offered at once, and it fails just if they are not all taken.
   */
  lemma DrainedWrite(l: Link, n: nat, optionally: bool)
    requires l.corked.None? && 0 < l.behind == Taken(l.answers, l.behind) && n > 0
    ensures var k := Taken(Tail(l.answers), n);
      WriteResult(l, n, optionally) ==
        Outcome(l.behind + k, k < n, Tail(Tail(l.answers)), if optionally then k else n)
  {
    OfferOne(l.answers, l.behind);
    Drained(l, n, optionally);
    NothingAhead(Link(Tail(l.answers), 0, None), n, optionally);
  }

  /** And corked bytes that go out whole, before bytes that do not fit behind them, or in an uncork, likewise. */
  lemma FlushedWrite(l: Link, n: nat, optionally: bool)
    requires l.corked.Some? && l.behind == 0 < l.corked.value == Taken(l.answers, l.corked.value) && n > 0
    ensures var k, r := Taken(Tail(l.answers), n), Result(l, n, optionally, true);
      && r == Outcome(l.corked.value + k, k < n, Tail(Tail(l.answers)), if optionally then k else n)
      && (l.corked.value + n > CORK_BUFFER_SIZE ==> WriteResult(l, n, optionally) == r)
  {
    OfferOne(l.answers, l.corked.value);
    Flushed(l, n, optionally);
    NothingAhead(Link(Tail(l.answers), 0, None), n, optionally);
  }

  /** All that is offered goes out, unless some offer is not taken whole: then all before it and part of that one. */
  lemma {:induction false} OfferIsGreedy(answers: seq<nat>, sizes: seq<nat>)
    ensures var o := Offer(answers, sizes);
      if o.short then o.sent < Total(sizes) else o.sent == Total(sizes)
    decreases |sizes|
  {
    if sizes != [] {
      OfferIsGreedy(if sizes[0] == 0 then answers else Tail(answers), sizes[1..]);
    }
  }

  function Total(sizes: seq<nat>): nat {
    if sizes == [] then 0 else sizes[0] + Total(sizes[1..])
  }
}
