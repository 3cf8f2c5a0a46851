/**
 * The objects that put frames on a stream and take them off it: a reader over
 * a connection that delivers arbitrary chunks, and a writer with a bounded
 * queue of frames not yet written.
 */
module FrameStreams {
  import opened Basics
  import opened Bytes
  import opened FrameCodec

  /** The bytes asked for, a clean end, or a stream that ended too early. */
  datatype Exact = Got(bytes: seq<Byte>) | AtEnd | Cut

  lemma FlattenHead(chunks: seq<seq<Byte>>)
    ensures Flatten(chunks) == if chunks == [] then [] else chunks[0] + Flatten(chunks[1..])
  {
  }

  lemma Taken(all: seq<Byte>, buffer: seq<Byte>, offset: nat, count: nat, later: seq<Byte>)
    requires offset + count <= |buffer| && all == buffer[offset..] + later
    ensures count <= |all| && all[..count] == buffer[offset..offset + count]
    ensures all[count..] == buffer[offset + count..] + later
  {
  }

  lemma TakeOn(all: seq<Byte>, done: nat, count: nat)
    requires done <= |all| && count <= |all[done..]|
    ensures done + count <= |all| && all[..done] + all[done..][..count] == all[..done + count]
    ensures all[done..][count..] == all[done + count..]
  {
  }

  class GroupFrameReader<F(!new)> {
    const codec: Codec<F>
    /** What the connection has yet to deliver; an empty chunk is allowed. */
    var chunks: seq<seq<Byte>>
    var buffer: seq<Byte>
    var offset: nat
    var started: bool
    var ended: bool

    ghost predicate Valid()
      reads this
    {
      offset <= |buffer| && (ended ==> chunks == [] && offset == |buffer|)
    }

    ghost function Rest(): seq<Byte>
      requires Valid()
      reads this
    {
      buffer[offset..] + Flatten(chunks)
    }

    ghost function State(): Reader
      requires Valid()
      reads this
    {
      Reader(Rest(), started, ended)
    }

    constructor (codec: Codec<F>, chunks: seq<seq<Byte>>)
      ensures Valid() && State() == Reader(Flatten(chunks), false, false) && this.codec == codec
    {
      this.codec, this.chunks := codec, chunks;
      buffer, offset, started, ended := [], 0, false, false;
    }

    /** Moves as many buffered bytes to the output as it has room for. */
    method TakeBuffered(output: array<Byte>, written: nat) returns (count: nat)
      requires Valid() && offset < |buffer| && written < output.Length
      modifies this`buffer, this`offset, output
      ensures Valid() && 0 < count <= output.Length - written && count <= |old(Rest())|
      ensures output[..written + count] == old(output[..written]) + old(Rest())[..count]
      ensures Rest() == old(Rest())[count..]
    {
      count := Min(|buffer| - offset, output.Length - written);
      Taken(Rest(), buffer, offset, count, Flatten(chunks));
      forall k | 0 <= k < count {
        output[written + k] := buffer[offset + k];
      }
      assert output[..written + count] == old(output[..written]) + buffer[offset..offset + count];
      offset := offset + count;
      if offset == |buffer| {
        buffer, offset := [], 0;
      }
    }

    /** Takes the next chunk of the connection; an empty one is skipped. */
    method NextChunk()
      requires Valid() && offset == |buffer| && chunks != []
      modifies this`chunks, this`buffer, this`offset
      ensures Valid() && Rest() == old(Rest()) && |chunks| == |old(chunks)| - 1
    {
      var chunk := chunks[0];
      chunks := chunks[1..];
      if chunk != [] {
        buffer, offset := chunk, 0;
      }
    }

    /** Copies bytes out of the chunks as they come until `length` of them are there. */
    method ReadExact(length: nat, eof: bool) returns (r: Exact)
      requires Valid()
      modifies this`chunks, this`buffer, this`offset, this`ended
      ensures Valid()
      ensures old(|Rest()|) >= length ==>
        r == Got(old(Rest())[..length]) && Rest() == old(Rest())[length..] && ended == old(ended)
      ensures old(|Rest()|) < length ==>
        r == (if eof && old(Rest()) == [] then AtEnd else Cut) && Rest() == [] && ended
    {
      hide Flatten;
      var output := new Byte[length];
      var written := 0;
      ghost var all := Rest();
      while written < length
        invariant 0 <= written <= length && Valid()
        invariant written <= |all| && output[..written] == all[..written] && Rest() == all[written..]
        invariant ended == old(ended)
        decreases length - written, 2 * |chunks| + if offset < |buffer| then 1 else 0
      {
        if offset < |buffer| {
          var count := TakeBuffered(output, written);
          TakeOn(all, written, count);
          written := written + count;
        } else if chunks == [] {
          FlattenHead(chunks);
          ended := true;
          return if eof && written == 0 then AtEnd else Cut;
        } else {
          NextChunk();
        }
      }
      assert output[..length] == output[..];
      return Got(output[..]);
    }

    method Start() returns (ok: bool)
      requires Valid()
      modifies this
      ensures Valid()
      ensures old(started) ==> ok && State() == old(State())
      ensures !old(started) ==>
        ok == (old(|Rest()|) >= 4 && old(Rest())[..4] == MAGIC)
        && State() == if old(|Rest()|) < 4 then Reader([], false, true)
             else Reader(old(Rest())[4..], ok, old(ended))
    {
      if started {
        return true;
      }
      var magic := ReadExact(4, false);
      if !magic.Got? || magic.bytes != MAGIC {
        return false;
      }
      started := true;
      return true;
    }

    /** The next frame. */
    method Read() returns (r: Outcome<F>)
      requires Valid()
      modifies this
      ensures Valid() && (r, State()) == ReadStep(codec, old(State()))
    {
      if ended {
        return End;
      }
      var ok := Start();
      if !ok {
        return Broken;
      }
      ghost var rest := Rest();
      var header := ReadExact(4, true);
      if header.AtEnd? {
        return End;
      }
      if header.Cut? {
        return Broken;
      }
      var length := Number(header.bytes);
      if length == 0 || length > codec.maximum {
        return Broken;
      }
      assert |rest| >= 4 + length ==>
        rest[4..][..length] == rest[4..4 + length] && rest[4..][length..] == rest[4 + length..];
      var payload := ReadExact(length, false);
      if payload.Cut? {
        return Broken;
      }
      var frame := codec.decode(payload.bytes);
      return if frame.None? then Broken else Frame(frame.value);
    }
  }

  lemma StreamSnoc<F>(c: Codec<F>, frames: seq<F>, last: F)
    ensures Stream(c, frames + [last]) == Stream(c, frames) + EncodeFrame(c, last)
  {
    EncodeAllSnoc(c, frames, last);
  }

  lemma Associates(a: seq<Byte>, b: seq<Byte>, c: seq<Byte>)
    ensures (a + b) + c == a + (b + c)
    ensures a + b <= a + (b + c)
  {
  }

  lemma PrefixKept(a: seq<Byte>, s: seq<Byte>, more: seq<Byte>)
    requires a <= s
    ensures a <= s + more
  {
  }

  lemma PartFits(a: seq<Byte>, b: seq<Byte>, taken: nat, s: seq<Byte>)
    requires taken <= |b| && a + b <= s
    ensures a + b[..taken] <= s
  {
  }

  class GroupFrameWriter<F(!new)> {
    const codec: Codec<F>
    const maxFrames: nat
    const maxBytes: nat
    var pendingFrames: int
    var pendingBytes: int
    var closed: bool
    /** Writes that have not settled, oldest first; at first the magic. */
    var tail: seq<seq<Byte>>
    var preamble: bool
    /** The oldest write is under way. */
    var begun: bool
    /** What the connection has taken. */
    var wire: seq<Byte>
    ghost var accepted: seq<F>

    ghost function Queued(): seq<seq<Byte>>
      requires preamble ==> tail != []
      reads this
    {
      if preamble then tail[1..] else tail
    }

    ghost predicate Valid()
      reads this
    {
      && (preamble ==> tail != [] && tail[0] == MAGIC)
      && (begun ==> tail != [])
      && pendingFrames == |Queued()| <= maxFrames && pendingBytes == |Flatten(Queued())| <= maxBytes
      && (forall i :: 0 <= i < |accepted| ==> Encodable(codec, accepted[i]))
      && (preamble ==> wire == [])
      && wire <= Stream(codec, accepted)
      && (begun ==> wire + tail[0] <= Stream(codec, accepted))
      && (!closed ==> wire + Flatten(tail) == Stream(codec, accepted))
    }

    constructor (codec: Codec<F>, maxFrames: nat, maxBytes: nat)
      ensures Valid() && accepted == [] && !closed && wire == []
      ensures this.codec == codec && this.maxFrames == maxFrames && this.maxBytes == maxBytes
    {
      this.codec, this.maxFrames, this.maxBytes := codec, maxFrames, maxBytes;
      pendingFrames, pendingBytes, closed, preamble, begun := 0, 0, false, true, false;
      tail, wire, accepted := [MAGIC], [], [];
      new;
      assert tail[1..] == [] && Flatten(tail) == MAGIC;
    }

    method Close()
      requires Valid()
      modifies this`closed
      ensures Valid() && closed
    {
      closed := true;
    }

    /**
     * Takes a frame into the queue, or refuses it. A frame that does not fit
     * the queue closes the writer; one that cannot be encoded does not.
     */
    method Send(frame: F) returns (ok: bool)
      requires Valid()
      modifies this
      ensures Valid()
      ensures ok == (!old(closed) && Encodable(codec, frame) && old(|Queued()|) < maxFrames
        && |Flatten(old(Queued()))| + |EncodeFrame(codec, frame)| <= maxBytes)
      ensures accepted == if ok then old(accepted) + [frame] else old(accepted)
      ensures Queued() == if ok then old(Queued()) + [EncodeFrame(codec, frame)] else old(Queued())
      ensures closed == (old(closed) || (Encodable(codec, frame) && !ok))
      ensures wire == old(wire) && begun == old(begun)
    {
      if closed || |codec.encode(frame)| == 0 || |codec.encode(frame)| > codec.maximum {
        return false;
      }
      var bytes := EncodeFrame(codec, frame);
      if pendingFrames + 1 > maxFrames || pendingBytes + |bytes| > maxBytes {
        closed := true;
        return false;
      }
      hide Flatten, Stream;
      FlattenSnoc(Queued(), bytes);
      FlattenSnoc(tail, bytes);
      StreamSnoc(codec, accepted, frame);
      assert preamble ==> (tail + [bytes])[1..] == tail[1..] + [bytes];
      Associates(wire, Flatten(tail), bytes);
      PrefixKept(wire, Stream(codec, accepted), bytes);
      if begun {
        PrefixKept(wire + tail[0], Stream(codec, accepted), bytes);
      }
      pendingFrames := pendingFrames + 1;
      pendingBytes := pendingBytes + |bytes|;
      tail := tail + [bytes];
      accepted := accepted + [frame];
      return true;
    }

    /** The turn of the oldest write has come; on a closed writer a frame is dropped instead. */
    method Begin()
      requires Valid() && tail != [] && !begun
      modifies this
      ensures Valid() && accepted == old(accepted) && closed == old(closed) && wire == old(wire)
      ensures begun == (old(preamble) || !closed)
      ensures tail == if begun then old(tail) else old(tail)[1..]
    {
      if closed && !preamble {
        var bytes := tail[0];
        tail := tail[1..];
        pendingFrames := Max(0, pendingFrames - 1);
        pendingBytes := Max(0, pendingBytes - |bytes|);
      } else {
        HeadFits();
        begun := true;
      }
    }

    /** What is written next is what comes next in the stream. */
    lemma HeadFits()
      requires Valid() && tail != [] && (preamble || !closed)
      ensures wire + tail[0] <= Stream(codec, accepted)
    {
      if closed {
        assert [] + MAGIC == MAGIC;
      } else {
        Associates(wire, tail[0], Flatten(tail[1..]));
      }
    }

    /** The write under way settles: it took all its bytes, or failed after some of them. */
    method Finish(taken: nat, ok: bool)
      requires Valid() && begun && taken <= |tail[0]| && (ok ==> taken == |tail[0]|)
      modifies this
      ensures Valid() && accepted == old(accepted) && !begun && !preamble
      ensures closed == (old(closed) || !ok) && tail == old(tail)[1..]
      ensures wire == old(wire) + old(tail)[0][..taken]
    {
      var bytes := tail[0];
      PartFits(wire, bytes, taken, Stream(codec, accepted));
      Associates(wire, bytes, Flatten(tail[1..]));
      assert bytes[..|bytes|] == bytes;
      wire := wire + bytes[..taken];
      if !preamble {
        pendingFrames := Max(0, pendingFrames - 1);
        pendingBytes := Max(0, pendingBytes - |bytes|);
      }
      tail := tail[1..];
      preamble, begun := false, false;
      if !ok {
        closed := true;
      }
    }
  
    /** The other end never reads anything but the accepted frames in order, and all of them once the queue is empty. */
    lemma PeerReads()
      requires Valid() && Lossless(codec)
      ensures Drain(codec, Reader(wire, false, false)).0 <= accepted
      ensures !closed && tail == [] ==> Drain(codec, Reader(wire, false, false)) == (accepted, true)
    {
      PrefixRead(codec, accepted, wire);
      if !closed && tail == [] {
        assert wire + [] == wire;
        RoundTrip(codec, accepted);
      }
    }
  }

  /** A stream that stopped anywhere is read as some of its first frames. */
  lemma PrefixRead<F(!new)>(c: Codec<F>, frames: seq<F>, bytes: seq<Byte>)
    requires Lossless(c) && (forall i :: 0 <= i < |frames| ==> Encodable(c, frames[i])) && bytes <= Stream(c, frames)
    ensures Drain(c, Reader(bytes, false, false)).0 <= frames
  {
    assert bytes == Stream(c, frames)[..|bytes|];
    CutStream(c, frames, |bytes|);
    if |bytes| >= 4 {
      WholeAtMost(c, frames, |bytes| - 4);
    }
  }
}
