/**
 * The TCG1 framing of a control stream: a magic, then frames with a four-byte
 * length. The reader is given the bytes in arbitrary chunks.
 */
module FrameCodec {
  import opened Basics
  import opened Bytes

  const MAGIC: seq<Byte> := [0x54, 0x43, 0x47, 0x31]

  /** JSON and UTF-8: how a frame becomes bytes, and what bytes are a frame. */
  datatype Codec<!F> = Codec(encode: F -> seq<Byte>, decode: seq<Byte> -> Option<F>, maximum: nat)

  ghost predicate Lossless<F(!new)>(c: Codec<F>) {
    c.maximum < Pow256(4) && forall f: F :: c.decode(c.encode(f)) == Some(f)
  }

  datatype Outcome<+F> = Frame(frame: F) | End | Broken

  /** What is left to read, and what the reader remembers. */
  datatype Reader = Reader(rest: seq<Byte>, started: bool, ended: bool)

  // ---- Reading ----

  /** One frame, or the end of the stream between two frames; anything else is an error. */
  function ReadFrame<F>(c: Codec<F>, rest: seq<Byte>): (Outcome<F>, Reader) {
    if rest == [] then (End, Reader([], true, true))
    else if |rest| < 4 then (Broken, Reader([], true, true))
    else
      var length := Number(rest[..4]);
      if length == 0 || length > c.maximum then (Broken, Reader(rest[4..], true, false))
      else if |rest| < 4 + length then (Broken, Reader([], true, true))
      else
        var left := Reader(rest[4 + length..], true, false);
        match c.decode(rest[4..4 + length])
        case None => (Broken, left)
        case Some(f) => (Frame(f), left)
  }

  function ReadStep<F>(c: Codec<F>, r: Reader): (Outcome<F>, Reader) {
    if r.ended then (End, r)
    else if r.started then ReadFrame(c, r.rest)
    else if |r.rest| < 4 then (Broken, Reader([], false, true))
    else if r.rest[..4] != MAGIC then (Broken, Reader(r.rest[4..], false, false))
    else ReadFrame(c, r.rest[4..])
  }

  /** Reading until the first outcome that is not a frame; the flag says that this was a clean end. */
  function Drain<F>(c: Codec<F>, r: Reader): (seq<F>, bool)
    decreases |r.rest|
  {
    match ReadStep(c, r)
    case (Frame(f), left) => var (more, clean) := Drain(c, left); ([f] + more, clean)
    case (End, _) => ([], true)
    case (Broken, _) => ([], false)
  }

  // ---- Writing ----

  predicate Encodable<F>(c: Codec<F>, f: F) {
    0 < |c.encode(f)| <= c.maximum
  }

  function EncodeFrame<F>(c: Codec<F>, f: F): seq<Byte> {
    BigEndian(|c.encode(f)|, 4) + c.encode(f)
  }

  function EncodeAll<F>(c: Codec<F>, frames: seq<F>): seq<Byte> {
    if frames == [] then [] else EncodeFrame(c, frames[0]) + EncodeAll(c, frames[1..])
  }

  /** What a stream carries once `frames` have been written on it. */
  function Stream<F>(c: Codec<F>, frames: seq<F>): seq<Byte> {
    MAGIC + EncodeAll(c, frames)
  }

  lemma {:induction false} EncodeAllSnoc<F>(c: Codec<F>, frames: seq<F>, last: F)
    ensures EncodeAll(c, frames + [last]) == EncodeAll(c, frames) + EncodeFrame(c, last)
  {
    if frames == [] {
      assert [last][1..] == [];
    } else {
      assert (frames + [last])[1..] == frames[1..] + [last];
      EncodeAllSnoc(c, frames[1..], last);
    }
  }

  // ---- Round trip and truncation ----

  lemma FrameBack<F(!new)>(c: Codec<F>, f: F, more: seq<Byte>)
    requires Lossless(c) && Encodable(c, f)
    ensures ReadFrame(c, EncodeFrame(c, f) + more) == (Frame(f), Reader(more, true, false))
  {
    var bytes := EncodeFrame(c, f) + more;
    var n := |c.encode(f)|;
    assert bytes[..4] == BigEndian(n, 4);
    NumberOfBigEndian(n, 4);
    assert bytes[4..4 + n] == c.encode(f);
    assert bytes[4 + n..] == more;
  }

  /** A frame cut short is not a frame. */
  lemma FrameCut<F(!new)>(c: Codec<F>, f: F, cut: nat)
    requires Lossless(c) && Encodable(c, f) && 0 < cut < |EncodeFrame(c, f)|
    ensures ReadFrame(c, EncodeFrame(c, f)[..cut]) == (Broken, Reader([], true, true))
  {
    var n := |c.encode(f)|;
    if cut >= 4 {
      assert EncodeFrame(c, f)[..cut][..4] == BigEndian(n, 4);
      NumberOfBigEndian(n, 4);
    }
  }

  /** How many frames lie wholly within the first `cut` bytes, and whether those bytes end there. */
  function Whole<F>(c: Codec<F>, frames: seq<F>, cut: nat): (nat, bool) {
    if frames == [] then (0, cut == 0)
    else
      var size := |EncodeFrame(c, frames[0])|;
      if cut < size then (0, cut == 0)
      else var (k, exact) := Whole(c, frames[1..], cut - size); (k + 1, exact)
  }

  lemma {:induction false} WholeAtMost<F>(c: Codec<F>, frames: seq<F>, cut: nat)
    ensures Whole(c, frames, cut).0 <= |frames|
    ensures cut == |EncodeAll(c, frames)| ==> Whole(c, frames, cut) == (|frames|, true)
  {
    if frames != [] && cut >= |EncodeFrame(c, frames[0])| {
      WholeAtMost(c, frames[1..], cut - |EncodeFrame(c, frames[0])|);
    }
  }

  lemma DrainFrame<F(!new)>(c: Codec<F>, f: F, more: seq<Byte>)
    requires Lossless(c) && Encodable(c, f)
    ensures var (later, clean) := Drain(c, Reader(more, true, false));
            Drain(c, Reader(EncodeFrame(c, f) + more, true, false)) == ([f] + later, clean)
  {
    FrameBack(c, f, more);
  }

  lemma DrainCut<F(!new)>(c: Codec<F>, f: F, cut: nat)
    requires Lossless(c) && Encodable(c, f) && cut < |EncodeFrame(c, f)|
    ensures Drain(c, Reader(EncodeFrame(c, f)[..cut], true, false)) == ([], cut == 0)
  {
    if cut > 0 {
      FrameCut(c, f, cut);
    }
  }

  lemma TakeConcat(head: seq<Byte>, rest: seq<Byte>, cut: nat)
    requires cut <= |head + rest|
    ensures cut < |head| ==> (head + rest)[..cut] == head[..cut]
    ensures cut >= |head| ==> cut - |head| <= |rest| && (head + rest)[..cut] == head + rest[..cut - |head|]
  {
  }

  lemma TakeOneMore<F>(frames: seq<F>, k: nat)
    requires k < |frames|
    ensures [frames[0]] + frames[1..][..k] == frames[..k + 1]
  {
  }

  lemma {:induction false} CutBody<F(!new)>(c: Codec<F>, frames: seq<F>, cut: nat)
    requires Lossless(c) && cut <= |EncodeAll(c, frames)|
    requires forall i :: 0 <= i < |frames| ==> Encodable(c, frames[i])
    ensures var (k, exact) := Whole(c, frames, cut);
            k <= |frames| && Drain(c, Reader(EncodeAll(c, frames)[..cut], true, false)) == (frames[..k], exact)
  {
    if frames == [] {
      assert EncodeAll(c, frames)[..cut] == [];
    } else {
      hide Drain, EncodeFrame, Encodable, Lossless;
      var head, rest := EncodeFrame(c, frames[0]), EncodeAll(c, frames[1..]);
      TakeConcat(head, rest, cut);
      if cut < |head| {
        DrainCut(c, frames[0], cut);
      } else {
        DrainFrame(c, frames[0], rest[..cut - |head|]);
        CutBody(c, frames[1..], cut - |head|);
        TakeOneMore(frames, Whole(c, frames[1..], cut - |head|).0);
      }
    }
  }

  /**
   * Truncation, exactly: a stream cut anywhere yields the frames that lie
   * wholly before the cut, and then a clean end if and only if the cut is
   * between two frames; within the magic, a header or a payload it is an error.
   */
  lemma CutStream<F(!new)>(c: Codec<F>, frames: seq<F>, cut: nat)
    requires Lossless(c) && cut <= |Stream(c, frames)|
    requires forall i :: 0 <= i < |frames| ==> Encodable(c, frames[i])
    ensures Drain(c, Reader(Stream(c, frames)[..cut], false, false))
      == if cut < 4 then ([], false)
         else
           var (k, exact) := Whole(c, frames, cut - 4);
           assert k <= |frames| by { WholeAtMost(c, frames, cut - 4); }
           (frames[..k], exact)
  {
    if cut >= 4 {
      var bytes := Stream(c, frames)[..cut];
      assert bytes[..4] == MAGIC && bytes[4..] == EncodeAll(c, frames)[..cut - 4];
      CutBody(c, frames, cut - 4);
      DrainStarted(c, bytes);
    }
  }

  lemma DrainStarted<F>(c: Codec<F>, bytes: seq<Byte>)
    requires |bytes| >= 4 && bytes[..4] == MAGIC
    ensures Drain(c, Reader(bytes, false, false)) == Drain(c, Reader(bytes[4..], true, false))
  {
  }

  /** Round trip: whatever was written is read back, in order, and then the stream ends cleanly. */
  lemma RoundTrip<F(!new)>(c: Codec<F>, frames: seq<F>)
    requires Lossless(c) && forall i :: 0 <= i < |frames| ==> Encodable(c, frames[i])
    ensures Drain(c, Reader(Stream(c, frames), false, false)) == (frames, true)
  {
    var all := Stream(c, frames);
    CutStream(c, frames, |all|);
    WholeAtMost(c, frames, |all| - 4);
    assert all[..|all|] == all && frames[..|frames|] == frames;
  }

  // ---- The converse: only framed bytes end cleanly ----

  /** `bytes` are the lengths and payloads of `payloads`, each of a size a reader accepts. */
  function Packed(payloads: seq<seq<Byte>>): seq<Byte> {
    if payloads == [] then [] else BigEndian(|payloads[0]|, 4) + payloads[0] + Packed(payloads[1..])
  }

  /** The first frame of bytes that end cleanly, and what is left. */
  lemma CleanHead<F>(c: Codec<F>, bytes: seq<Byte>)
    requires bytes != [] && Drain(c, Reader(bytes, true, false)).1
    ensures |bytes| >= 4
    ensures var n := Number(bytes[..4]);
            && 0 < n <= c.maximum && 4 + n <= |bytes| && c.decode(bytes[4..4 + n]).Some?
            && var (later, clean) := Drain(c, Reader(bytes[4 + n..], true, false));
               clean && Drain(c, Reader(bytes, true, false)).0 == [c.decode(bytes[4..4 + n]).value] + later
  {
  }

  lemma SplitAt(bytes: seq<Byte>, n: nat)
    requires 4 + n <= |bytes|
    ensures bytes == bytes[..4] + bytes[4..4 + n] + bytes[4 + n..]
  {
  }

  lemma {:induction false} CleanIsFramed<F>(c: Codec<F>, bytes: seq<Byte>) returns (payloads: seq<seq<Byte>>)
    requires Drain(c, Reader(bytes, true, false)).1
    ensures bytes == Packed(payloads)
    ensures var frames := Drain(c, Reader(bytes, true, false)).0;
            |payloads| == |frames| && forall i :: 0 <= i < |frames| ==>
              0 < |payloads[i]| <= c.maximum && c.decode(payloads[i]) == Some(frames[i])
    decreases |bytes|
  {
    if bytes == [] {
      payloads := [];
    } else {
      hide Drain, Number, BigEndian;
      CleanHead(c, bytes);
      var length := Number(bytes[..4]);
      var later := CleanIsFramed(c, bytes[4 + length..]);
      payloads := [bytes[4..4 + length]] + later;
      BigEndianOfNumber(bytes[..4]);
      SplitAt(bytes, length);
      assert payloads[1..] == later;
    }
  }

  /**
   * Whatever a reader takes to a clean end is the magic followed by well-formed
   * frames, and it returned each of them.
   */
  lemma OnlyFramed<F>(c: Codec<F>, bytes: seq<Byte>) returns (payloads: seq<seq<Byte>>)
    requires Drain(c, Reader(bytes, false, false)).1
    ensures bytes == MAGIC + Packed(payloads)
    ensures var frames := Drain(c, Reader(bytes, false, false)).0;
            |payloads| == |frames| && forall i :: 0 <= i < |frames| ==>
              0 < |payloads[i]| <= c.maximum && c.decode(payloads[i]) == Some(frames[i])
  {
    DrainStarted(c, bytes);
    payloads := CleanIsFramed(c, bytes[4..]);
    assert bytes == bytes[..4] + bytes[4..];
  }
}
