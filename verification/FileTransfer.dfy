/**
 * A TCF1 file transfer after it was accepted: data frames, each as long as it
 * can be, then a final frame with the size and the digest.
 */
module FileTransfer {
  import opened Basics
  import opened Bytes

  const META: Byte := 1
  const DATA: Byte := 2
  const FINAL: Byte := 3
  const CANCEL: Byte := 4

  type Digest = nat

  /** What a final or cancelling frame says; `context` stands for the session or the grant it belongs to. */
  datatype Meta = Meta(isFinal: bool, context: nat, size: nat, sha256: Digest)

  /** JSON as bytes, the digest as a function of all bytes fed to it, and the two limits on a payload. */
  datatype Format = Format(
    encode: Meta -> seq<Byte>,
    decode: seq<Byte> -> Option<Meta>,
    hash: seq<Byte> -> Digest,
    chunkBytes: nat,
    controlBytes: nat)

  ghost predicate Good(f: Format) {
    && 1 <= f.chunkBytes < Pow256(4) && f.controlBytes < Pow256(4)
    && forall m: Meta :: f.decode(f.encode(m)) == Some(m) && |f.encode(m)| <= f.controlBytes
  }

  // ---- Frames ----

  function Pack(kind: Byte, payload: seq<Byte>): seq<Byte> {
    [kind] + BigEndian(|payload|, 4) + payload
  }

  datatype Header = Header(kind: Byte, length: nat)

  /** The header at the front of the input, unless it is cut short, of an unknown kind or too long. */
  function ReadHeader(f: Format, input: seq<Byte>): Option<Header> {
    if |input| < 5 then None
    else
      var kind, length := input[0], Number(input[1..5]);
      if kind !in {META, DATA, FINAL, CANCEL} || length > (if kind == DATA then f.chunkBytes else f.controlBytes)
          then None
      else Some(Header(kind, length))
  }

  lemma HeaderBack(f: Format, kind: Byte, payload: seq<Byte>, rest: seq<Byte>)
    requires kind in {META, DATA, FINAL, CANCEL} && |payload| < Pow256(4)
    requires |payload| <= if kind == DATA then f.chunkBytes else f.controlBytes
    ensures ReadHeader(f, Pack(kind, payload) + rest) == Some(Header(kind, |payload|))
    ensures |Pack(kind, payload)| == 5 + |payload|
    ensures (Pack(kind, payload) + rest)[5..5 + |payload|] == payload
      && (Pack(kind, payload) + rest)[5 + |payload|..] == rest
  {
    var input := Pack(kind, payload) + rest;
    assert input[1..5] == BigEndian(|payload|, 4);
    NumberOfBigEndian(|payload|, 4);
  }

  // ---- The sender ----

  /** The rest of a file from `sent` on, cut into frames. */
  function DataFrom(f: Format, file: seq<Byte>, sent: nat): seq<Byte>
    requires f.chunkBytes >= 1 && sent <= |file|
    decreases |file| - sent
  {
    if sent == |file| then []
    else
      var end := Min(sent + f.chunkBytes, |file|);
      Pack(DATA, file[sent..end]) + DataFrom(f, file, end)
  }

  function Trailer(f: Format, file: seq<Byte>, context: nat): seq<Byte> {
    Pack(FINAL, f.encode(Meta(true, context, |file|, f.hash(file))))
  }

  /** Everything the sender writes for the body of a file. */
  function Body(f: Format, file: seq<Byte>, context: nat): seq<Byte>
    requires f.chunkBytes >= 1
  {
    DataFrom(f, file, 0) + Trailer(f, file, context)
  }

  lemma OneMoreChunk(f: Format, file: seq<Byte>, sent: nat, wire: seq<Byte>)
    requires f.chunkBytes >= 1 && sent < |file|
    ensures var end := Min(sent + f.chunkBytes, |file|);
            wire + Pack(DATA, file[sent..end]) + DataFrom(f, file, end) == wire + DataFrom(f, file, sent)
  {
  }

  lemma NothingLeft(f: Format, file: seq<Byte>, tail: seq<Byte>)
    requires f.chunkBytes >= 1
    ensures DataFrom(f, file, |file|) + tail == tail
  {
  }

  method SendBody(f: Format, file: seq<Byte>, context: nat) returns (wire: seq<Byte>)
    requires f.chunkBytes >= 1
    ensures wire == Body(f, file, context)
  {
    hide DataFrom, Pack;
    NothingLeft(f, file, []);
    wire := [];
    var hashed: seq<Byte> := [];
    var sent := 0;
    while sent < |file|
      invariant 0 <= sent <= |file| && hashed == file[..sent]
      invariant wire + DataFrom(f, file, sent) == DataFrom(f, file, 0)
    {
      var end := Min(sent + f.chunkBytes, |file|);
      var chunk := file[sent..end];
      hashed := hashed + chunk;
      OneMoreChunk(f, file, sent, wire);
      wire := wire + Pack(DATA, chunk);
      sent := end;
    }
    assert hashed == file && wire + DataFrom(f, file, |file|) == wire;
    wire := wire + Pack(FINAL, f.encode(Meta(true, context, sent, f.hash(hashed))));
  }

  // ---- The receiver ----

  /** `written` is what the sink was given, in order. */
  datatype Outcome = Done(written: seq<Byte>) | Failed(written: seq<Byte>)

  /** What the receiver of an offer of `size` bytes makes of its input, having received some already. */
  function Accept(f: Format, input: seq<Byte>, size: nat, context: nat, received: seq<Byte>): Outcome
    decreases |input|
  {
    match ReadHeader(f, input)
    case None => Failed(received)
    case Some(header) =>
      if |input| < 5 + header.length then Failed(received)
      else
        var payload, rest := input[5..5 + header.length], input[5 + header.length..];
        if header.kind == DATA then
          if size <= |received| || header.length != Min(f.chunkBytes, size - |received|) then Failed(received)
          else Accept(f, rest, size, context, received + payload)
        else if header.kind == FINAL && Sealed(f, payload, size, context, received) then Done(received)
        else Failed(received)
  }

  /** A final frame for this transfer, of this size, with the digest of what was received. */
  predicate Sealed(f: Format, payload: seq<Byte>, size: nat, context: nat, received: seq<Byte>) {
    var final := f.decode(payload);
    && final.Some? && final.value.isFinal && final.value.context == context
    && final.value.size == |received| == size && final.value.sha256 == f.hash(received)
  }

  lemma Shifted(input: seq<Byte>, offset: nat, length: nat)
    requires offset + 5 + length <= |input|
    ensures input[offset..][5..5 + length] == input[offset + 5..offset + 5 + length]
    ensures input[offset..][5 + length..] == input[offset + 5 + length..]
  {
  }

  // ---- Both together ----

  lemma AcceptsData(f: Format, chunk: seq<Byte>, rest: seq<Byte>, size: nat, context: nat, received: seq<Byte>)
    requires Good(f) && size > |received| && |chunk| == Min(f.chunkBytes, size - |received|)
    ensures Accept(f, Pack(DATA, chunk) + rest, size, context, received)
      == Accept(f, rest, size, context, received + chunk)
  {
    HeaderBack(f, DATA, chunk, rest);
  }

  lemma AcceptsTrailer(f: Format, file: seq<Byte>, context: nat)
    requires Good(f)
    ensures Accept(f, Trailer(f, file, context), |file|, context, file) == Done(file)
  {
    var payload := f.encode(Meta(true, context, |file|, f.hash(file)));
    HeaderBack(f, FINAL, payload, []);
    assert Pack(FINAL, payload) + [] == Pack(FINAL, payload);
  }

  lemma {:induction false} AcceptsRest(f: Format, file: seq<Byte>, sent: nat, context: nat)
    requires Good(f) && sent <= |file|
    ensures Accept(f, DataFrom(f, file, sent) + Trailer(f, file, context), |file|, context, file[..sent]) == Done(file)
    decreases |file| - sent
  {
    hide Trailer, Pack, Accept, DataFrom;
    if sent == |file| {
      NothingLeft(f, file, Trailer(f, file, context));
      AcceptsTrailer(f, file, context);
      assert file[..sent] == file;
    } else {
      var end := Min(sent + f.chunkBytes, |file|);
      var chunk := file[sent..end];
      DataStep(f, file, sent, chunk, Trailer(f, file, context));
      AcceptsData(f, chunk, DataFrom(f, file, end) + Trailer(f, file, context), |file|, context, file[..sent]);
      assert file[..sent] + chunk == file[..end];
      AcceptsRest(f, file, end, context);
    }
  }

  /** Whatever its size, an honest sender's file arrives exactly. */
  lemma TransferArrives(f: Format, file: seq<Byte>, context: nat)
    requires Good(f)
    ensures Accept(f, Body(f, file, context), |file|, context, []) == Done(file)
  {
    AcceptsRest(f, file, 0, context);
    assert file[..0] == [];
  }

  /** A header and its payload at the front of the input are a frame. */
  lemma FrameAtFront(f: Format, input: seq<Byte>)
    requires ReadHeader(f, input).Some? && |input| >= 5 + ReadHeader(f, input).value.length
    ensures var header := ReadHeader(f, input).value;
            input == Pack(header.kind, input[5..5 + header.length]) + input[5 + header.length..]
  {
    BigEndianOfNumber(input[1..5]);
  }

  /** What an accepted input begins with. */
  lemma AcceptedFront(f: Format, input: seq<Byte>, size: nat, context: nat, received: seq<Byte>)
    requires Accept(f, input, size, context, received).Done?
    ensures ReadHeader(f, input).Some? && |input| >= 5 + ReadHeader(f, input).value.length
    ensures var header := ReadHeader(f, input).value;
            var body, later := input[5..5 + header.length], input[5 + header.length..];
            if header.kind == DATA
            then size > |received| && |body| == Min(f.chunkBytes, size - |received|)
              && Accept(f, input, size, context, received) == Accept(f, later, size, context, received + body)
            else (
              && header.kind == FINAL && Sealed(f, body, size, context, received)
              && Accept(f, input, size, context, received) == Done(received))
  {
  }

  lemma DataStep(f: Format, file: seq<Byte>, sent: nat, body: seq<Byte>, tail: seq<Byte>)
    requires f.chunkBytes >= 1 && sent < |file| && |body| == Min(f.chunkBytes, |file| - sent)
      && file[sent..sent + |body|] == body
    ensures DataFrom(f, file, sent) + tail == Pack(DATA, body) + (DataFrom(f, file, sent + |body|) + tail)
  {
  }

  lemma BodyOf(file: seq<Byte>, received: seq<Byte>, body: seq<Byte>)
    requires received + body <= file
    ensures received <= file && |received| + |body| <= |file| && file[|received|..|received| + |body|] == body
  {
    assert file[..|received + body|] == received + body;
    assert file[..|received + body|][|received|..] == body;
  }

  lemma {:induction false} OnlyRest(f: Format, input: seq<Byte>, size: nat, context: nat, received: seq<Byte>)
    returns (payload: seq<Byte>, rest: seq<Byte>)
    requires f.chunkBytes >= 1 && |received| <= size && Accept(f, input, size, context, received).Done?
    ensures var file := Accept(f, input, size, context, received).written;
            && |file| == size && received <= file
            && input == DataFrom(f, file, |received|) + (Pack(FINAL, payload) + rest)
            && Sealed(f, payload, size, context, file)
    decreases |input|
  {
    hide Accept, ReadHeader, Pack, DataFrom, Sealed;
    AcceptedFront(f, input, size, context, received);
    FrameAtFront(f, input);
    var header := ReadHeader(f, input).value;
    var body, later := input[5..5 + header.length], input[5 + header.length..];
    var file := Accept(f, input, size, context, received).written;
    if header.kind == DATA {
      payload, rest := OnlyRest(f, later, size, context, received + body);
      BodyOf(file, received, body);
      DataStep(f, file, |received|, body, Pack(FINAL, payload) + rest);
    } else {
      payload, rest := body, later;
      SealedSize(f, payload, size, context, received);
      NothingLeft(f, file, input);
    }
  }

  lemma SealedSize(f: Format, payload: seq<Byte>, size: nat, context: nat, received: seq<Byte>)
    requires Sealed(f, payload, size, context, received)
    ensures |received| == size
  {
  }

  /**
   * Only what an honest sender of the same bytes could have sent is accepted:
   * the input begins with exactly its data frames, so each is as long as it
   * can be, and then a final frame for this transfer with the offered size
   * and the digest of exactly the bytes given to the sink.
   */
  lemma OnlyFaithfulTransfers(f: Format, input: seq<Byte>, size: nat, context: nat)
    returns (payload: seq<Byte>, rest: seq<Byte>)
    requires f.chunkBytes >= 1 && Accept(f, input, size, context, []).Done?
    ensures var file := Accept(f, input, size, context, []).written;
            && |file| == size
            && input == DataFrom(f, file, 0) + (Pack(FINAL, payload) + rest)
            && Sealed(f, payload, size, context, file)
  {
    payload, rest := OnlyRest(f, input, size, context, []);
  }

  /** Even a failed transfer never gives the sink more than was offered. */
  lemma {:induction false} NeverTooMuch(f: Format, input: seq<Byte>, size: nat, context: nat, received: seq<Byte>)
    requires |received| <= size
    ensures |Accept(f, input, size, context, received).written| <= size
    ensures received <= Accept(f, input, size, context, received).written
    decreases |input|
  {
    var header := ReadHeader(f, input);
    if header.Some? && |input| >= 5 + header.value.length && header.value.kind == DATA && size > |received|
       && header.value.length == Min(f.chunkBytes, size - |received|) {
      NeverTooMuch(f, input[5 + header.value.length..], size, context, received + input[5..5 + header.value.length]);
    }
  }
}
