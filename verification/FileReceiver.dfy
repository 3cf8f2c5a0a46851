/** Receiving a file: the frames of the transfer on one side, the sink on the other. */
module FileReceiver {
  import opened Basics
  import opened Bytes
  import opened FileTransfer
  import opened FileSinks

  /** The storage takes a file of `left` bytes from its call number `from` on, chunk by chunk, and closes it. */
  predicate TakesFile(storage: nat -> Answer, from: nat, left: nat, chunk: nat)
    decreases left
  {
    if left == 0 then !storage(from).Threw? && !storage(from + 1).Threw?
    else
      var n := Min(chunk, left);
      && n <= CHUNK_BYTES && Serves(storage, from, n)
      && (n == 0 || TakesFile(storage, from + Pieces(storage, from, n), left - n, chunk))
  }

  lemma OneMoreTaken(storage: nat -> Answer, from: nat, left: nat, chunk: nat)
    requires left > 0
    ensures TakesFile(storage, from, left, chunk) == (
              var n := Min(chunk, left);
              && n <= CHUNK_BYTES && Serves(storage, from, n)
              && TakesFile(storage, from + Pieces(storage, from, n), left - n, chunk))
  {
  }

  lemma AllTaken(storage: nat -> Answer, from: nat, chunk: nat)
    ensures TakesFile(storage, from, 0, chunk) <==> !storage(from).Threw? && !storage(from + 1).Threw?
  {
  }

  lemma SealedLength(f: Format, payload: seq<Byte>, size: nat, context: nat, received: seq<Byte>)
    ensures Sealed(f, payload, size, context, received) ==> |received| == size
  {
  }

  /** A frame that takes the transfer on. */
  predicate Onward(f: Format, kind: Byte, payload: seq<Byte>, size: nat, received: nat) {
    kind == DATA && size > received && |payload| == Min(f.chunkBytes, size - received)
  }

  /** One turn of the loop, on the input from `offset` on. */
  lemma Turn(f: Format, input: seq<Byte>, offset: nat, size: nat, context: nat, received: seq<Byte>)
    requires offset <= |input|
    ensures var header := ReadHeader(f, input[offset..]);
            var all := Accept(f, input[offset..], size, context, received);
            if header.None? || |input| - offset < 5 + header.value.length then all == Failed(received)
            else
              var end := offset + 5 + header.value.length;
              var payload := input[offset + 5..end];
              if Onward(f, header.value.kind, payload, size, |received|) then
                && all == Accept(f, input[end..], size, context, received + payload)
                && received + payload <= all.written
              else
                all == if header.value.kind == FINAL && Sealed(f, payload, size, context, received) then Done(received)
                       else Failed(received)
  {
    hide ReadHeader, Sealed;
    var header := ReadHeader(f, input[offset..]);
    if header.Some? && |input| - offset >= 5 + header.value.length {
      var end := offset + 5 + header.value.length;
      var payload := input[offset + 5..end];
      Shifted(input, offset, header.value.length);
      if Onward(f, header.value.kind, payload, size, |received|) {
        NeverTooMuch(f, input[end..], size, context, received + payload);
      }
    }
  }

  /**
   * The receive loop. It succeeds exactly if the input is a faithful transfer
   * and the storage takes the file. Success means that the input was accepted and that what
   * was accepted is what the closed sink holds; anything else aborts the sink.
   */
  method ReceiveFile(f: Format, input: seq<Byte>, size: nat, context: nat, sink: WorkerFileSink) returns (ok: bool)
    requires sink.Valid() && sink.state == Open && sink.accepted == [] && sink.size == size
    modifies sink, sink.worker
    ensures sink.Valid() && sink.accepted <= Accept(f, input, size, context, []).written
    ensures ok <==>
      && Accept(f, input, size, context, []).Done? && sink.transferId in old(sink.worker.active)
      && TakesFile(sink.worker.storage, old(sink.worker.calls), size, f.chunkBytes)
    ensures ok ==> sink.state == Closed && Accept(f, input, size, context, []) == Done(sink.accepted)
    ensures ok ==> sink.worker.files[sink.transferId] == sink.accepted
    ensures !ok ==> sink.GivenUp()
  {
    hide ReadHeader, Sealed, Serves, Pieces, TakesFile, Accept, OpfsWorker.Valid;
    var hashed: seq<Byte> := [];
    var received := 0;
    var offset := 0;
    ghost var all := Accept(f, input, size, context, []);
    while true
      invariant 0 <= offset <= |input| && sink.Valid() && sink.state == Open && hashed == sink.accepted
        && received == |hashed|
      invariant Accept(f, input[offset..], size, context, sink.accepted) == all && sink.accepted <= all.written
      invariant sink.transferId in sink.worker.active <==> sink.transferId in old(sink.worker.active)
      invariant received <= size && sink.worker.calls >= old(sink.worker.calls)
      invariant TakesFile(sink.worker.storage, sink.worker.calls, size - received, f.chunkBytes)
        <==> TakesFile(sink.worker.storage, old(sink.worker.calls), size, f.chunkBytes)
      decreases |input| - offset
    {
      Turn(f, input, offset, size, context, hashed);
      var header := ReadHeader(f, input[offset..]);
      if header.None? || |input| - offset < 5 + header.value.length {
        break;
      }
      var end := offset + 5 + header.value.length;
      var payload := input[offset + 5..end];
      if header.value.kind == FINAL {
        AllTaken(sink.worker.storage, sink.worker.calls, f.chunkBytes);
        SealedLength(f, payload, size, context, hashed);
        ok := Finish(f, payload, size, context, hashed, sink);
        return;
      }
      if header.value.kind != DATA || size <= received || |payload| != Min(f.chunkBytes, size - received) {
        break;
      }
      assert Onward(f, header.value.kind, payload, size, received);
      OneMoreTaken(sink.worker.storage, sink.worker.calls, size - received, f.chunkBytes);
      var written := sink.Write(payload);
      if !written {
        return false;
      }
      hashed := hashed + payload;
      received := received + |payload|;
      offset := end;
    }
    sink.Abort();
    return false;
  }

  /** The final frame: check it against what was received, then close the sink. */
  method Finish(f: Format, payload: seq<Byte>, size: nat, context: nat, hashed: seq<Byte>, sink: WorkerFileSink)
    returns (ok: bool)
    requires sink.Valid() && sink.state == Open && sink.size == size && hashed == sink.accepted
    modifies sink, sink.worker
    ensures sink.Valid() && sink.accepted == old(sink.accepted)
    ensures ok <==>
      && Sealed(f, payload, size, context, hashed) && sink.transferId in old(sink.worker.active)
      && !sink.worker.storage(old(sink.worker.calls)).Threw?
      && !sink.worker.storage(old(sink.worker.calls) + 1).Threw?
    ensures ok ==> sink.state == Closed && sink.worker.files[sink.transferId] == sink.accepted
    ensures !ok ==> sink.GivenUp()
  {
    var final := f.decode(payload);
    if final.None? || !final.value.isFinal || final.value.context != context || final.value.size != |hashed|
       || |hashed| != size || f.hash(hashed) != final.value.sha256 {
      sink.Abort();
      return false;
    }
    ok := sink.Close();
  }

  /** End to end: a file sent honestly is stored byte for byte, exactly if the storage takes it. */
  method Deliver(f: Format, file: seq<Byte>, context: nat, sink: WorkerFileSink) returns (ok: bool)
    requires Good(f) && sink.Valid() && sink.state == Open && sink.accepted == [] && sink.size == |file|
    modifies sink, sink.worker
    ensures sink.Valid()
    ensures ok <==>
      && sink.transferId in old(sink.worker.active)
      && TakesFile(sink.worker.storage, old(sink.worker.calls), |file|, f.chunkBytes)
    ensures ok ==> sink.state == Closed && sink.worker.files[sink.transferId] == file
    ensures !ok ==> sink.GivenUp()
  {
    var wire := SendBody(f, file, context);
    TransferArrives(f, file, context);
    ok := ReceiveFile(f, wire, |file|, context, sink);
  }
}
