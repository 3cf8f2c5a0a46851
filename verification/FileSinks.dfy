/**
 * Where received files go: the arithmetic that decides what fits, the worker
 * that writes to storage a piece at a time, and the sink in front of it.
 */
module FileSinks {
  import opened Basics
  import opened Bytes

  // ---- What fits ----

  const MIN_HEADROOM: nat := 64 * 1024 * 1024
  const CHUNK_BYTES: nat := 64 * 1024

  /** Ten percent, rounded up, but at least 64 MiB. */
  function StorageHeadroom(size: nat): nat {
    Max(MIN_HEADROOM, (size + 9) / 10)
  }

  /** The largest size advertised for this much free space. */
  function MaxSizeForAvailableSpace(available: nat, hardMax: nat): nat {
    if available < MIN_HEADROOM then 0
    else
      var fixedReserve := available - MIN_HEADROOM;
      var proportionalReserve := available * 10 / 11;
      Min(hardMax, if fixedReserve <= MIN_HEADROOM * 10 then fixedReserve else proportionalReserve)
  }

  /** The check made when an offer is accepted. */
  predicate Fits(size: nat, available: nat, hardMax: nat) {
    size <= hardMax && size + StorageHeadroom(size) <= available
  }

  /**
   * The advertised limit is the inverse of the check: a size is within it if
   * and only if it would be accepted, except that with less than 64 MiB free
   * the limit of zero would still seem to admit an empty file.
   */
  lemma LimitIsExact(size: nat, available: nat, hardMax: nat)
    ensures size <= MaxSizeForAvailableSpace(available, hardMax)
      <==> Fits(size, available, hardMax) || (available < MIN_HEADROOM && size == 0)
  {
    if available >= MIN_HEADROOM {
      if available - MIN_HEADROOM <= MIN_HEADROOM * 10 {
        assert size <= MIN_HEADROOM * 10 ==> (size + 9) / 10 <= MIN_HEADROOM;
      } else {
        TenPercent(size, available);
        assert available * 10 / 11 >= MIN_HEADROOM * 10;
      }
    }
  }

  /** Leaving a tenth of the size free, in whole bytes, is dividing by 1.1. */
  lemma TenPercent(size: nat, available: nat)
    ensures size + (size + 9) / 10 <= available <==> size <= available * 10 / 11
  {
  }

  datatype Kind = Picker | Opfs

  datatype Support = Support(picker: bool, opfs: bool, available: Option<nat>)

  datatype Reason = FileTooLarge | NoSink | NoStorageEstimate | InsufficientSpace

  function Receivable(s: Support): bool {
    s.opfs && s.available.Some? && s.available.value >= MIN_HEADROOM
  }

  function Preferred(s: Support): Option<Kind> {
    if s.picker then Some(Picker) else if Receivable(s) then Some(Opfs) else None
  }

  /** The largest size this browser says it can receive. */
  function AdvertisedMax(s: Support, hardMax: nat): nat {
    if Preferred(s) == Some(Picker) then hardMax
    else if s.opfs && s.available.Some? then MaxSizeForAvailableSpace(s.available.value, hardMax) else 0
  }

  /** The decision on an offer; None accepts it. */
  function ReceiveCapacity(s: Support, size: nat, hardMax: nat, kind: Option<Kind>): Option<Reason> {
    if size > hardMax then Some(FileTooLarge)
    else
      var selected := if kind.Some? then kind else Preferred(s);
      if selected == Some(Picker) then (if s.picker then None else Some(NoSink))
      else if selected != Some(Opfs) || !s.opfs then Some(NoSink)
      else if s.available.None? then Some(NoStorageEstimate)
      else if s.available.value >= size + StorageHeadroom(size) then None
      else Some(InsufficientSpace)
  }

  /** What is advertised is what is accepted, for every browser and every offer. */
  lemma AdvertisedIsAccepted(s: Support, size: nat, hardMax: nat)
    ensures ReceiveCapacity(s, size, hardMax, None) == None
      <==> Preferred(s).Some? && size <= AdvertisedMax(s, hardMax)
  {
    if s.available.Some? {
      LimitIsExact(size, s.available.value, hardMax);
    }
  }

  /** The headroom is the least amount that is both 64 MiB and a tenth of the size. */
  lemma HeadroomIsLeast(size: nat, h: nat)
    ensures h >= StorageHeadroom(size) <==> h >= 64 * 1024 * 1024 && h * 10 >= size
  {
  }

  /** The offer goes to a file the user picked: because that was asked for, or by preference. */
  predicate ToPicker(s: Support, kind: Option<Kind>) {
    kind == Some(Picker) || (kind == None && s.picker)
  }

  predicate ToStorage(s: Support, kind: Option<Kind>) {
    kind == Some(Opfs) || (kind == None && !s.picker && Receivable(s))
  }

  /** When exactly an offer is accepted, and the reason otherwise; space is tested whichever way storage was chosen. */
  lemma CapacityAnswer(s: Support, size: nat, hardMax: nat, kind: Option<Kind>)
    ensures var answer := ReceiveCapacity(s, size, hardMax, kind);
            var picked := ToPicker(s, kind) && s.picker;
            var stored := ToStorage(s, kind) && s.opfs;
            && (answer == Some(FileTooLarge) <==> size > hardMax)
            && (answer == Some(NoSink) <==> size <= hardMax && !picked && !stored)
            && (answer == Some(NoStorageEstimate) <==> size <= hardMax && stored && s.available.None?)
            && (answer == Some(InsufficientSpace) <==>
                  && size <= hardMax && stored && s.available.Some?
                  && !Fits(size, s.available.value, hardMax))
            && (answer == None <==>
                  && size <= hardMax
                  && (picked || (stored && s.available.Some? && Fits(size, s.available.value, hardMax))))
  {
  }

  // ---- The worker ----

  /** What the storage does with a call: how many bytes it says it wrote, or an exception. */
  datatype Answer = Wrote(count: int) | Threw

  /** The storage takes `n` bytes, a piece at a time, from its call number `from` on. */
  predicate Serves(storage: nat -> Answer, from: nat, n: nat)
    decreases n
  {
    n == 0 || (
      && storage(from).Wrote? && 1 <= storage(from).count <= n
      && Serves(storage, from + 1, n - storage(from).count))
  }

  /** In how many calls. */
  function Pieces(storage: nat -> Answer, from: nat, n: nat): (calls: nat)
    requires Serves(storage, from, n)
    ensures n > 0 ==> calls > 0
    decreases n
  {
    if n == 0 then 0 else 1 + Pieces(storage, from + 1, n - storage(from).count)
  }

  lemma NextPiece(storage: nat -> Answer, from: nat, n: nat)
    ensures n == 0 ==> Serves(storage, from, n) && Pieces(storage, from, n) == 0
    ensures n > 0 && (storage(from).Threw? || storage(from).count <= 0 || storage(from).count > n) ==>
      !Serves(storage, from, n)
    ensures n > 0 && storage(from).Wrote? && 1 <= storage(from).count <= n ==>
      var rest := n - storage(from).count;
      && (Serves(storage, from, n) <==> Serves(storage, from + 1, rest))
      && (Serves(storage, from, n) ==> Pieces(storage, from, n) == 1 + Pieces(storage, from + 1, rest))
  {
  }

  function Sum(counts: seq<nat>): nat {
    if counts == [] then 0 else counts[0] + Sum(counts[1..])
  }

  /** The answers from call number `from` on are these counts, each at least one. */
  ghost predicate Answers(storage: nat -> Answer, from: nat, counts: seq<nat>) {
    forall i :: 0 <= i < |counts| ==> counts[i] >= 1 && storage(from + i) == Wrote(counts[i])
  }

  /** The storage takes a chunk exactly if its next answers are positive counts that add up to the chunk's length. */
  lemma {:induction false} ServesByCounts(storage: nat -> Answer, from: nat, n: nat)
    ensures Serves(storage, from, n) <==> exists counts :: Answers(storage, from, counts) && Sum(counts) == n
    ensures Serves(storage, from, n) ==>
      exists counts :: Answers(storage, from, counts) && Sum(counts) == n && |counts| == Pieces(storage, from, n)
    decreases n
  {
    if Serves(storage, from, n) {
      if n == 0 {
        assert Answers(storage, from, []) && Sum([]) == 0;
      } else {
        var count := storage(from).count;
        ServesByCounts(storage, from + 1, n - count);
        var rest :| Answers(storage, from + 1, rest) && Sum(rest) == n - count
          && |rest| == Pieces(storage, from + 1, n - count);
        var counts := [count] + rest;
        assert counts[1..] == rest;
        assert forall i :: 1 <= i < |counts| ==> counts[i] == rest[i - 1] && from + i == from + 1 + (i - 1);
        assert Answers(storage, from, counts);
      }
    }
    if counts :| Answers(storage, from, counts) && Sum(counts) == n {
      CountsServe(storage, from, counts);
    }
  }

  lemma {:induction false} CountsServe(storage: nat -> Answer, from: nat, counts: seq<nat>)
    requires Answers(storage, from, counts)
    ensures Serves(storage, from, Sum(counts))
    decreases |counts|
  {
    if counts != [] {
      assert forall i :: 0 <= i < |counts[1..]| ==> counts[1..][i] == counts[i + 1] && from + 1 + i == from + (i + 1);
      CountsServe(storage, from + 1, counts[1..]);
    }
  }

  class OpfsWorker {
    /** What the storage will answer to its first, second, ... call. */
    const storage: nat -> Answer
    var calls: nat
    /** Offsets of the files being written. */
    var active: map<nat, nat>
    var files: map<nat, seq<Byte>>

    /** A file being written ends where its offset says. */
    ghost predicate Valid()
      reads this
    {
      forall t :: t in active ==> t in files && active[t] == |files[t]|
    }

    constructor (storage: nat -> Answer)
      ensures Valid() && active == map[] && files == map[]
    {
      this.storage := storage;
      calls, active, files := 0, map[], map[];
    }

    method Ask() returns (answer: Answer)
      modifies this`calls
      ensures answer == storage(old(calls)) && calls == old(calls) + 1
    {
      answer := storage(calls);
      calls := calls + 1;
    }

    ghost predicate OthersKept(t: nat, activeBefore: map<nat, nat>, filesBefore: map<nat, seq<Byte>>)
      reads this
    {
      forall u :: u != t ==>
        && (u in active <==> u in activeBefore) && (u in active ==> active[u] == activeBefore[u])
        && (u in files <==> u in filesBefore) && (u in files ==> files[u] == filesBefore[u])
    }

    /**
     * Makes a new, empty file: it is created, then opened and emptied (one call
     * here), and removed again if that fails.
     */
    method Init(t: nat) returns (ok: bool)
      requires Valid()
      modifies this
      ensures Valid() && OthersKept(t, old(active), old(files))
      ensures ok <==>
        t !in old(active) && t !in old(files) && !storage(old(calls)).Threw? && !storage(old(calls) + 1).Threw?
      ensures ok ==> t in active && files[t] == []
      ensures !ok ==> active == old(active)
      ensures !ok && t in files && t !in old(files) ==>
        files[t] == [] && calls > old(calls) && storage(calls - 1).Threw?
    {
      if t in active || t in files {
        return false;
      }
      var created := Ask();
      if created.Threw? {
        return false;
      }
      var prepared := Ask();
      if prepared.Threw? {
        var removed := Ask();
        if removed.Threw? {
          files := files[t := []];
        }
        return false;
      }
      files := files[t := []];
      active := active[t := 0];
      return true;
    }

    /**
     * Writes a chunk in as many pieces as the storage takes it in. The storage
     * makes progress or is refused, so the loop ends.
     */
    method Write(t: nat, chunk: seq<Byte>) returns (ok: bool)
      requires Valid()
      modifies this
      ensures Valid() && OthersKept(t, old(active), old(files))
      ensures ok <==> t in old(active) && |chunk| <= CHUNK_BYTES && Serves(storage, old(calls), |chunk|)
      ensures ok ==> t in active && t in files && files[t] == old(files)[t] + chunk
      ensures ok ==> calls == old(calls) + Pieces(storage, old(calls), |chunk|)
      ensures calls >= old(calls)
      ensures t in old(active) <==> t in active
    {
      if t !in active || |chunk| > CHUNK_BYTES {
        return false;
      }
      hide Serves, Pieces;
      var bytes := chunk;
      while bytes != []
        invariant t in active && t in files && active[t] == |files[t]| && files[t] + bytes == old(files)[t] + chunk
        invariant files == old(files)[t := files[t]] && active == old(active)[t := active[t]]
        invariant calls >= old(calls)
        invariant Serves(storage, calls, |bytes|) <==> Serves(storage, old(calls), |chunk|)
        invariant Serves(storage, calls, |bytes|) ==>
          calls + Pieces(storage, calls, |bytes|) == old(calls) + Pieces(storage, old(calls), |chunk|)
        decreases |bytes|
      {
        NextPiece(storage, calls, |bytes|);
        var answer := Ask();
        if answer.Threw? || answer.count <= 0 || answer.count > |bytes| {
          return false;
        }
        var offset := active[t];
        var piece := bytes[..answer.count];
        assert files[t] + bytes == files[t] + piece + bytes[answer.count..];
        files := files[t := files[t][..offset] + piece];
        active := active[t := offset + answer.count];
        bytes := bytes[answer.count..];
      }
      NextPiece(storage, calls, 0);
      return true;
    }

    method Close(t: nat) returns (ok: bool)
      requires Valid()
      modifies this
      ensures Valid() && OthersKept(t, old(active), old(files))
      ensures ok <==> t in old(active) && !storage(old(calls)).Threw? && !storage(old(calls) + 1).Threw?
      ensures t !in active && files == old(files) && calls >= old(calls)
    {
      if t !in active {
        return false;
      }
      active := active - {t};
      var flushed := Ask();
      var closed := Ask();
      return !flushed.Threw? && !closed.Threw?;
    }

    /** Gives a file up and removes it, as far as the storage lets it. */
    method CloseActive(t: nat) returns (ok: bool)
      requires Valid()
      modifies this
      ensures Valid() && OthersKept(t, old(active), old(files))
      ensures var steps := if t in old(active) then 2 else 0;
              && calls == old(calls) + steps + 1
              && (ok <==> forall i :: old(calls) <= i < calls ==> !storage(i).Threw?)
              && files == if storage(calls - 1).Threw? then old(files) else old(files) - {t}
      ensures t !in active
    {
      var failed := false;
      if t in active {
        active := active - {t};
        var flushed := Ask();
        var closed := Ask();
        failed := flushed.Threw? || closed.Threw?;
      }
      var removed := Ask();
      if removed.Threw? {
        failed := true;
      } else {
        files := files - {t};
      }
      return !failed;
    }
  }

  // ---- The sink ----

  datatype State = Open | Closed | Aborted | Removed

  class WorkerFileSink {
    const worker: OpfsWorker
    const transferId: nat
    const size: nat
    var bytesWritten: nat
    var state: State
    /** The chunks accepted so far, in the order of the calls. */
    ghost var accepted: seq<Byte>

    /** While the sink is open, and once it is closed, what is stored is what was accepted; closed, it is complete. */
    ghost predicate Valid()
      reads this, worker
    {
      && worker.Valid()
      && bytesWritten == |accepted| <= size
      && (state == Open && transferId in worker.active ==> worker.files[transferId] == accepted)
      && (state == Closed ==>
            && transferId !in worker.active && transferId in worker.files && worker.files[transferId] == accepted
            && |accepted| == size)
    }

    constructor (worker: OpfsWorker, transferId: nat, size: nat)
      requires worker.Valid() && transferId in worker.active && worker.files[transferId] == []
      ensures Valid() && state == Open && accepted == []
      ensures this.worker == worker && this.transferId == transferId && this.size == size
    {
      this.worker, this.transferId, this.size := worker, transferId, size;
      bytesWritten, state, accepted := 0, Open, [];
    }

    /** The file is given up: it is gone, unless the storage refused to remove it in its last call. */
    twostate predicate GivenUp()
      reads this, worker
    {
      && state == Aborted && transferId !in worker.active && worker.calls > old(worker.calls)
      && (transferId in worker.files ==> worker.storage(worker.calls - 1).Threw?)
    }

    /** After an error nothing more is accepted, whether or not the file could be removed. */
    method Fail()
      requires worker.Valid() && bytesWritten == |accepted| <= size
      modifies this`state, worker
      ensures Valid() && GivenUp()
    {
      var ok := worker.CloseActive(transferId);
      state := Aborted;
    }

    method Write(chunk: seq<Byte>) returns (ok: bool)
      requires Valid()
      modifies this, worker
      ensures Valid()
      ensures old(state) != Open ==> !ok && state == old(state) && accepted == old(accepted)
      ensures old(state) == Open ==>
        if ok then state == Open && accepted == old(accepted) + chunk
        else GivenUp() && accepted == old(accepted)
      ensures old(state) == Open ==>
        (ok <==>
          && |old(accepted)| + |chunk| <= size && |chunk| <= CHUNK_BYTES && transferId in old(worker.active)
          && Serves(worker.storage, old(worker.calls), |chunk|))
      ensures ok ==> worker.calls == old(worker.calls) + Pieces(worker.storage, old(worker.calls), |chunk|)
      ensures ok ==> transferId in worker.active
    {
      if state != Open {
        return false;
      }
      if |chunk| > CHUNK_BYTES || bytesWritten + |chunk| > size {
        Fail();
        return false;
      }
      ok := worker.Write(transferId, chunk);
      if !ok {
        Fail();
        return false;
      }
      bytesWritten := bytesWritten + |chunk|;
      accepted := accepted + chunk;
    }

    method Close() returns (ok: bool)
      requires Valid()
      modifies this`state, worker
      ensures Valid()
      ensures old(state) != Open ==> !ok && state == old(state)
      ensures old(state) == Open ==>
        if ok then state == Closed && worker.files[transferId] == accepted else GivenUp()
      ensures old(state) == Open ==>
        (ok <==>
          && |accepted| == size && transferId in old(worker.active)
          && !worker.storage(old(worker.calls)).Threw? && !worker.storage(old(worker.calls) + 1).Threw?)
    {
      if state != Open {
        return false;
      }
      if bytesWritten != size {
        Fail();
        return false;
      }
      ok := worker.Close(transferId);
      if !ok {
        Fail();
        return false;
      }
      state := Closed;
    }

    method Abort()
      requires Valid()
      modifies this`state, worker
      ensures Valid()
      ensures if old(state).Open? || old(state).Closed? then GivenUp()
              else state == old(state) && worker.calls == old(worker.calls)
    {
      if state == Removed || state == Aborted {
        return;
      }
      Fail();
    }

    /**
     * Deletes the file, whatever state it is in. If the storage refuses, the
     * sink stays as it was; an open one can then only fail or be removed.
     */
    method Remove() returns (ok: bool)
      requires Valid()
      modifies this`state, worker
      ensures Valid()
      ensures if ok then state == Removed else state == old(state)
      ensures old(state) == Removed ==> ok
      ensures old(state) != Removed ==>
        (ok <==> forall i :: old(worker.calls) <= i < worker.calls ==> !worker.storage(i).Threw?)
      ensures ok && old(state) != Removed ==> transferId !in worker.files && transferId !in worker.active
    {
      if state == Removed {
        return true;
      }
      if state == Open {
        ok := worker.CloseActive(transferId);
        if !ok {
          return;
        }
      }
      ok := worker.CloseActive(transferId);
      if ok {
        state := Removed;
      }
    }

    /** The stored file, of a closed sink only. */
    method GetFile() returns (file: Option<seq<Byte>>)
      requires Valid()
      ensures file == if state == Closed then Some(accepted) else None
      ensures file.Some? ==> |file.value| == size == bytesWritten
    {
      file := if state == Closed then Some(worker.files[transferId]) else None;
    }
  }
}
