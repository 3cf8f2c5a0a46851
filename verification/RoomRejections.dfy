/**
 * Rejections a stream carries: each answers a text that was read from it, and
 * comes after everything the owner had committed when it took the stream over.
 */
module RoomRejections {
  import opened RoomTypes
  import opened EventDeduper
  import opened RoomHost
  import opened RoomHostSafety
  import opened RoomNode
  import opened RoomGuarantee
  import opened RoomCatchUp
  import opened RoomSeamless
  import opened RoomTexts
  import opened RoomUps

  /** A stream whose first frame let its reader in. */
  predicate Opened(w: Wire) {
    Resumed(w) || JoinedOn(w)
  }

  /** The number that the first frame of an opened stream names: the length of the log at that time. */
  function Floor(w: Wire): nat {
    if Opened(w) then Reach(w.down[0]) else 0
  }

  /** The frames before frame `p` carry a reader to the floor. */
  ghost predicate Caught(w: Wire, p: nat)
    requires p <= |w.down|
  {
    Resumed(w) ==>
      var reached := Reached(w.down[..p], w.claim, false);
      reached.Some? ==> Floor(w) <= reached.value
  }

  ghost predicate RejectionsOk(w: Wire) {
    forall p :: 0 <= p < |w.down| && w.down[p].ActionRejected? ==>
      w.down[p].requestId in IdsIn(w.up, 0, w.upRead) && Caught(w, p)
  }

  ghost predicate AllRejectionsOk(wires: map<Id, Wire>) {
    forall s :: s in wires ==> RejectionsOk(wires[s])
  }

  /** Only streams of guests carry frames from guests. */
  ghost predicate Attributed(wires: map<Id, Wire>) {
    forall s :: s in wires ==> wires[s].upRead <= |wires[s].up| && (wires[s].up != [] ==> wires[s].peer.Some?)
  }

  predicate WireAhead(a: Wire, b: Wire) {
    b.up == a.up && a.upRead <= b.upRead && (a.upRead <= |a.up| ==> b.upRead <= |b.up|)
  }

  ghost predicate UpsAhead(a: map<Id, Wire>, b: map<Id, Wire>) {
    && (forall s :: s in a ==> s in b && WireAhead(a[s], b[s]))
    && (forall s :: s in b && s !in a ==> b[s].up == [] && b[s].upRead == 0 && b[s].down <= [JoinReject])
  }

  ghost predicate Guaranteed(h: Host, k: Host) {
    Evolves(h, k) || exists s :: TakesOver(h, k, s) || TurnsAway(h, k, s)
  }

  lemma GuaranteedClaims(h: Host, k: Host)
    requires Guaranteed(h, k)
    ensures forall s :: s in h.wires ==> s in k.wires && k.wires[s].claim == h.wires[s].claim
  {
    hide Live;
    if Evolves(h, k) {
      forall s | s in h.wires
        ensures WireEvolves(h.wires[s], k.wires[s], |h.log|)
      {
      }
    } else {
      var t :| TakesOver(h, k, t) || TurnsAway(h, k, t);
      if TakesOver(h, k, t) {
        forall s | s in h.wires && s != t
          ensures WireEvolves(h.wires[s], k.wires[s], |h.log|)
        {
        }
      }
    }
  }

  // ---- One stream ----

  lemma IdsInMore(up: seq<Up>, lo: nat, hi: nat, further: nat)
    requires hi <= further
    ensures IdsIn(up, lo, hi) <= IdsIn(up, lo, further)
  {
  }

  lemma FloorStays(w: Wire, v: Wire)
    requires w.down <= v.down && w.down != []
    ensures Opened(v) == Opened(w) && Floor(v) == Floor(w) && Resumed(v) == Resumed(w) && JoinedOn(v) == JoinedOn(w)
  {
  }

  lemma CaughtStays(w: Wire, v: Wire, p: nat)
    requires w.down <= v.down && v.claim == w.claim && p < |w.down| && Caught(w, p)
    ensures Caught(v, p)
  {
    assert v.down[..p] == w.down[..p];
    FloorStays(w, v);
    hide Reached;
  }

  lemma QuietRejections(w: Wire, v: Wire)
    requires RejectionsOk(w) && NoRejection(w.down, v.down) && v.claim == w.claim
    requires v.up == w.up && w.upRead <= v.upRead
    ensures RejectionsOk(v)
  {
    hide Caught, IdsIn;
    IdsInMore(w.up, 0, w.upRead, v.upRead);
    forall p | 0 <= p < |v.down| && v.down[p].ActionRejected?
      ensures v.down[p].requestId in IdsIn(v.up, 0, v.upRead) && Caught(v, p)
    {
      assert v.down[p] == w.down[p];
      CaughtStays(w, v, p);
    }
  }

  lemma PostedRejections(w: Wire, frame: Up)
    requires RejectionsOk(w) && w.upRead <= |w.up|
    ensures RejectionsOk(w.(up := w.up + [frame]))
  {
    hide Caught, IdsIn;
    var v := w.(up := w.up + [frame]);
    IdsInPrefix(w.up, frame, 0, w.upRead);
    forall p | 0 <= p < |v.down| && v.down[p].ActionRejected?
      ensures v.down[p].requestId in IdsIn(v.up, 0, v.upRead) && Caught(v, p)
    {
      CaughtStays(w, v, p);
    }
  }

  lemma NewRejection(w: Wire, id: Id)
    requires RejectionsOk(w) && Caught(w, |w.down|) && id in IdsIn(w.up, 0, w.upRead)
    ensures RejectionsOk(Write(w, ActionRejected(id)))
  {
    hide IdsIn;
    var v := Write(w, ActionRejected(id));
    forall p | 0 <= p < |v.down| && v.down[p].ActionRejected?
      ensures v.down[p].requestId in IdsIn(v.up, 0, v.upRead) && Caught(v, p)
    {
      if p < |w.down| {
        CaughtStays(w, v, p);
      } else {
        assert v.down[..p] == w.down[..p];
      }
    }
  }

  // ---- All streams ----

  lemma QuietAllRejections(h: Host, k: Host)
    requires AllRejectionsOk(h.wires) && Guaranteed(h, k) && SameUps(h.wires, k.wires)
    ensures AllRejectionsOk(k.wires)
  {
    hide Guaranteed, RejectionsOk, NoRejection;
    GuaranteedClaims(h, k);
    forall s | s in k.wires
      ensures RejectionsOk(k.wires[s])
    {
      if s in h.wires {
        QuietRejections(h.wires[s], k.wires[s]);
      } else {
        FirstRefusal(k.wires[s]);
      }
    }
  }

  lemma FirstRefusal(w: Wire)
    requires w.down <= [JoinReject]
    ensures RejectionsOk(w) && !Opened(w)
  {
  }

  /** The owner reads a frame: only the text it read can be rejected. */
  lemma ReadRejections(cfg: Config, h: Host, s: Id)
    requires HostOk(cfg, h) && CatchUpOk(h) && AllRejectionsOk(h.wires) && Readable(h, s)
    ensures AllRejectionsOk(ReadUp(h, cfg, s).wires)
  {
    hide HostOk, CatchUpOk, ReadUp, Evolves, RejectionsOk, SameUps, Answer, Commit, Written, Wordless;
    var k := ReadUp(h, cfg, s);
    ReadUps(cfg, h, s);
    ReadEvolves(cfg, h, s);
    var w := h.wires[s];
    var body := Text(if w.peer.Some? then w.peer.value else 0,
                     if w.up[w.upRead].TextSubmit? then w.up[w.upRead].submission.clientEventId else 0,
                     if w.up[w.upRead].TextSubmit? then w.up[w.upRead].submission.text else "");
    CommitSameUps(Counted(h, s), body);
    if SameUps(Counted(h, s).wires, k.wires) {
      CountedRejections(h, k, s);
    } else {
      RejectedText(cfg, h, s);
    }
  }

  lemma CommitSameUps(h: Host, body: Body)
    ensures SameUps(h.wires, Commit(h, body).wires)
  {
    hide Listening;
  }

  lemma CountedRejections(h: Host, k: Host, s: Id)
    requires AllRejectionsOk(h.wires) && Evolves(h, k) && s in h.wires && SameUps(Counted(h, s).wires, k.wires)
    ensures AllRejectionsOk(k.wires)
  {
    hide Evolves, RejectionsOk, NoRejection;
    GuaranteedClaims(h, k);
    forall t | t in k.wires
      ensures RejectionsOk(k.wires[t])
    {
      if t in h.wires {
        QuietRejections(h.wires[t], k.wires[t]);
      } else {
        FirstRefusal(k.wires[t]);
      }
    }
  }

  lemma RejectedText(cfg: Config, h: Host, s: Id)
    requires HostOk(cfg, h) && CatchUpOk(h) && AllRejectionsOk(h.wires) && s in h.wires
      && h.wires[s].upRead < |h.wires[s].up|
    requires var w := h.wires[s];
             w.peer.Some? && w.peer.value in h.members && Voice(h.members[w.peer.value], s)
               && w.up[w.upRead].TextSubmit?
    ensures AllRejectionsOk(Send(Counted(h, s), s,
                                 ActionRejected(h.wires[s].up[h.wires[s].upRead].submission.clientEventId)).wires)
  {
    hide HostOk, CatchUpOk, RejectionsOk, IdsIn;
    var w := h.wires[s];
    var read := w.(upRead := w.upRead + 1);
    var id := w.up[w.upRead].submission.clientEventId;
    QuietRejections(w, read);
    assert id in IdsIn(read.up, 0, read.upRead) by { TextInFirst(w.up, w.upRead); }
    if !w.closed {
      VoiceCaught(cfg, h, w.peer.value, s);
      NewRejection(read, id);
    }
    assert Send(Counted(h, s), s, ActionRejected(id)).wires == h.wires[s := Write(read, ActionRejected(id))];
  }

  lemma TextInFirst(up: seq<Up>, k: nat)
    requires k < |up| && up[k].TextSubmit?
    ensures up[k].submission.clientEventId in IdsIn(up, 0, k + 1)
  {
  }

  /** The open stream of an online member has carried its reader past the floor. */
  lemma VoiceCaught(cfg: Config, h: Host, id: Id, s: Id)
    requires HostOk(cfg, h) && CatchUpOk(h) && id in h.members && Voice(h.members[id], s)
    ensures s in h.wires && (!h.wires[s].closed ==>
      Opened(h.wires[s]) && Caught(h.wires[s].(upRead := h.wires[s].upRead + 1), |h.wires[s].down|))
  {
    assert CarriesMember(h, h.members[id]);
    var w := h.wires[s];
    if !w.closed {
      assert w.down[..|w.down|] == w.down;
      assert WireOk(w, h.owner, h.log);
      assert FrameOk(w.down[0], w.peer, h.owner, h.log);
    }
  }

  /** A guest that finds a rejection on a stream has all that had been committed when it got the stream. */
  lemma RejectedIsCaught(h: Host, n: Node)
    requires InStep(h, n) && AllRejectionsOk(h.wires)
    requires n.delivered < |h.wires[n.stream].down| && h.wires[n.stream].down[n.delivered].ActionRejected?
    ensures Resumed(h.wires[n.stream]) ==> Floor(h.wires[n.stream]) <= n.lastSeq
    ensures var w := h.wires[n.stream]; w.down[n.delivered].requestId in IdsIn(w.up, 0, w.upRead)
  {
    hide Reached;
    assert RejectionsOk(h.wires[n.stream]);
    assert Caught(h.wires[n.stream], n.delivered);
  }

  // ---- What every segment of the owner keeps of a stream ----

  predicate PeerKept(a: Wire, b: Wire) {
    (a.peer.Some? ==> b.peer == a.peer) && (a.phase == Accepted ==> b.phase == Accepted)
  }

  /** An opened stream stays so; one that is opened now names the length of the log. */
  predicate FloorKept(a: Wire, b: Wire, logLength: nat) {
    && a.down <= b.down
    && (Opened(b) && a.down == [] ==> Floor(b) >= logLength)
  }

  /** What the owner's invariant says of an opened stream. */
  lemma OpenedFacts(cfg: Config, h: Host, s: Id)
    requires HostOk(cfg, h) && s in h.wires
    ensures Opened(h.wires[s]) ==> h.wires[s].phase == Accepted && h.wires[s].peer.Some?
    ensures Floor(h.wires[s]) <= |h.log|
    ensures h.wires[s].phase == Fresh ==> h.wires[s].down == []
  {
    assert WireOk(h.wires[s], h.owner, h.log);
    var w := h.wires[s];
    if Opened(w) {
      assert FrameOk(w.down[0], w.peer, h.owner, h.log);
    }
  }

  lemma EvolvedWire(a: Wire, b: Wire, logLength: nat)
    requires WireEvolves(a, b, logLength)
    ensures PeerKept(a, b) && FloorKept(a, b, logLength)
  {
  }

  lemma StartedWire(a: Wire, b: Wire, logLength: nat, now: nat)
    requires a.down == [] && b.down <= [ResumeAccept(now)] && now >= logLength
    ensures FloorKept(a, b, logLength)
  {
    if b.down != [] {
      assert b.down[0] == ResumeAccept(now);
    }
  }

  /** What every segment of the owner keeps of a stream, and of who may write to it. */
  lemma GuaranteedWires(cfg: Config, h: Host, k: Host)
    requires HostOk(cfg, h) && Guaranteed(h, k)
    ensures forall s :: s in h.wires ==>
      s in k.wires && PeerKept(h.wires[s], k.wires[s]) && FloorKept(h.wires[s], k.wires[s], |h.log|)
    ensures forall s :: s in h.wires && Live(k, s) ==> Live(h, s) || h.wires[s].phase == Fresh
  {
    hide HostOk, Live, FloorKept, PeerKept;
    if Evolves(h, k) {
      forall s | s in h.wires
        ensures s in k.wires && PeerKept(h.wires[s], k.wires[s]) && FloorKept(h.wires[s], k.wires[s], |h.log|)
      {
        EvolvedWire(h.wires[s], k.wires[s], |h.log|);
      }
    } else {
      var t :| TakesOver(h, k, t) || TurnsAway(h, k, t);
      OpenedFacts(cfg, h, t);
      if TakesOver(h, k, t) {
        TakenWires(cfg, h, k, t);
      } else {
        TurnedWires(h, k, t);
      }
    }
  }

  lemma TakenWires(cfg: Config, h: Host, k: Host, t: Id)
    requires TakesOver(h, k, t) && h.wires[t].down == []
    ensures forall s :: s in h.wires ==>
      s in k.wires && PeerKept(h.wires[s], k.wires[s]) && FloorKept(h.wires[s], k.wires[s], |h.log|)
    ensures forall s :: s in h.wires && Live(k, s) ==> Live(h, s) || h.wires[s].phase == Fresh
  {
    hide Live, FloorKept;
    StartedWire(h.wires[t], k.wires[t], |h.log|, |k.log|);
    forall s | s in h.wires && s != t
      ensures s in k.wires && PeerKept(h.wires[s], k.wires[s]) && FloorKept(h.wires[s], k.wires[s], |h.log|)
    {
      EvolvedWire(h.wires[s], k.wires[s], |h.log|);
    }
  }

  lemma TurnedWires(h: Host, k: Host, t: Id)
    requires TurnsAway(h, k, t) && h.wires[t].down == []
    ensures forall s :: s in h.wires ==>
      s in k.wires && PeerKept(h.wires[s], k.wires[s]) && FloorKept(h.wires[s], k.wires[s], |h.log|)
    ensures forall s :: s in h.wires && Live(k, s) ==> Live(h, s)
  {
    assert forall s :: Live(k, s) <==> Live(h, s);
    hide Live;
  }

  lemma GuaranteedOwner(h: Host, k: Host)
    requires Guaranteed(h, k)
    ensures k.owner == h.owner
  {
  }
}
