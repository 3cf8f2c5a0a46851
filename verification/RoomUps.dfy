/**
 * What the owner's segments do to the frames guests wrote: only reading a
 * frame touches any, and only a text read from an online guest is committed
 * for it or rejected.
 */
module RoomUps {
  import opened Basics
  import opened RoomTypes
  import opened ReplayBuffer
  import opened EventDeduper
  import opened RoomHost
  import opened RoomHostSafety
  import opened RoomSystem
  import opened RoomCatchUp

  /** More was written, but no rejection. */
  ghost predicate NoRejection(before: seq<Down>, after: seq<Down>) {
    before <= after && forall p :: |before| <= p < |after| ==> !after[p].ActionRejected?
  }

  /** No frame from a guest is read or lost, and none is answered with a rejection. */
  ghost predicate SameUps(a: map<Id, Wire>, b: map<Id, Wire>) {
    && (forall s :: s in a ==>
          s in b && b[s].up == a[s].up && b[s].upRead == a[s].upRead && NoRejection(a[s].down, b[s].down))
    && (forall s :: s in b && s !in a ==> b[s].up == [] && b[s].upRead == 0 && b[s].down <= [JoinReject])
  }

  ghost predicate Wordless(h: Host, k: Host) {
    || k.log == h.log
    || (&& |k.log| == |h.log| + 1 && k.log[..|h.log|] == h.log
        && (k.log[|h.log|].body.Text? ==> k.log[|h.log|].body.senderId == h.owner))
  }

  /** Nor is a new event a guest's text. */
  ghost predicate UpsOwned(h: Host, k: Host) {
    SameUps(h.wires, k.wires) && Wordless(h, k)
  }

  ghost predicate Textless(h: Host, k: Host) {
    || k.log == h.log
    || (|k.log| == |h.log| + 1 && k.log[..|h.log|] == h.log && !k.log[|h.log|].body.Text?)
  }

  /** Nor is a new event a text at all. */
  ghost predicate UpsKept(h: Host, k: Host) {
    SameUps(h.wires, k.wires) && Textless(h, k)
  }

  lemma KeptIsOwned(h: Host, k: Host)
    requires UpsKept(h, k)
    ensures UpsOwned(h, k)
  {
    hide SameUps;
  }

  lemma CommitUps(h: Host, k: Host, body: Body)
    requires SameUps(h.wires, k.wires) && k.wires.Keys == h.wires.Keys && k.log == h.log
    ensures !body.Text? ==> UpsKept(h, Commit(k, body))
    ensures (body.Text? ==> body.senderId == h.owner) ==> UpsOwned(h, Commit(k, body))
  {
    CommitWiresUps(h.wires, k, body);
    hide SameUps;
    assert (h.log + [Event(|h.log| + 1, body)])[..|h.log|] == h.log;
  }

  lemma CommitWiresUps(wires: map<Id, Wire>, k: Host, body: Body)
    requires SameUps(wires, k.wires) && k.wires.Keys == wires.Keys
    ensures SameUps(wires, Commit(k, body).wires)
  {
    hide Listening;
  }

  lemma OneWireUps(wires: map<Id, Wire>, s: Id, w: Wire)
    requires if s in wires
      then w.up == wires[s].up && w.upRead == wires[s].upRead && NoRejection(wires[s].down, w.down)
      else w.up == [] && w.upRead == 0 && w.down <= [JoinReject]
    ensures SameUps(wires, wires[s := w])
  {
  }

  lemma SendUps(h: Host, s: Id, f: Down)
    requires !f.ActionRejected?
    ensures SameUps(h.wires, Send(h, s, f).wires) && SameUps(h.wires, Shut(h, s).wires)
    ensures SameUps(h.wires, Shut(Send(h, s, f), s).wires)
  {
    hide SameUps;
    NothingUps(h);
    if s in h.wires {
      var w := Write(h.wires[s], f);
      OneWireUps(h.wires, s, w);
      OneWireUps(h.wires, s, w.(closed := true));
      OneWireUps(h.wires, s, h.wires[s].(closed := true));
      assert Shut(Send(h, s, f), s).wires == h.wires[s := w.(closed := true)];
    }
  }

  lemma RejectUps(h: Host, requestId: Id)
    ensures UpsKept(h, RejectPending(h, requestId)) && UpsKept(h, DropPending(h, requestId))
  {
    hide SameUps;
    NothingUps(h);
    if requestId in h.pending {
      SendUps(h, h.pending[requestId].stream, JoinReject);
    }
  }

  lemma RequestUps(h: Host, cfg: Config, s: Id, requestId: Id, token: Id, wellFormed: bool)
    ensures UpsKept(h, AcceptJoinRequest(h, cfg, s, requestId, token, wellFormed))
  {
    hide SameUps, JoinRefusal;
    NothingUps(h);
    if s !in h.wires {
      OneWireUps(h.wires, s, Wire(None, 0, Refused, 0, [JoinReject], true, [], 0));
      OneWireUps(h.wires, s, Wire(None, 0, Accepted, |h.log|, [], false, [], 0));
    }
  }

  lemma BeginUps(h: Host, cfg: Config, requestId: Id, expired: bool)
    ensures UpsKept(h, ApproveBegin(h, cfg, requestId, expired))
  {
    hide SameUps, RejectPending, OccupiedSeats;
    NothingUps(h);
    RejectUps(h, requestId);
  }

  lemma ApproveUps(h: Host, requestId: Id, verified: bool, expired: bool, memberId: Id)
    ensures UpsKept(h, ApproveVerified(h, requestId, verified, expired, memberId))
    ensures UpsKept(h, ApproveCommit(h, requestId, verified))
  {
    hide SameUps, RejectPending, Commit;
    NothingUps(h);
    RejectUps(h, requestId);
    if requestId in h.pending {
      var p := h.pending[requestId];
      if p.state.Approving? && p.stream in h.wires {
        OneWireUps(h.wires, p.stream, Write(h.wires[p.stream].(peer := Some(memberId)), AcceptFrame(h, memberId)));
      }
      if p.state.Committing? {
        CommitUps(h, h.(members := h.members[p.state.memberId := Member(Guest, Online, Some(p.stream),
                                                                        p.state.admissionSeq, None)],
                        pending := h.pending - {requestId}),
                  Joined(p.state.memberId, Face(Guest, Online)));
      }
    }
  }

  lemma CancelUps(h: Host, flag: bool)
    ensures UpsKept(h, CancelPendingApprovals(h, flag))
  {
  }

  lemma PauseUps(h: Host, flag: bool)
    ensures UpsKept(h, SetJoinsPaused(h, flag)) && UpsKept(h, SetRoomPaused(h, flag))
  {
    hide SameUps, CancelPendingApprovals;
    NothingUps(h);
    CancelUps(h.(joinsPaused := flag, generation := h.generation + (if flag != h.joinsPaused then 1 else 0)), false);
    CancelUps(h.(roomPaused := flag, generation := h.generation + (if flag != h.roomPaused then 1 else 0)), false);
  }

  lemma CloseUps(h: Host)
    ensures UpsKept(h, CloseRoom(h))
  {
    hide Listening, Resuming, StreamOf, Cancelled;
  }

  lemma RotateUps(h: Host, token: Id)
    ensures UpsKept(h, RotateInvitation(h, token))
  {
  }

  lemma MarkUps(h: Host, id: Id)
    ensures UpsKept(h, MarkReconnecting(h, id))
  {
    hide SameUps, Commit;
    NothingUps(h);
    if id in h.members {
      var m := h.members[id];
      var shut := if m.stream.Some? then Shut(h, m.stream.value) else h;
      if m.stream.Some? {
        SendUps(h, m.stream.value, Terminal);
      }
      CommitUps(h, shut.(members := h.members[id := m.(status := Reconnecting, stream := None)]),
                State(id, Reconnecting));
    }
  }

  lemma SameUpsTransitive(a: map<Id, Wire>, b: map<Id, Wire>, c: map<Id, Wire>)
    requires SameUps(a, b) && SameUps(b, c) && a.Keys == b.Keys
    ensures SameUps(a, c)
  {
  }

  lemma AbortUps(h: Host, id: Id)
    requires id in h.members
    ensures SameUps(h.wires, AbortResume(h, id).wires) && AbortResume(h, id).wires.Keys == h.wires.Keys
    ensures AbortResume(h, id).log == h.log && AbortResume(h, id).owner == h.owner
  {
    hide SameUps;
    NothingUps(h);
    if h.members[id].resume.Some? {
      SendUps(h, h.members[id].resume.value.stream, Terminal);
    }
  }

  lemma DismissUps(h: Host, id: Id, notify: bool)
    requires id in h.members
    ensures var k := Told(h, id, notify);
            SameUps(h.wires, k.wires) && k.wires.Keys == h.wires.Keys && k.log == h.log && k.owner == h.owner
  {
    hide SameUps;
    NothingUps(h);
    if h.members[id].stream.Some? {
      SendUps(h, h.members[id].stream.value, Terminal);
    }
  }

  lemma RemoveUps(h: Host, id: Id, notify: bool)
    ensures UpsKept(h, RemoveMember(h, id, notify))
  {
    hide SameUps, Commit, AbortResume, Told;
    NothingUps(h);
    if !h.closing && id != h.owner && id in h.members {
      RemovedInSteps(h, id, notify);
      var aborted := AbortResume(h, id);
      AbortUps(h, id);
      var told := Told(aborted, id, notify);
      DismissUps(aborted, id, notify);
      SameUpsTransitive(h.wires, aborted.wires, told.wires);
      CommitUps(h, told.(members := aborted.members - {id}), Left(id));
    }
  }

  lemma ResumeUps(h: Host, s: Id, inTime: bool)
    ensures UpsKept(h, AcceptResume(h, s, inTime))
  {
    hide SameUps, MarkReconnecting, Wordless;
    NothingUps(h);
    if s in h.wires {
      var w := h.wires[s];
      OneWireUps(h.wires, s, w.(phase := Refused, down := w.down + [ResumeReject], closed := true));
      assert AcceptResume(h, s, inTime).log == h.log ==>
        Wordless(h, AcceptResume(h, s, inTime)) by { SameLog(h, AcceptResume(h, s, inTime)); }
      if w.phase == Fresh && w.peer.Some? && Resumable(h, w.peer.value, w.claim, inTime) {
        var marked := MarkReconnecting(h, w.peer.value);
        MarkUps(h, w.peer.value);
        ResumeStartUps(h, marked, AcceptResume(h, s, inTime), s);
      }
    }
  }

  lemma SameLog(h: Host, k: Host)
    ensures k.log == h.log ==> Wordless(h, k)
  {
  }

  lemma ResumeStartUps(h: Host, marked: Host, k: Host, s: Id)
    requires UpsKept(h, marked) && s in h.wires && k.log == marked.log
    requires s in k.wires && k.wires == marked.wires[s := k.wires[s]]
    requires k.wires[s].up == h.wires[s].up && k.wires[s].upRead == h.wires[s].upRead
      && NoRejection(h.wires[s].down, k.wires[s].down)
    ensures UpsKept(h, k)
  {
  }

  lemma ContinueUps(h: Host, cfg: Config, id: Id, ok: bool)
    ensures UpsKept(h, ContinueResume(h, cfg, id, ok))
  {
    hide After, SameUps, Commit;
    NothingUps(h);
    if id in h.members && h.members[id].resume.Some? {
      var m := h.members[id];
      var r := m.resume.value;
      SendUps(h, r.stream, Resync(|h.log|, Faces(h.members)));
      if r.rest != [] {
        SendUps(h, r.stream, RoomEvent(r.rest[0]));
      } else if After(cfg, h.log, r.cursor).Some? && After(cfg, h.log, r.cursor).value != [] {
        SendUps(h, r.stream, RoomEvent(After(cfg, h.log, r.cursor).value[0]));
      }
      CommitUps(h, h.(members := h.members[id := m.(status := Online, stream := Some(r.stream), resume := None)]),
                State(id, Online));
    }
  }

  lemma HostStepUps(cfg: Config, h: Host, step: Step)
    requires !step.HostRead?
    ensures UpsOwned(h, HostStep(cfg, h, step))
    ensures !step.HostText? ==> UpsKept(h, HostStep(cfg, h, step))
  {
    hide UpsKept, UpsOwned, OwnerText;
    if step.HostText? {
      OwnerTextUps(h, cfg, step.submission);
    } else {
      OtherStepUps(cfg, h, step);
      KeptIsOwned(h, HostStep(cfg, h, step));
    }
  }

  lemma OtherStepUps(cfg: Config, h: Host, step: Step)
    requires !step.HostRead? && !step.HostText?
    ensures UpsKept(h, HostStep(cfg, h, step))
  {
    hide UpsKept, AcceptJoinRequest, DropPending, RejectByChoice, ApproveBegin, ApproveVerified, ApproveCommit,
      SetJoinsPaused,
      SetRoomPaused, RotateInvitation, MarkReconnecting, RemoveMember, AcceptResume, ContinueResume, OwnerText, Shut,
          CloseRoom;
    match step
    case HostJoinRequest(s, r, token, wellFormed) => RequestUps(h, cfg, s, r, token, wellFormed);
    case HostDropPending(r) => RejectUps(h, r);
    case HostReject(r) => ChoiceUps(h, r);
    case HostApproveBegin(r, expired) => BeginUps(h, cfg, r, expired);
    case HostApproveVerified(r, verified, expired, id) => ApproveUps(h, r, verified, expired, id);
    case HostApproveCommit(r, written) => ApproveUps(h, r, written, false, 0);
    case HostPauseJoins(paused) => PauseUps(h, paused);
    case HostPauseRoom(paused) => PauseUps(h, paused);
    case HostRotate(token) => RotateUps(h, token);
    case HostMarkReconnecting(id) => MarkUps(h, id);
    case HostRemove(id, notify) => RemoveUps(h, id, notify);
    case HostAcceptResume(s, inTime) => ResumeUps(h, s, inTime);
    case HostContinueResume(id, ok) => ContinueUps(h, cfg, id, ok);
    case HostWriterFails(s) => ShutUps(h, s);
    case HostClose => CloseUps(h);
    case _ => NothingUps(h);
  }

  lemma ChoiceUps(h: Host, requestId: Id)
    ensures UpsKept(h, RejectByChoice(h, requestId))
  {
    hide UpsKept, RejectPending;
    NothingUps(h);
    RejectUps(h, requestId);
  }

  lemma OwnerTextUps(h: Host, cfg: Config, submission: Submission)
    ensures UpsOwned(h, OwnerText(h, cfg, submission))
  {
    KeptIsOwned(h, h) by { NothingUps(h); }
    hide UpsOwned, UpsKept, ValidText, Answer, Written, Commit;
    NothingUps(h);
    CommitUps(h, h, Text(h.owner, submission.clientEventId, submission.text));
  }

  lemma NothingUps(h: Host)
    ensures UpsKept(h, h) && SameUps(h.wires, h.wires)
  {
  }

  lemma ShutUps(h: Host, s: Id)
    ensures UpsKept(h, Shut(h, s))
  {
    hide SameUps;
    SendUps(h, s, Terminal);
  }

  function Counted(h: Host, s: Id): Host
    requires s in h.wires
  {
    h.(wires := h.wires[s := h.wires[s].(upRead := h.wires[s].upRead + 1)])
  }

  /** Reading a frame commits or rejects the text of an online guest, or does nothing of the kind. */
  lemma ReadUps(cfg: Config, h: Host, s: Id)
    requires Readable(h, s)
    ensures var w := h.wires[s];
            var f := w.up[w.upRead];
            || UpsKept(Counted(h, s), ReadUp(h, cfg, s))
            || (w.peer.Some? && w.peer.value in h.members && Voice(h.members[w.peer.value], s) && f.TextSubmit?
                && !h.roomPaused && !h.closing && ValidText(cfg, f.submission.text)
                && Answer(Written(h.log, w.peer.value), cfg.dedupeMaxItems, f.submission.clientEventId) == None
                && ReadUp(h, cfg, s)
                   == Commit(Counted(h, s), Text(w.peer.value, f.submission.clientEventId, f.submission.text)))
            || (w.peer.Some? && w.peer.value in h.members && Voice(h.members[w.peer.value], s) && f.TextSubmit?
                && ReadUp(h, cfg, s) == Send(Counted(h, s), s, ActionRejected(f.submission.clientEventId)))
  {
    hide UpsKept, After, Answer, Written;
    var w := h.wires[s];
    var read := Counted(h, s);
    NothingUps(read);
    if w.peer.Some? && w.peer.value in h.members && Voice(h.members[w.peer.value], s) {
      var id := w.peer.value;
      MarkUps(read, id);
      RemoveUps(read, id, false);
      if w.up[w.upRead].TextSubmit? {
        var prior := Answer(Written(h.log, id), cfg.dedupeMaxItems, w.up[w.upRead].submission.clientEventId);
        if prior.Some? && 1 <= prior.value <= |h.log| {
          AnsweredUps(read, s, RoomEvent(h.log[prior.value - 1]));
        }
      }
    } else if PendingOn(h, s) != {} {
      var r :| r in PendingOn(h, s) && ReadUp(h, cfg, s) == DropPending(read, r);
      RejectUps(read, r);
    }
  }

  lemma AnsweredUps(h: Host, s: Id, f: Down)
    requires !f.ActionRejected?
    ensures UpsKept(h, Send(h, s, f))
  {
    hide SameUps;
    SendUps(h, s, f);
  }
}
