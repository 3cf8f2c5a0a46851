/**
 * What a guest may rely on: how one segment of the owner's code can change
 * the log and the streams. A stream that nobody at the owner holds any more
 * is frozen, and a jump told by a resync never points behind the log.
 */
module RoomGuarantee {
  import opened Basics
  import opened RoomTypes
  import opened ReplayBuffer
  import opened EventDeduper
  import opened RoomHost
  import opened RoomHostSafety
  import opened RoomSystem

  predicate Owns(m: Member, s: Id) {
    m.stream == Some(s) || (m.resume.Some? && m.resume.value.stream == s)
  }

  ghost predicate HeldByMember(members: map<Id, Member>, s: Id) {
    exists id :: id in members && Owns(members[id], s)
  }

  ghost predicate HeldByRequest(pending: map<Id, Pending>, s: Id) {
    exists r :: r in pending && pending[r].stream == s
  }

  /** The owner still reads or writes this stream. */
  ghost predicate Live(h: Host, s: Id) {
    HeldByMember(h.members, s) || HeldByRequest(h.pending, s)
  }

  /** Frames that place their reader in the log. */
  predicate TellsNumber(f: Down) {
    f.Resync? || f.JoinAccept? || f.ResumeAccept?
  }

  ghost predicate WireEvolves(a: Wire, b: Wire, logLength: nat) {
    && b.claim == a.claim && b.phase == a.phase && b.base == a.base
    && (a.peer.Some? ==> b.peer == a.peer)
    && a.down <= b.down
    && (forall j :: |a.down| <= j < |b.down| && TellsNumber(b.down[j]) ==> Reach(b.down[j]) >= logLength)
  }

  /** No stream is taken over; transitive. */
  ghost predicate Evolves(h: Host, k: Host) {
    && k.owner == h.owner
    && h.log <= k.log
    && (forall s :: s in h.wires ==> s in k.wires && WireEvolves(h.wires[s], k.wires[s], |h.log|))
    && (forall s :: s in h.wires && !Live(h, s) ==> !Live(k, s) && k.wires[s].down == h.wires[s].down)
  }

  /** Stream `s` was taken over by its member, and every other stream of that member was given up. */
  ghost predicate TakesOver(h: Host, k: Host, s: Id) {
    && k.owner == h.owner
    && h.log <= k.log
    && s in h.wires && h.wires[s].phase == Fresh && h.wires[s].peer.Some?
    && s in k.wires && k.wires[s].phase == Accepted && k.wires[s].peer == h.wires[s].peer
    && k.wires[s].claim == h.wires[s].claim && k.wires[s].base == |k.log|
    && k.wires[s].down <= [ResumeAccept(|k.log|)]
    && (forall t :: t in h.wires && t != s ==> t in k.wires && WireEvolves(h.wires[t], k.wires[t], |h.log|))
    && (forall t :: t in h.wires && t != s && !Live(h, t) ==> !Live(k, t) && k.wires[t].down == h.wires[t].down)
    && (forall t :: t in h.wires && t != s && h.wires[t].peer == h.wires[s].peer ==> !Live(k, t))
  }

  /** A resume request was refused: its stream carries the refusal and nothing more. */
  ghost predicate TurnsAway(h: Host, k: Host, s: Id) {
    && s in h.wires && h.wires[s].phase == Fresh && !Live(h, s)
    && k == h.(wires := k.wires) && k.wires.Keys == h.wires.Keys
    && (forall t :: t in h.wires && t != s ==> k.wires[t] == h.wires[t])
    && k.wires[s].phase == Refused && k.wires[s].claim == h.wires[s].claim && k.wires[s].peer == h.wires[s].peer
    && k.wires[s].down == h.wires[s].down + [ResumeReject]
  }

  lemma EvolvesTransitive(a: Host, b: Host, c: Host)
    requires Evolves(a, b) && Evolves(b, c)
    ensures Evolves(a, c)
  {
    hide Live;
    forall s | s in a.wires
      ensures s in c.wires && WireEvolves(a.wires[s], c.wires[s], |a.log|)
    {
      assert WireEvolves(a.wires[s], b.wires[s], |a.log|);
      assert WireEvolves(b.wires[s], c.wires[s], |b.log|);
    }
  }

  // ---- The pieces segments are made of ----

  lemma SendEvolves(h: Host, s: Id, f: Down)
    requires Live(h, s)
    requires TellsNumber(f) ==> Reach(f) == |h.log|
    ensures Evolves(h, Send(h, s, f))
  {
    var k := Send(h, s, f);
    assert forall t :: Live(k, t) <==> Live(h, t);
    hide Live;
  }

  lemma ShutEvolves(h: Host, s: Id)
    ensures Evolves(h, Shut(h, s))
  {
    var k := Shut(h, s);
    assert forall t :: Live(k, t) <==> Live(h, t);
    hide Live;
  }

  /** Members and requests may let go of streams, and flags may change. */
  lemma LettingGo(h: Host, k: Host)
    requires k.owner == h.owner && k.log == h.log && k.wires == h.wires
    requires forall s :: Live(k, s) ==> Live(h, s)
    ensures Evolves(h, k)
  {
    hide Live;
  }

  lemma CommitEvolves(h: Host, body: Body)
    ensures Evolves(h, Commit(h, body))
  {
    var k := Commit(h, body);
    assert forall t :: Live(k, t) <==> Live(h, t);
    forall s | s in h.wires
      ensures Listening(h.members, s) ==> Live(h, s)
    {
      ListenersLive(h, s);
    }
    hide Live;
  }

  lemma ListenersLive(h: Host, s: Id)
    ensures Listening(h.members, s) ==> Live(h, s)
  {
    if Listening(h.members, s) {
      var id :| id in h.members && Voice(h.members[id], s);
      assert Owns(h.members[id], s);
    }
  }

  lemma MemberLetsGo(h: Host, id: Id, m: Member)
    requires id in h.members
    requires forall s :: Owns(m, s) ==> Owns(h.members[id], s)
    ensures Evolves(h, h.(members := h.members[id := m]))
  {
    var k := h.(members := h.members[id := m]);
    forall s | Live(k, s)
      ensures Live(h, s)
    {
      if HeldByMember(k.members, s) {
        var x :| x in k.members && Owns(k.members[x], s);
        assert x in h.members && Owns(h.members[x], s);
      } else {
        assert HeldByRequest(h.pending, s);
      }
    }
    LettingGo(h, k);
  }

  lemma RequestsLetGo(h: Host, requests: set<Id>)
    ensures Evolves(h, h.(pending := h.pending - requests))
  {
    var k := h.(pending := h.pending - requests);
    forall s | Live(k, s)
      ensures Live(h, s)
    {
      if HeldByRequest(k.pending, s) {
        var r :| r in k.pending && k.pending[r].stream == s;
        assert r in h.pending && h.pending[r].stream == s;
      }
    }
    LettingGo(h, k);
  }

  lemma WritesEvolve(h: Host, wires: map<Id, Wire>)
    requires forall s :: s in h.wires ==> s in wires && WireEvolves(h.wires[s], wires[s], |h.log|)
    requires forall s :: s in h.wires && !Live(h, s) ==> wires[s].down == h.wires[s].down
    ensures Evolves(h, h.(wires := wires))
  {
    var k := h.(wires := wires);
    assert forall t :: Live(k, t) <==> Live(h, t);
    hide Live;
  }

  // ---- Segments ----

  lemma RejectEvolves(h: Host, requestId: Id)
    ensures Evolves(h, RejectPending(h, requestId)) && Evolves(h, DropPending(h, requestId))
  {
    if requestId in h.pending {
      var s := h.pending[requestId].stream;
      assert Live(h, s);
      SendEvolves(h, s, JoinReject);
      hide Live, Evolves;
      var sent := Send(h, s, JoinReject);
      ShutEvolves(sent, s);
      EvolvesTransitive(h, sent, Shut(sent, s));
      RequestsLetGo(Shut(sent, s), {requestId});
      EvolvesTransitive(h, Shut(sent, s), RejectPending(h, requestId));
      ShutEvolves(h, s);
      RequestsLetGo(Shut(h, s), {requestId});
      EvolvesTransitive(h, Shut(h, s), DropPending(h, requestId));
    } else {
      LettingGo(h, h);
    }
  }

  lemma JoinRequestEvolves(h: Host, cfg: Config, s: Id, requestId: Id, token: Id, wellFormed: bool)
    ensures Evolves(h, AcceptJoinRequest(h, cfg, s, requestId, token, wellFormed))
  {
    var k := AcceptJoinRequest(h, cfg, s, requestId, token, wellFormed);
    if s in h.wires {
      LettingGo(h, h);
    } else {
      forall t | t in h.wires
        ensures k.wires[t] == h.wires[t] && (Live(k, t) ==> Live(h, t))
      {
        if HeldByRequest(k.pending, t) {
          var r :| r in k.pending && k.pending[r].stream == t;
          assert r in h.pending && h.pending[r].stream == t;
        }
      }
      hide Live;
    }
  }

  lemma ApproveBeginEvolves(h: Host, cfg: Config, requestId: Id, expired: bool)
    ensures Evolves(h, ApproveBegin(h, cfg, requestId, expired))
  {
    RejectEvolves(h, requestId);
    LettingGo(h, h);
    if requestId in h.pending {
      RestateEvolves(h, requestId, Approving(h.generation));
    }
    hide Evolves;
  }

  lemma RestateEvolves(h: Host, requestId: Id, state: PendingState)
    requires requestId in h.pending
    ensures Evolves(h, h.(pending := h.pending[requestId := h.pending[requestId].(state := state)]))
  {
    var k := h.(pending := h.pending[requestId := h.pending[requestId].(state := state)]);
    forall s | Live(k, s)
      ensures Live(h, s)
    {
      if HeldByRequest(k.pending, s) {
        var r :| r in k.pending && k.pending[r].stream == s;
        assert r in h.pending && h.pending[r].stream == s;
      }
    }
    LettingGo(h, k);
  }

  lemma ApproveVerifiedEvolves(cfg: Config, h: Host, requestId: Id, verified: bool, expired: bool, memberId: Id)
    requires HostOk(cfg, h)
    ensures Evolves(h, ApproveVerified(h, requestId, verified, expired, memberId))
  {
    hide Evolves, HostOk, RejectPending;
    RejectEvolves(h, requestId);
    Reflagged(h, h);
    if requestId in h.pending && h.pending[requestId].state.Approving? && h.pending[requestId].stream in h.wires {
      AcceptFrameEvolves(cfg, h, requestId, memberId);
    }
  }

  lemma AcceptFrameEvolves(cfg: Config, h: Host, requestId: Id, memberId: Id)
    requires HostOk(cfg, h)
    requires requestId in h.pending && h.pending[requestId].state.Approving? && h.pending[requestId].stream in h.wires
    ensures Evolves(h, StartCommitting(h, requestId, memberId))
  {
    var p := h.pending[requestId];
    var k := StartCommitting(h, requestId, memberId);
    RestateEvolves(h, requestId, k.pending[requestId].state);
    var restated := h.(pending := k.pending);
    assert h.wires[p.stream].peer == None;
    hide HostOk;
    assert HeldByRequest(restated.pending, p.stream) by {
      assert restated.pending[requestId].stream == p.stream;
    }
    WritesEvolve(restated, k.wires);
    EvolvesTransitive(h, restated, restated.(wires := k.wires));
    LettingGo(restated.(wires := k.wires), k);
    EvolvesTransitive(h, restated.(wires := k.wires), k);
  }

  lemma ApproveCommitEvolves(h: Host, requestId: Id, written: bool)
    ensures Evolves(h, ApproveCommit(h, requestId, written))
  {
    RejectEvolves(h, requestId);
    LettingGo(h, h);
    if requestId in h.pending && h.pending[requestId].state.Committing? {
      var p := h.pending[requestId];
      var seated := h.(members := h.members[p.state.memberId := Member(Guest, Online, Some(p.stream),
                                                                       p.state.admissionSeq, None)],
                       pending := h.pending - {requestId});
      forall s | Live(seated, s)
        ensures Live(h, s)
      {
        if HeldByMember(seated.members, s) {
          var x :| x in seated.members && Owns(seated.members[x], s);
          if x == p.state.memberId {
            assert h.pending[requestId].stream == s;
          } else {
            assert x in h.members && Owns(h.members[x], s);
          }
        } else {
          var r :| r in seated.pending && seated.pending[r].stream == s;
          assert r in h.pending && h.pending[r].stream == s;
        }
      }
      LettingGo(h, seated);
      CommitEvolves(seated, Joined(p.state.memberId, Face(Guest, Online)));
      hide Live, Evolves;
      EvolvesTransitive(h, seated, Commit(seated, Joined(p.state.memberId, Face(Guest, Online))));
    }
  }

  lemma CancelEvolves(h: Host, everyone: bool)
    ensures Evolves(h, CancelPendingApprovals(h, everyone))
  {
    var requests := Cancelled(h.pending, everyone);
    var wires := ShutStreams(h.wires, h.pending, requests);
    WritesEvolve(h, wires);
    RequestsLetGo(h.(wires := wires), requests);
    EvolvesTransitive(h, h.(wires := wires), CancelPendingApprovals(h, everyone));
  }

  lemma Reflagged(h: Host, k: Host)
    requires k.owner == h.owner && k.log == h.log && k.wires == h.wires
    requires k.members == h.members && k.pending == h.pending
    ensures Evolves(h, k)
  {
    LettingGo(h, k);
  }

  lemma PauseEvolves(h: Host, paused: bool)
    ensures Evolves(h, SetJoinsPaused(h, paused)) && Evolves(h, SetRoomPaused(h, paused))
  {
    hide Evolves;
    var joins := h.(joinsPaused := paused, generation := h.generation + (if paused != h.joinsPaused then 1 else 0));
    Reflagged(h, joins);
    CancelEvolves(joins, false);
    var room := h.(roomPaused := paused, generation := h.generation + (if paused != h.roomPaused then 1 else 0));
    Reflagged(h, room);
    CancelEvolves(room, false);
    EvolvesTransitive(h, joins, CancelPendingApprovals(joins, false));
    EvolvesTransitive(h, room, CancelPendingApprovals(room, false));
  }

  lemma RotateEvolves(h: Host, token: Id)
    ensures Evolves(h, RotateInvitation(h, token))
  {
    var k := RotateInvitation(h, token);
    forall s | s in h.wires && !Live(h, s)
      ensures k.wires[s].down == h.wires[s].down
    {
      assert !StreamOf(h.pending, NotCommitting(h.pending), s);
    }
    WritesEvolve(h, k.wires);
    LettingGo(h.(wires := k.wires), k);
    EvolvesTransitive(h, h.(wires := k.wires), k);
  }

  lemma MarkEvolves(h: Host, id: Id)
    ensures Evolves(h, MarkReconnecting(h, id))
  {
    if h.closing || id !in h.members || h.members[id].role != Guest || h.members[id].status == Reconnecting {
      LettingGo(h, h);
    } else {
      var m := h.members[id];
      var shut := if m.stream.Some? then Shut(h, m.stream.value) else h;
      LettingGo(h, h);
      if m.stream.Some? {
        ShutEvolves(h, m.stream.value);
      }
      var gone := shut.(members := h.members[id := m.(status := Reconnecting, stream := None)]);
      MemberLetsGo(shut, id, m.(status := Reconnecting, stream := None));
      CommitEvolves(gone, State(id, Reconnecting));
      hide Evolves;
      EvolvesTransitive(h, shut, gone);
      EvolvesTransitive(h, gone, MarkReconnecting(h, id));
    }
  }

  lemma AbortEvolves(h: Host, id: Id)
    requires id in h.members
    ensures Evolves(h, AbortResume(h, id))
  {
    var m := h.members[id];
    if m.resume.Some? {
      ShutEvolves(h, m.resume.value.stream);
      MemberLetsGo(Shut(h, m.resume.value.stream), id, m.(resume := None));
      EvolvesTransitive(h, Shut(h, m.resume.value.stream), AbortResume(h, id));
    } else {
      LettingGo(h, h);
    }
  }

  lemma RemoveEvolves(h: Host, id: Id, notify: bool)
    ensures Evolves(h, RemoveMember(h, id, notify))
  {
    if h.closing || id == h.owner || id !in h.members {
      LettingGo(h, h);
    } else {
      var m := h.members[id];
      AbortEvolves(h, id);
      var aborted := AbortResume(h, id);
      LettingGo(aborted, aborted);
      var told := if m.stream.None? then aborted
        else Shut(if notify then Send(aborted, m.stream.value, Terminal) else aborted, m.stream.value);
      if m.stream.Some? {
        assert HeldByMember(aborted.members, m.stream.value) by {
          assert Owns(aborted.members[id], m.stream.value);
        }
        SendEvolves(aborted, m.stream.value, Terminal);
        var sent := if notify then Send(aborted, m.stream.value, Terminal) else aborted;
        ShutEvolves(sent, m.stream.value);
        EvolvesTransitive(aborted, sent, told);
      }
      var gone := told.(members := h.members - {id});
      forall s | Live(gone, s)
        ensures Live(told, s)
      {
        if HeldByMember(gone.members, s) {
          var x :| x in gone.members && Owns(gone.members[x], s);
          assert x in told.members && Owns(told.members[x], s);
        }
      }
      LettingGo(told, gone);
      CommitEvolves(gone, Left(id));
      hide Evolves, Live;
      EvolvesTransitive(h, aborted, told);
      EvolvesTransitive(h, told, gone);
      EvolvesTransitive(h, gone, RemoveMember(h, id, notify));
    }
  }

  lemma SendNextEvolves(h: Host, id: Id, events: seq<Event>)
    requires id in h.members && h.members[id].resume.Some? && events != []
    ensures Evolves(h, SendNext(h, id, events))
  {
    var m := h.members[id];
    var r := m.resume.value;
    assert Owns(m, r.stream);
    SendEvolves(h, r.stream, RoomEvent(events[0]));
    MemberLetsGo(Send(h, r.stream, RoomEvent(events[0])), id,
                 m.(resume := Some(r.(cursor := events[0].number, rest := events[1..]))));
    EvolvesTransitive(h, Send(h, r.stream, RoomEvent(events[0])), SendNext(h, id, events));
  }

  lemma ResyncEvolves(h: Host, id: Id)
    requires id in h.members && h.members[id].resume.Some?
    ensures var m := h.members[id];
            var r := m.resume.value;
            Evolves(h, Send(h, r.stream, Resync(|h.log|, Faces(h.members))).(
              members := h.members[id := m.(resume := Some(r.(cursor := |h.log|)))]))
  {
    var m := h.members[id];
    var r := m.resume.value;
    assert Owns(m, r.stream);
    var sent := Send(h, r.stream, Resync(|h.log|, Faces(h.members)));
    SendEvolves(h, r.stream, Resync(|h.log|, Faces(h.members)));
    MemberLetsGo(sent, id, m.(resume := Some(r.(cursor := |h.log|))));
    EvolvesTransitive(h, sent, sent.(members := h.members[id := m.(resume := Some(r.(cursor := |h.log|)))]));
  }

  lemma ActivateEvolves(h: Host, id: Id)
    requires id in h.members && h.members[id].resume.Some?
    ensures var m := h.members[id];
            Evolves(h, Commit(h.(members := h.members[id := m.(status := Online,
                                                               stream := Some(m.resume.value.stream), resume := None)]),
                              State(id, Online)))
  {
    var m := h.members[id];
    var on := m.(status := Online, stream := Some(m.resume.value.stream), resume := None);
    var online := h.(members := h.members[id := on]);
    MemberLetsGo(h, id, on);
    CommitEvolves(online, State(id, Online));
    EvolvesTransitive(h, online, Commit(online, State(id, Online)));
  }

  lemma ContinueEvolves(cfg: Config, h: Host, id: Id, ok: bool)
    ensures Evolves(h, ContinueResume(h, cfg, id, ok))
  {
    hide Evolves;
    Reflagged(h, h);
    if id in h.members && h.members[id].resume.Some? {
      var r := h.members[id].resume.value;
      AbortEvolves(h, id);
      ResyncEvolves(h, id);
      ActivateEvolves(h, id);
      if r.rest != [] {
        SendNextEvolves(h, id, r.rest);
      } else if After(cfg, h.log, r.cursor).Some? && After(cfg, h.log, r.cursor).value != [] {
        SendNextEvolves(h, id, After(cfg, h.log, r.cursor).value);
      }
    }
  }

  lemma ReadEvolves(cfg: Config, h: Host, s: Id)
    ensures Evolves(h, ReadUp(h, cfg, s))
  {
    hide Evolves, Live;
    Reflagged(h, h);
    if Readable(h, s) {
      var w := h.wires[s];
      var read := h.(wires := h.wires[s := w.(upRead := w.upRead + 1)]);
      CountEvolves(h, s);
      if w.peer.Some? && w.peer.value in h.members && Voice(h.members[w.peer.value], s) {
        var id := w.peer.value;
        if h.closing {
        } else if w.up[w.upRead].TextSubmit? {
          VoiceLive(read, id, s);
          SubmitEvolves(cfg, read, id, s, w.up[w.upRead].submission);
          EvolvesTransitive(h, read, ReadUp(h, cfg, s));
        } else {
          RemoveEvolves(read, id, false);
          EvolvesTransitive(h, read, ReadUp(h, cfg, s));
        }
      } else if PendingOn(h, s) != {} {
        var r :| r in PendingOn(h, s) && ReadUp(h, cfg, s) == DropPending(read, r);
        RejectEvolves(read, r);
        EvolvesTransitive(h, read, DropPending(read, r));
      }
    }
  }

  lemma CountEvolves(h: Host, s: Id)
    requires s in h.wires
    ensures Evolves(h, h.(wires := h.wires[s := h.wires[s].(upRead := h.wires[s].upRead + 1)]))
  {
    WritesEvolve(h, h.wires[s := h.wires[s].(upRead := h.wires[s].upRead + 1)]);
  }

  lemma VoiceLive(h: Host, id: Id, s: Id)
    requires id in h.members && Voice(h.members[id], s)
    ensures Live(h, s)
  {
    assert Owns(h.members[id], s);
  }

  lemma SubmitEvolves(cfg: Config, h: Host, id: Id, s: Id, submission: Submission)
    requires Live(h, s)
    ensures Evolves(h, SubmitText(h, cfg, id, s, submission))
  {
    hide Evolves, Live;
    MarkEvolves(h, id);
    SendEvolves(h, s, ActionRejected(submission.clientEventId));
    CommitEvolves(h, Text(id, submission.clientEventId, submission.text));
    var prior := Answer(Written(h.log, id), cfg.dedupeMaxItems, submission.clientEventId);
    if prior.Some? && 1 <= prior.value <= |h.log| {
      SendEvolves(h, s, RoomEvent(h.log[prior.value - 1]));
    }
  }

  lemma CloseEvolves(h: Host)
    ensures Evolves(h, CloseRoom(h))
  {
    hide Evolves, Live;
    Reflagged(h, h);
    if !h.closing {
      var flagged := h.(closing := true, roomPaused := true, joinsPaused := true, generation := h.generation + 1);
      Reflagged(h, flagged);
      CancelEvolves(flagged, true);
      var cancelled := CancelPendingApprovals(flagged, true);
      var wired := cancelled.(wires := CloseRoom(h).wires);
      EvolvesTransitive(h, flagged, cancelled);
      FarewellEvolves(cancelled, wired.wires);
      EvolvesTransitive(h, cancelled, wired);
      NoResumesEvolve(wired);
      EvolvesTransitive(h, wired, CloseRoom(h));
    }
  }

  lemma FarewellEvolves(h: Host, wires: map<Id, Wire>)
    requires wires == map s | s in h.wires ::
      if Listening(h.members, s) then Write(h.wires[s], Terminal)
      else if Resuming(h.members, s) then h.wires[s].(closed := true)
      else h.wires[s]
    ensures Evolves(h, h.(wires := wires))
  {
    forall s | s in h.wires
      ensures Listening(h.members, s) ==> Live(h, s)
    {
      ListenersLive(h, s);
    }
    hide Live;
    WritesEvolve(h, wires);
  }

  lemma NoResumesEvolve(h: Host)
    ensures Evolves(h, h.(members := map id | id in h.members :: h.members[id].(resume := None)))
  {
    var k := h.(members := map id | id in h.members :: h.members[id].(resume := None));
    forall s | Live(k, s)
      ensures Live(h, s)
    {
      if HeldByMember(k.members, s) {
        var x :| x in k.members && Owns(k.members[x], s);
        assert x in h.members && Owns(h.members[x], s);
      }
    }
    LettingGo(h, k);
  }

  lemma AcceptResumeGuarantee(cfg: Config, h: Host, s: Id, inTime: bool)
    requires HostOk(cfg, h)
    ensures var k := AcceptResume(h, s, inTime);
            Evolves(h, k) || TakesOver(h, k, s) || TurnsAway(h, k, s)
  {
    hide HostOk, Evolves, TakesOver;
    Reflagged(h, h);
    if s in h.wires && h.wires[s].phase == Fresh {
      var w := h.wires[s];
      if w.peer.None? || !Resumable(h, w.peer.value, w.claim, inTime) {
        FreshNotLive(cfg, h, s);
      } else {
        TakeOverGuarantee(cfg, h, s, inTime);
      }
    }
  }

  lemma FreshNotLive(cfg: Config, h: Host, s: Id)
    requires HostOk(cfg, h) && s in h.wires && h.wires[s].phase == Fresh
    ensures !Live(h, s)
  {
    FreshUnused(cfg, h, s);
  }

  lemma TakeOverGuarantee(cfg: Config, h: Host, s: Id, inTime: bool)
    requires HostOk(cfg, h)
    requires s in h.wires && h.wires[s].phase == Fresh && h.wires[s].peer.Some?
    requires Resumable(h, h.wires[s].peer.value, h.wires[s].claim, inTime)
    ensures TakesOver(h, AcceptResume(h, s, inTime), s)
  {
    hide HostOk, Evolves, Live;
    var id := h.wires[s].peer.value;
    var marked := MarkReconnecting(h, id);
    var k := AcceptResume(h, s, inTime);
    FreshEmpty(cfg, h, s);
    MarkKeeps(cfg, h, id, s);
    MarkEvolves(h, id);
    AcceptResumeOk(cfg, h, s, inTime);
    forall t | t in h.wires && t != s
      ensures Live(k, t) ==> Live(marked, t)
      ensures t in k.wires && k.wires[t].peer == Some(id) ==> !Live(k, t)
    {
      OthersGivenUp(cfg, marked, k, id, s, t);
    }
    TakenOver(h, marked, k, s);
  }

  lemma FreshEmpty(cfg: Config, h: Host, s: Id)
    requires HostOk(cfg, h) && s in h.wires && h.wires[s].phase == Fresh
    ensures h.wires[s].down == []
  {
  }

  lemma TakenOver(h: Host, marked: Host, k: Host, s: Id)
    requires Evolves(h, marked)
    requires s in h.wires && h.wires[s].phase == Fresh && h.wires[s].peer.Some? && h.wires[s].down == []
    requires marked.wires[s] == h.wires[s]
    requires k.owner == marked.owner && k.log == marked.log
    requires k.wires == marked.wires[s := Write(h.wires[s].(phase := Accepted, base := |k.log|), ResumeAccept(|k.log|))]
    requires forall t :: t in h.wires && t != s ==> (Live(k, t) ==> Live(marked, t))
    requires forall t :: t in h.wires && t != s && t in k.wires && k.wires[t].peer == h.wires[s].peer ==> !Live(k, t)
    ensures TakesOver(h, k, s)
  {
    hide Live;
    forall t | t in h.wires && t != s
      ensures t in k.wires && WireEvolves(h.wires[t], k.wires[t], |h.log|)
    {
      assert WireEvolves(h.wires[t], marked.wires[t], |h.log|);
    }
  }

  lemma OthersGivenUp(cfg: Config, marked: Host, k: Host, id: Id, s: Id, t: Id)
    requires HostOk(cfg, k) && id in marked.members && id in k.members && t != s
    requires k.pending == marked.pending
    requires k.members == marked.members[id := marked.members[id].(resume := k.members[id].resume)]
    requires k.members[id].resume.Some? && k.members[id].resume.value.stream == s
    ensures Live(k, t) ==> Live(marked, t)
    ensures t in k.wires && k.wires[t].peer == Some(id) ==> !Live(k, t)
  {
    if HeldByMember(k.members, t) {
      var x :| x in k.members && Owns(k.members[x], t);
      assert MemberOk(k, x, k.members[x]);
      assert Owns(marked.members[x], t);
    }
  }

  lemma GuestWritesEvolve(h: Host, s: Id, frame: Up)
    ensures Evolves(h, Post(h, s, frame))
  {
    if s in h.wires {
      WritesEvolve(h, Post(h, s, frame).wires);
    } else {
      LettingGo(h, h);
    }
  }
}
