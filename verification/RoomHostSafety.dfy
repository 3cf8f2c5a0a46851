/**
 * What every segment of the owner's code keeps: the log is well formed, the
 * members are exactly the roster the log describes, each guest has at most
 * one voice, and every frame ever written agrees with the log.
 */
module RoomHostSafety {
  import opened Basics
  import opened RoomTypes
  import opened ReplayBuffer
  import opened EventDeduper
  import opened RoomHost

  /** Each event is one that a reader of the log up to it accepts; the owner never leaves. */
  ghost predicate LogOk(cfg: Config, owner: Id, log: seq<Event>) {
    && Numbered(log)
    && (forall i :: 0 <= i < |log| ==> Acceptable(cfg, RosterAt(owner, log, i), log[i].body))
    && (forall i :: 0 <= i < |log| ==> log[i].body != Left(owner))
  }

  ghost predicate RosterMatches(h: Host) {
    Faces(h.members) == RosterOf(h.owner, h.log)
  }

  ghost predicate HasLeft(log: seq<Event>, id: Id) {
    exists i :: 0 <= i < |log| && log[i].body == Left(id)
  }

  ghost predicate IdsOk(h: Host) {
    && h.owner in h.members
    && (forall id :: id in h.members ==> id in h.issued && !HasLeft(h.log, id))
    && (forall r :: r in h.pending && h.pending[r].state.Committing? ==>
          var id := h.pending[r].state.memberId;
          id in h.issued && id !in h.members && !HasLeft(h.log, id) && h.pending[r].state.admissionSeq <= |h.log|)
    && (forall r, q :: (r in h.pending && q in h.pending && r != q
          && h.pending[r].state.Committing? && h.pending[q].state.Committing?) ==>
          h.pending[r].state.memberId != h.pending[q].state.memberId)
    && (forall i :: 0 <= i < |h.log| && h.log[i].body.Left? ==> h.log[i].body.memberId in h.issued)
  }

  /** The owner is online without a stream; a guest is online exactly while it has one. */
  ghost predicate MemberOk(h: Host, id: Id, m: Member) {
    && (id == h.owner <==> m.role == Owner)
    && (id == h.owner ==> m == Member(Owner, Online, None, m.admissionSeq, None))
    && m.admissionSeq <= |h.log|
    && (m.role == Guest ==> (m.status == Online <==> m.stream.Some?))
    && (m.resume.Some? ==> m.status == Reconnecting)
    && (m.stream.Some? ==> AttachedTo(h, m.stream.value, id))
    && (m.resume.Some? ==> AttachedTo(h, m.resume.value.stream, id) && BatchOk(h.log, m.resume.value))
  }

  ghost predicate AttachedTo(h: Host, s: Id, id: Id) {
    s in h.wires && h.wires[s].peer == Some(id) && h.wires[s].phase == Accepted
  }

  ghost predicate BatchOk(log: seq<Event>, r: Resume) {
    && r.cursor + |r.rest| <= |log|
    && r.rest == log[r.cursor..r.cursor + |r.rest|]
  }

  ghost predicate VoicesOk(h: Host) {
    && (forall id :: id in h.members ==> MemberOk(h, id, h.members[id]))
    && (forall r :: r in h.pending ==>
          var p := h.pending[r];
          && p.stream in h.wires && h.wires[p.stream].phase == Accepted
          && h.wires[p.stream].peer == if p.state.Committing? then Some(p.state.memberId) else None)
    && (forall r, q :: r in h.pending && q in h.pending && r != q ==> h.pending[r].stream != h.pending[q].stream)
  }

  function Reach(f: Down): nat {
    match f
    case RoomEvent(event) => event.number
    case Resync(number, _) => number
    case JoinAccept(_, number, _) => number
    case ResumeAccept(currentSeq) => currentSeq
    case _ => 0
  }

  ghost predicate FrameOk(f: Down, peer: Option<Id>, owner: Id, log: seq<Event>) {
    && Reach(f) <= |log|
    && match f
       case RoomEvent(event) =>
         event.number >= 1 && log[event.number - 1] == event && peer.Some? && event.body != Left(peer.value)
       case ResumeAccept(_) => peer.Some?
       case JoinAccept(id, number, roster) =>
         var before := RosterAt(owner, log, number);
         peer == Some(id) && id !in before && roster == before[id := Face(Guest, Online)] && owner in roster
       case Resync(number, roster) =>
         roster == RosterAt(owner, log, number) && peer.Some? && peer.value in roster && owner in roster
       case _ => true
  }

  ghost predicate WireOk(w: Wire, owner: Id, log: seq<Event>) {
    && (w.phase == Fresh ==> w.down == [])
    && (forall j :: 0 <= j < |w.down| && (w.down[j].ResumeAccept? || w.down[j].JoinAccept?) ==> w.phase == Accepted)
    && w.base <= |log|
    && (forall j :: 0 <= j < |w.down| ==> FrameOk(w.down[j], w.peer, owner, log))
    && (forall i, j :: 0 <= i < j < |w.down| && w.down[j].Resync? ==> Reach(w.down[i]) <= w.down[j].number)
    && (forall j :: 0 <= j < |w.down| && w.down[j].Resync? ==> w.base <= w.down[j].number)
  }

  ghost predicate WiresOk(h: Host) {
    && (forall s :: s in h.wires ==> WireOk(h.wires[s], h.owner, h.log))
    && (forall s :: s in h.wires && h.wires[s].peer.Some? ==> h.wires[s].peer.value in h.issued)
  }

  ghost predicate HostOk(cfg: Config, h: Host) {
    && LogOk(cfg, h.owner, h.log)
    && RosterMatches(h)
    && IdsOk(h)
    && VoicesOk(h)
    && WiresOk(h)
  }

  // ---- Growing the log ----

  lemma {:induction false} OwnerStays(cfg: Config, owner: Id, log: seq<Event>, n: nat)
    requires LogOk(cfg, owner, log) && n <= |log|
    ensures owner in RosterAt(owner, log, n)
  {
    if n > 0 {
      OwnerStays(cfg, owner, log, n - 1);
      RosterStep(owner, log, n - 1);
    }
  }

  lemma LogGrows(cfg: Config, owner: Id, log: seq<Event>, body: Body)
    requires LogOk(cfg, owner, log)
    requires Acceptable(cfg, RosterOf(owner, log), body) && body != Left(owner)
    ensures LogOk(cfg, owner, log + [Event(|log| + 1, body)])
    ensures RosterOf(owner, log + [Event(|log| + 1, body)]) == ApplyBody(RosterOf(owner, log), body)
  {
    var event := Event(|log| + 1, body);
    var grown := log + [event];
    assert grown[..|log|] == log && log[..|log|] == log;
    GrownRoster(owner, log, event);
    hide RosterOf, ApplyBody, Acceptable;
    forall i | 0 <= i < |grown|
      ensures Acceptable(cfg, RosterAt(owner, grown, i), grown[i].body)
    {
      RosterExtends(owner, log, [event], i);
    }
  }

  lemma GrownRoster(owner: Id, log: seq<Event>, event: Event)
    ensures RosterOf(owner, log + [event]) == ApplyBody(RosterOf(owner, log), event.body)
  {
    assert (log + [event])[..|log|] == log;
  }

  lemma FrameGrows(f: Down, peer: Option<Id>, owner: Id, log: seq<Event>, event: Event)
    requires FrameOk(f, peer, owner, log)
    ensures FrameOk(f, peer, owner, log + [event])
  {
    RosterExtends(owner, log, [event], Reach(f));
  }

  lemma WireGrows(w: Wire, owner: Id, log: seq<Event>, event: Event)
    requires WireOk(w, owner, log)
    ensures WireOk(w, owner, log + [event])
  {
    forall j | 0 <= j < |w.down|
      ensures FrameOk(w.down[j], w.peer, owner, log + [event])
    {
      FrameGrows(w.down[j], w.peer, owner, log, event);
    }
  }

  lemma WriteOk(w: Wire, owner: Id, log: seq<Event>, f: Down)
    requires WireOk(w, owner, log) && w.phase != Fresh && (f.ResumeAccept? || f.JoinAccept? ==> w.phase == Accepted)
    requires FrameOk(f, w.peer, owner, log)
    requires f.Resync? ==> f.number == |log|
    ensures WireOk(Write(w, f), owner, log)
  {
  }

  /** All that a commit needs of the state it starts from: members already changed, log not yet. */
  ghost predicate ReadyFor(cfg: Config, h: Host, body: Body) {
    && LogOk(cfg, h.owner, h.log) && IdsOk(h) && VoicesOk(h) && WiresOk(h)
    && Acceptable(cfg, RosterOf(h.owner, h.log), body)
    && Faces(h.members) == ApplyBody(RosterOf(h.owner, h.log), body)
    && (body.Left? ==>
          && body.memberId != h.owner && body.memberId in h.issued && body.memberId !in h.members
          && forall r :: r in h.pending && h.pending[r].state.Committing? ==>
            h.pending[r].state.memberId != body.memberId)
  }

  lemma CommitWire(cfg: Config, h: Host, body: Body, s: Id)
    requires ReadyFor(cfg, h, body) && s in h.wires
    ensures WireOk(Commit(h, body).wires[s], h.owner, Commit(h, body).log)
  {
    hide WireOk, LogOk;
    var event := Event(|h.log| + 1, body);
    var after := Commit(h, body);
    WireGrows(h.wires[s], h.owner, h.log, event);
    if Listening(h.members, s) {
      var id :| id in h.members && Voice(h.members[id], s);
      assert MemberOk(h, id, h.members[id]);
      assert after.log[event.number - 1] == event;
      WriteOk(h.wires[s], h.owner, after.log, RoomEvent(event));
    }
  }

  lemma CommitWires(cfg: Config, h: Host, body: Body)
    requires ReadyFor(cfg, h, body)
    ensures WiresOk(Commit(h, body))
  {
    var event := Event(|h.log| + 1, body);
    var after := Commit(h, body);
    forall s | s in after.wires
      ensures WireOk(after.wires[s], h.owner, after.log)
    {
      CommitWire(cfg, h, body, s);
    }
    hide WireOk, VoicesOk, IdsOk;
  }

  lemma HasLeftGrows(log: seq<Event>, event: Event, id: Id)
    ensures HasLeft(log + [event], id) <==> HasLeft(log, id) || event.body == Left(id)
  {
    var grown := log + [event];
    if HasLeft(log, id) {
      var i :| 0 <= i < |log| && log[i].body == Left(id);
      assert grown[i].body == Left(id);
    }
    if event.body == Left(id) {
      assert grown[|log|].body == Left(id);
    }
  }

  lemma CommitIds(cfg: Config, h: Host, body: Body)
    requires ReadyFor(cfg, h, body)
    ensures IdsOk(Commit(h, body))
  {
    var event := Event(|h.log| + 1, body);
    forall id: Id
      ensures HasLeft(h.log + [event], id) <==> HasLeft(h.log, id) || body == Left(id)
    {
      HasLeftGrows(h.log, event, id);
    }
  }

  lemma BatchGrows(log: seq<Event>, r: Resume, event: Event)
    requires BatchOk(log, r)
    ensures BatchOk(log + [event], r)
  {
    assert (log + [event])[r.cursor..r.cursor + |r.rest|] == log[r.cursor..r.cursor + |r.rest|];
  }

  lemma CommitVoices(cfg: Config, h: Host, body: Body)
    requires ReadyFor(cfg, h, body)
    ensures VoicesOk(Commit(h, body))
  {
    var after := Commit(h, body);
    forall id | id in after.members
      ensures MemberOk(after, id, after.members[id])
    {
      var m := h.members[id];
      assert MemberOk(h, id, m);
      if m.resume.Some? {
        BatchGrows(h.log, m.resume.value, Event(|h.log| + 1, body));
      }
    }
  }

  lemma CommitOk(cfg: Config, h: Host, body: Body)
    requires ReadyFor(cfg, h, body)
    ensures HostOk(cfg, Commit(h, body))
  {
    hide IdsOk, VoicesOk, WiresOk;
    LogGrows(cfg, h.owner, h.log, body);
    CommitWires(cfg, h, body);
    CommitIds(cfg, h, body);
    CommitVoices(cfg, h, body);
  }

  // ---- Writing outside a commit ----

  /** Only the content of wires differs, in ways that keep each of them good. */
  lemma SameButWires(cfg: Config, h: Host, wires: map<Id, Wire>)
    requires HostOk(cfg, h)
    requires forall s :: s in h.wires ==>
      s in wires && wires[s].peer == h.wires[s].peer && wires[s].phase == h.wires[s].phase
    requires forall s :: s in wires ==>
      WireOk(wires[s], h.owner, h.log) && (wires[s].peer.Some? ==> wires[s].peer.value in h.issued)
    ensures HostOk(cfg, h.(wires := wires))
  {
    var after := h.(wires := wires);
    forall id | id in after.members
      ensures MemberOk(after, id, after.members[id])
    {
      assert MemberOk(h, id, h.members[id]);
    }
  }

  lemma SendOk(cfg: Config, h: Host, s: Id, f: Down)
    requires HostOk(cfg, h)
    requires s in h.wires ==> h.wires[s].phase != Fresh && FrameOk(f, h.wires[s].peer, h.owner, h.log)
    requires !f.ResumeAccept? && !f.JoinAccept?
    requires f.Resync? ==> f.number == |h.log|
    ensures HostOk(cfg, Send(h, s, f))
  {
    if s in h.wires {
      WriteOk(h.wires[s], h.owner, h.log, f);
      SameButWires(cfg, h, Send(h, s, f).wires);
    }
  }

  lemma ShutOk(cfg: Config, h: Host, s: Id)
    requires HostOk(cfg, h)
    ensures HostOk(cfg, Shut(h, s))
  {
    if s in h.wires {
      SameButWires(cfg, h, Shut(h, s).wires);
    }
  }

  // ---- Admission ----

  lemma FewerPending(cfg: Config, h: Host, requests: set<Id>)
    requires HostOk(cfg, h)
    ensures HostOk(cfg, h.(pending := h.pending - requests))
  {
    var after := h.(pending := h.pending - requests);
    forall id | id in after.members
      ensures MemberOk(after, id, after.members[id])
    {
      assert MemberOk(h, id, h.members[id]);
    }
  }

  lemma Relabelled(cfg: Config, h: Host, after: Host)
    requires HostOk(cfg, h)
    requires after == h.(roomPaused := after.roomPaused, joinsPaused := after.joinsPaused,
                         generation := after.generation,
                         joinToken := after.joinToken, closing := after.closing)
    ensures HostOk(cfg, after)
  {
    forall id | id in after.members
      ensures MemberOk(after, id, after.members[id])
    {
      assert MemberOk(h, id, h.members[id]);
    }
  }

  lemma AcceptJoinRequestOk(cfg: Config, h: Host, s: Id, requestId: Id, token: Id, wellFormed: bool)
    requires HostOk(cfg, h)
    ensures HostOk(cfg, AcceptJoinRequest(h, cfg, s, requestId, token, wellFormed))
  {
    hide HostOk;
    if s !in h.wires {
      if JoinRefusal(h, cfg, requestId, token, wellFormed).Some? {
        NewWireOk(cfg, h, s, Wire(None, 0, Refused, 0, [JoinReject], true, [], 0));
      } else {
        var w := Wire(None, 0, Accepted, |h.log|, [], false, [], 0);
        NewWireOk(cfg, h, s, w);
        NewPendingOk(cfg, h.(wires := h.wires[s := w]), s, requestId, token);
      }
    }
  }

  lemma NewWireOk(cfg: Config, h: Host, s: Id, w: Wire)
    requires HostOk(cfg, h) && s !in h.wires
    requires WireOk(w, h.owner, h.log) && (w.peer.Some? ==> w.peer.value in h.issued)
    ensures HostOk(cfg, h.(wires := h.wires[s := w]))
    ensures forall r :: r in h.pending ==> h.pending[r].stream != s
  {
    SameButWires(cfg, h, h.wires[s := w]);
  }

  lemma NewPendingOk(cfg: Config, h: Host, s: Id, requestId: Id, token: Id)
    requires HostOk(cfg, h) && s in h.wires && h.wires[s].phase == Accepted && h.wires[s].peer == None
    requires forall r :: r in h.pending ==> h.pending[r].stream != s
    ensures HostOk(cfg, h.(pending := h.pending[requestId := Pending(s, token, Waiting)]))
  {
    hide HasLeft, WireOk, LogOk;
    var after := h.(pending := h.pending[requestId := Pending(s, token, Waiting)]);
    forall id | id in after.members
      ensures MemberOk(after, id, after.members[id])
    {
      assert MemberOk(h, id, h.members[id]);
    }
  }

  lemma RejectPendingOk(cfg: Config, h: Host, requestId: Id)
    requires HostOk(cfg, h)
    ensures HostOk(cfg, RejectPending(h, requestId)) && HostOk(cfg, DropPending(h, requestId))
  {
    if requestId in h.pending {
      var s := h.pending[requestId].stream;
      SendOk(cfg, h, s, JoinReject);
      ShutOk(cfg, Send(h, s, JoinReject), s);
      FewerPending(cfg, Shut(Send(h, s, JoinReject), s), {requestId});
      ShutOk(cfg, h, s);
      FewerPending(cfg, Shut(h, s), {requestId});
    }
  }

  lemma ApproveBeginOk(cfg: Config, h: Host, requestId: Id, expired: bool)
    requires HostOk(cfg, h)
    ensures HostOk(cfg, ApproveBegin(h, cfg, requestId, expired))
  {
    hide HostOk;
    RejectPendingOk(cfg, h, requestId);
    if requestId in h.pending && h.pending[requestId].state.Waiting? {
      ReserveOk(cfg, h, requestId);
    }
  }

  lemma ReserveOk(cfg: Config, h: Host, requestId: Id)
    requires HostOk(cfg, h) && requestId in h.pending && h.pending[requestId].state.Waiting?
    ensures HostOk(cfg, h.(pending := h.pending[requestId := h.pending[requestId].(state := Approving(h.generation))]))
  {
    hide HasLeft, WireOk, LogOk;
    var after := h.(pending := h.pending[requestId := h.pending[requestId].(state := Approving(h.generation))]);
    forall id | id in after.members
      ensures MemberOk(after, id, after.members[id])
    {
      assert MemberOk(h, id, h.members[id]);
    }
  }

  lemma ApproveVerifiedOk(cfg: Config, h: Host, requestId: Id, verified: bool, expired: bool, memberId: Id)
    requires HostOk(cfg, h)
    ensures HostOk(cfg, ApproveVerified(h, requestId, verified, expired, memberId))
  {
    hide HostOk;
    RejectPendingOk(cfg, h, requestId);
    if requestId in h.pending && h.pending[requestId].state.Approving? && memberId !in h.issued
       && h.pending[requestId].stream in h.wires {
      CommittingOk(cfg, h, requestId, memberId);
    }
  }

  function AcceptFrame(h: Host, memberId: Id): Down {
    JoinAccept(memberId, |h.log|, Faces(h.members)[memberId := Face(Guest, Online)])
  }

  lemma CommittingWire(cfg: Config, h: Host, requestId: Id, memberId: Id)
    requires HostOk(cfg, h) && requestId in h.pending && h.pending[requestId].state.Approving?
    requires memberId !in h.issued && h.pending[requestId].stream in h.wires
    ensures WireOk(Write(h.wires[h.pending[requestId].stream].(peer := Some(memberId)), AcceptFrame(h, memberId)),
                   h.owner, h.log)
  {
    assert h.log[..|h.log|] == h.log;
    OwnerStays(cfg, h.owner, h.log, |h.log|);
    var w := h.wires[h.pending[requestId].stream];
    forall j | 0 <= j < |w.down|
      ensures FrameOk(w.down[j], Some(memberId), h.owner, h.log)
    {
      assert FrameOk(w.down[j], w.peer, h.owner, h.log);
    }
    WriteOk(w.(peer := Some(memberId)), h.owner, h.log, AcceptFrame(h, memberId));
  }

  function StartCommitting(h: Host, requestId: Id, memberId: Id): Host
    requires requestId in h.pending && h.pending[requestId].state.Approving?
    requires h.pending[requestId].stream in h.wires
  {
    var p := h.pending[requestId];
    h.(issued := h.issued + {memberId},
       pending := h.pending[requestId := p.(state := Committing(p.state.generation, memberId, |h.log|))],
       wires := h.wires[p.stream := Write(h.wires[p.stream].(peer := Some(memberId)), AcceptFrame(h, memberId))])
  }

  lemma CommittingIds(cfg: Config, h: Host, requestId: Id, memberId: Id)
    requires HostOk(cfg, h) && requestId in h.pending && h.pending[requestId].state.Approving?
    requires memberId !in h.issued && h.pending[requestId].stream in h.wires
    ensures IdsOk(StartCommitting(h, requestId, memberId))
  {
    hide WiresOk, VoicesOk, LogOk;
    assert !HasLeft(h.log, memberId);
  }

  lemma CommittingVoices(cfg: Config, h: Host, requestId: Id, memberId: Id)
    requires HostOk(cfg, h) && requestId in h.pending && h.pending[requestId].state.Approving?
    requires memberId !in h.issued && h.pending[requestId].stream in h.wires
    ensures VoicesOk(StartCommitting(h, requestId, memberId))
  {
    hide WiresOk, IdsOk, LogOk;
    var after := StartCommitting(h, requestId, memberId);
    forall id | id in after.members
      ensures MemberOk(after, id, after.members[id])
    {
      assert MemberOk(h, id, h.members[id]);
    }
  }

  lemma CommittingOk(cfg: Config, h: Host, requestId: Id, memberId: Id)
    requires HostOk(cfg, h) && requestId in h.pending && h.pending[requestId].state.Approving?
    requires memberId !in h.issued && h.pending[requestId].stream in h.wires
    ensures HostOk(cfg, StartCommitting(h, requestId, memberId))
  {
    hide VoicesOk, IdsOk, LogOk, WireOk;
    CommittingWire(cfg, h, requestId, memberId);
    CommittingIds(cfg, h, requestId, memberId);
    CommittingVoices(cfg, h, requestId, memberId);
  }

  lemma ApproveCommitOk(cfg: Config, h: Host, requestId: Id, written: bool)
    requires HostOk(cfg, h)
    ensures HostOk(cfg, ApproveCommit(h, requestId, written))
  {
    hide HostOk;
    RejectPendingOk(cfg, h, requestId);
    if requestId in h.pending && h.pending[requestId].state.Committing? {
      SeatOk(cfg, h, requestId);
    }
  }

  lemma SeatOk(cfg: Config, h: Host, requestId: Id)
    requires HostOk(cfg, h) && requestId in h.pending && h.pending[requestId].state.Committing?
    ensures var p := h.pending[requestId];
            HostOk(cfg, Commit(h.(
              members := h.members[p.state.memberId := Member(Guest, Online, Some(p.stream), p.state.admissionSeq,
                                                              None)],
              pending := h.pending - {requestId}), Joined(p.state.memberId, Face(Guest, Online))))
  {
    var p := h.pending[requestId];
    var id := p.state.memberId;
    var m := Member(Guest, Online, Some(p.stream), p.state.admissionSeq, None);
    var seated := h.(members := h.members[id := m], pending := h.pending - {requestId});
    assert MemberOk(seated, id, m);
    forall x | x in seated.members
      ensures MemberOk(seated, x, seated.members[x])
    {
      if x != id {
        assert MemberOk(h, x, h.members[x]);
      }
    }
    SeatReady(cfg, h, requestId, seated);
    CommitOk(cfg, seated, Joined(id, Face(Guest, Online)));
  }

  lemma SeatReady(cfg: Config, h: Host, requestId: Id, seated: Host)
    requires HostOk(cfg, h) && requestId in h.pending && h.pending[requestId].state.Committing?
    requires var p := h.pending[requestId];
             seated == h.(members := h.members[p.state.memberId := Member(Guest, Online, Some(p.stream),
                                                                          p.state.admissionSeq, None)],
                          pending := h.pending - {requestId})
    requires forall x :: x in seated.members ==> MemberOk(seated, x, seated.members[x])
    ensures ReadyFor(cfg, seated, Joined(h.pending[requestId].state.memberId, Face(Guest, Online)))
  {
    hide MemberOk, HasLeft, WireOk, LogOk;
    var id := h.pending[requestId].state.memberId;
    assert Faces(seated.members) == Faces(h.members)[id := Face(Guest, Online)];
    assert WiresOk(seated);
    assert VoicesOk(seated);
    SeatIds(h, requestId, seated);
  }

  lemma SeatIds(h: Host, requestId: Id, seated: Host)
    requires IdsOk(h) && requestId in h.pending && h.pending[requestId].state.Committing?
    requires seated.owner == h.owner && seated.log == h.log && seated.issued == h.issued
    requires seated.members.Keys == h.members.Keys + {h.pending[requestId].state.memberId}
    requires seated.pending == h.pending - {requestId}
    ensures IdsOk(seated)
  {
    hide HasLeft;
  }

  lemma CancelOk(cfg: Config, h: Host, everyone: bool)
    requires HostOk(cfg, h)
    ensures HostOk(cfg, CancelPendingApprovals(h, everyone))
  {
    hide HasLeft, LogOk, RosterOf, VoicesOk, IdsOk, StreamOf;
    var requests := Cancelled(h.pending, everyone);
    SameButWires(cfg, h, ShutStreams(h.wires, h.pending, requests));
    FewerPending(cfg, h.(wires := ShutStreams(h.wires, h.pending, requests)), requests);
  }

  lemma PauseOk(cfg: Config, h: Host, paused: bool)
    requires HostOk(cfg, h)
    ensures HostOk(cfg, SetJoinsPaused(h, paused)) && HostOk(cfg, SetRoomPaused(h, paused))
  {
    hide HostOk;
    var joins := h.(joinsPaused := paused, generation := h.generation + (if paused != h.joinsPaused then 1 else 0));
    Relabelled(cfg, h, joins);
    CancelOk(cfg, joins, false);
    var room := h.(roomPaused := paused, generation := h.generation + (if paused != h.roomPaused then 1 else 0));
    Relabelled(cfg, h, room);
    CancelOk(cfg, room, false);
  }

  lemma RotateOk(cfg: Config, h: Host, token: Id)
    requires HostOk(cfg, h)
    ensures HostOk(cfg, RotateInvitation(h, token))
  {
    hide HostOk;
    var wires := RotateInvitation(h, token).wires;
    RotatedWires(cfg, h, token);
    FewerPending(cfg, h.(wires := wires), h.pending.Keys);
    assert h.pending - h.pending.Keys == map[];
    Relabelled(cfg, h.(wires := wires, pending := map[]), RotateInvitation(h, token));
  }

  lemma RotatedWires(cfg: Config, h: Host, token: Id)
    requires HostOk(cfg, h)
    ensures HostOk(cfg, h.(wires := RotateInvitation(h, token).wires))
  {
    var wires := RotateInvitation(h, token).wires;
    forall s | s in h.wires
      ensures WireOk(wires[s], h.owner, h.log)
      ensures wires[s].peer == h.wires[s].peer && wires[s].phase == h.wires[s].phase
    {
      if StreamOf(h.pending, NotCommitting(h.pending), s) {
        var r :| r in NotCommitting(h.pending) && r in h.pending && h.pending[r].stream == s;
        WriteOk(h.wires[s], h.owner, h.log, JoinReject);
      }
    }
    SameButWires(cfg, h, wires);
  }

  // ---- Members ----

  lemma MemberChangeVoices(cfg: Config, h: Host, id: Id, m: Member)
    requires HostOk(cfg, h) && id in h.members
    requires MemberOk(h, id, m)
    ensures VoicesOk(h.(members := h.members[id := m]))
  {
    hide IdsOk, WiresOk, LogOk;
    var after := h.(members := h.members[id := m]);
    forall x | x in after.members
      ensures MemberOk(after, x, after.members[x])
    {
      assert MemberOk(h, x, h.members[x]);
    }
  }

  lemma MemberChangeOk(cfg: Config, h: Host, id: Id, m: Member)
    requires HostOk(cfg, h) && id in h.members
    requires MemberOk(h, id, m)
    ensures IdsOk(h.(members := h.members[id := m])) && VoicesOk(h.(members := h.members[id := m]))
    ensures WiresOk(h.(members := h.members[id := m]))
    ensures m.role == h.members[id].role && m.status == h.members[id].status ==>
      HostOk(cfg, h.(members := h.members[id := m]))
  {
    hide VoicesOk, LogOk, HasLeft, WireOk, MemberOk;
    MemberChangeVoices(cfg, h, id, m);
    var after := h.(members := h.members[id := m]);
    assert IdsOk(after);
    if m.role == h.members[id].role && m.status == h.members[id].status {
      assert Faces(after.members) == Faces(h.members);
    }
  }

  lemma StatusChangeOk(cfg: Config, h: Host, id: Id, m: Member)
    requires HostOk(cfg, h) && id in h.members
    requires MemberOk(h, id, m) && m.role == h.members[id].role
    ensures HostOk(cfg, Commit(h.(members := h.members[id := m]), State(id, m.status)))
  {
    hide IdsOk, VoicesOk, WiresOk, LogOk, MemberOk;
    MemberChangeOk(cfg, h, id, m);
    var changed := h.(members := h.members[id := m]);
    assert id in RosterOf(h.owner, h.log) && RosterOf(h.owner, h.log)[id].role == m.role;
    assert Faces(changed.members) == ApplyBody(RosterOf(h.owner, h.log), State(id, m.status));
    CommitOk(cfg, changed, State(id, m.status));
  }

  lemma MarkReconnectingOk(cfg: Config, h: Host, id: Id)
    requires HostOk(cfg, h)
    ensures HostOk(cfg, MarkReconnecting(h, id))
  {
    hide HostOk, MemberOk;
    if id in h.members && h.members[id].role == Guest && h.members[id].status == Online {
      var m := h.members[id];
      var shut := if m.stream.Some? then Shut(h, m.stream.value) else h;
      if m.stream.Some? {
        ShutOk(cfg, h, m.stream.value);
      }
      DetachedOk(cfg, shut, id);
      StatusChangeOk(cfg, shut, id, m.(status := Reconnecting, stream := None));
    }
  }

  lemma DetachedOk(cfg: Config, h: Host, id: Id)
    requires HostOk(cfg, h) && id in h.members && h.members[id].role == Guest
    ensures MemberOk(h, id, h.members[id].(status := Reconnecting, stream := None))
  {
    assert MemberOk(h, id, h.members[id]);
  }

  lemma AbortResumeOk(cfg: Config, h: Host, id: Id)
    requires HostOk(cfg, h) && id in h.members
    ensures HostOk(cfg, AbortResume(h, id))
  {
    var m := h.members[id];
    if m.resume.Some? {
      ShutOk(cfg, h, m.resume.value.stream);
      var shut := Shut(h, m.resume.value.stream);
      assert MemberOk(shut, id, m);
      MemberChangeOk(cfg, shut, id, m.(resume := None));
    }
  }

  lemma RemoveMemberOk(cfg: Config, h: Host, id: Id, notify: bool)
    requires HostOk(cfg, h)
    ensures HostOk(cfg, RemoveMember(h, id, notify))
  {
    hide HostOk;
    if !h.closing && id != h.owner && id in h.members {
      AbortResumeOk(cfg, h, id);
      var aborted := AbortResume(h, id);
      var m := h.members[id];
      assert aborted.members - {id} == h.members - {id};
      if m.stream.Some? {
        StreamWire(cfg, aborted, id);
        var s := m.stream.value;
        SendOk(cfg, aborted, s, Terminal);
        var told := if notify then Send(aborted, s, Terminal) else aborted;
        ShutOk(cfg, told, s);
        DeleteOk(cfg, Shut(told, s), id);
      } else {
        DeleteOk(cfg, aborted, id);
      }
    }
  }

  lemma StreamWire(cfg: Config, h: Host, id: Id)
    requires HostOk(cfg, h) && id in h.members && h.members[id].stream.Some?
    ensures AttachedTo(h, h.members[id].stream.value, id)
  {
    assert MemberOk(h, id, h.members[id]);
  }

  lemma DeleteVoices(cfg: Config, h: Host, id: Id)
    requires HostOk(cfg, h)
    ensures VoicesOk(h.(members := h.members - {id}))
  {
    hide IdsOk, WiresOk, LogOk;
    var gone := h.(members := h.members - {id});
    forall x | x in gone.members
      ensures MemberOk(gone, x, gone.members[x])
    {
      assert MemberOk(h, x, h.members[x]);
    }
  }

  lemma DeleteOk(cfg: Config, h: Host, id: Id)
    requires HostOk(cfg, h) && id in h.members && id != h.owner
    ensures HostOk(cfg, Commit(h.(members := h.members - {id}), Left(id)))
  {
    hide VoicesOk, LogOk, HasLeft, WireOk;
    var gone := h.(members := h.members - {id});
    DeleteVoices(cfg, h, id);
    assert Faces(gone.members) == Faces(h.members) - {id};
    assert IdsOk(gone);
    CommitOk(cfg, gone, Left(id));
  }

  // ---- Resuming ----

  lemma AcceptResumeOk(cfg: Config, h: Host, s: Id, inTime: bool)
    requires HostOk(cfg, h)
    ensures HostOk(cfg, AcceptResume(h, s, inTime))
  {
    hide HostOk;
    if s in h.wires && h.wires[s].phase == Fresh {
      var w := h.wires[s];
      if w.peer.None? || !Resumable(h, w.peer.value, w.claim, inTime) {
        RefuseResumeOk(cfg, h, s);
      } else {
        var id := w.peer.value;
        MarkReconnectingOk(cfg, h, id);
        MarkKeeps(cfg, h, id, s);
        StartResumeOk(cfg, MarkReconnecting(h, id), s);
      }
    }
  }

  lemma RefuseResumeOk(cfg: Config, h: Host, s: Id)
    requires HostOk(cfg, h) && s in h.wires && h.wires[s].phase == Fresh
    ensures var w := h.wires[s];
            HostOk(cfg, h.(wires := h.wires[s := w.(phase := Refused, down := w.down + [ResumeReject],
                                                    closed := true)]))
  {
    var w := h.wires[s];
    RephasedOk(cfg, h, s, w.(phase := Refused, down := w.down + [ResumeReject], closed := true));
  }

  lemma StartResumeOk(cfg: Config, h: Host, s: Id)
    requires HostOk(cfg, h) && s in h.wires && h.wires[s].phase == Fresh
    requires h.wires[s].peer.Some? && h.wires[s].peer.value in h.members && h.wires[s].claim <= |h.log|
    requires var m := h.members[h.wires[s].peer.value];
             m.role == Guest && m.status == Reconnecting && m.resume.None?
    ensures var w := h.wires[s];
            var id := w.peer.value;
            HostOk(cfg, h.(
              members := h.members[id := h.members[id].(resume := Some(Resume(s, w.claim, [])))],
              wires := h.wires[s := Write(w.(phase := Accepted, base := |h.log|), ResumeAccept(|h.log|))]))
  {
    hide HasLeft, LogOk, RosterOf;
    var w := h.wires[s];
    var id := w.peer.value;
    var wire := Write(w.(phase := Accepted, base := |h.log|), ResumeAccept(|h.log|));
    RephasedOk(cfg, h, s, wire);
    var wired := h.(wires := h.wires[s := wire]);
    assert MemberOk(wired, id, h.members[id]);
    assert h.log[w.claim..w.claim] == [];
    MemberChangeOk(cfg, wired, id, h.members[id].(resume := Some(Resume(s, w.claim, []))));
  }

  /** A stream whose first frame is unread belongs to nobody yet. */
  lemma FreshUnused(cfg: Config, h: Host, s: Id)
    requires HostOk(cfg, h) && s in h.wires && h.wires[s].phase == Fresh
    ensures forall id :: id in h.members ==> h.members[id].stream != Some(s)
    ensures forall id :: id in h.members && h.members[id].resume.Some? ==> h.members[id].resume.value.stream != s
    ensures forall r :: r in h.pending ==> h.pending[r].stream != s
  {
    forall id | id in h.members
      ensures h.members[id].stream != Some(s)
      ensures h.members[id].resume.Some? ==> h.members[id].resume.value.stream != s
    {
      assert MemberOk(h, id, h.members[id]);
    }
  }

  lemma RephasedOk(cfg: Config, h: Host, s: Id, w: Wire)
    requires HostOk(cfg, h) && s in h.wires && h.wires[s].phase == Fresh
    requires WireOk(w, h.owner, h.log) && w.peer == h.wires[s].peer
    ensures HostOk(cfg, h.(wires := h.wires[s := w]))
  {
    hide VoicesOk, LogOk, HasLeft, WireOk;
    RephasedVoices(cfg, h, s, w);
    assert IdsOk(h.(wires := h.wires[s := w]));
  }

  lemma RephasedVoices(cfg: Config, h: Host, s: Id, w: Wire)
    requires HostOk(cfg, h) && s in h.wires && h.wires[s].phase == Fresh
    ensures VoicesOk(h.(wires := h.wires[s := w]))
  {
    hide IdsOk, LogOk, WireOk;
    FreshUnused(cfg, h, s);
    var after := h.(wires := h.wires[s := w]);
    forall id | id in after.members
      ensures MemberOk(after, id, after.members[id])
    {
      assert MemberOk(h, id, h.members[id]);
    }
  }

  /** Marking a member leaves a stream that is not its own as it was. */
  lemma MarkKeeps(cfg: Config, h: Host, id: Id, s: Id)
    requires HostOk(cfg, h) && s in h.wires && h.wires[s].phase == Fresh
    requires id in h.members && h.members[id].role == Guest && !h.closing
    ensures MarkReconnecting(h, id).wires[s] == h.wires[s]
    ensures id in MarkReconnecting(h, id).members
    ensures MarkReconnecting(h, id).members[id] == h.members[id].(status := Reconnecting, stream := None)
    ensures |h.log| <= |MarkReconnecting(h, id).log|
  {
    FreshUnused(cfg, h, s);
    assert MemberOk(h, id, h.members[id]);
  }

  lemma ContinueResumeOk(cfg: Config, h: Host, id: Id, ok: bool)
    requires GoodConfig(cfg)
    requires HostOk(cfg, h)
    ensures HostOk(cfg, ContinueResume(h, cfg, id, ok))
  {
    hide HostOk, MemberOk;
    if id in h.members && h.members[id].resume.Some? {
      var r := h.members[id].resume.value;
      BatchOf(cfg, h, id);
      AbortResumeOk(cfg, h, id);
      if !(!ok || h.closing || r.stream !in h.wires || h.wires[r.stream].closed) {
        if r.rest != [] {
          SendNextOk(cfg, h, id, r.rest);
        } else if r.cursor < |h.log| {
          AfterIsLog(cfg, h.log, r.cursor);
          if After(cfg, h.log, r.cursor).Some? {
            SendNextOk(cfg, h, id, h.log[r.cursor..]);
          } else {
            ResyncOk(cfg, h, id);
          }
        } else {
          ActivateOk(cfg, h, id);
        }
      }
    }
  }

  lemma BatchOf(cfg: Config, h: Host, id: Id)
    requires HostOk(cfg, h) && id in h.members && h.members[id].resume.Some?
    ensures BatchOk(h.log, h.members[id].resume.value)
  {
    assert MemberOk(h, id, h.members[id]);
  }

  lemma ResyncOk(cfg: Config, h: Host, id: Id)
    requires HostOk(cfg, h) && id in h.members && h.members[id].resume.Some?
    ensures var m := h.members[id];
            var r := m.resume.value;
            HostOk(cfg, Send(h, r.stream, Resync(|h.log|, Faces(h.members))).(
              members := h.members[id := m.(resume := Some(Resume(r.stream, |h.log|, [])))]))
  {
    var m := h.members[id];
    var r := m.resume.value;
    var next := m.(resume := Some(Resume(r.stream, |h.log|, [])));
    var f := Resync(|h.log|, Faces(h.members));
    assert MemberOk(h, id, m) && MemberOk(h, id, next) by {
      assert h.log[|h.log|..|h.log|] == [];
    }
    assert FrameOk(f, h.wires[r.stream].peer, h.owner, h.log) by {
      assert h.log[..|h.log|] == h.log;
      OwnerStays(cfg, h.owner, h.log, |h.log|);
      assert id in f.roster;
    }
    MemberChangeOk(cfg, h, id, next);
    hide HostOk;
    SendOk(cfg, h.(members := h.members[id := next]), r.stream, f);
  }

  lemma ActivateOk(cfg: Config, h: Host, id: Id)
    requires HostOk(cfg, h) && id in h.members && h.members[id].resume.Some?
    ensures var m := h.members[id];
            var back := m.(status := Online, stream := Some(m.resume.value.stream), resume := None);
            HostOk(cfg, Commit(h.(members := h.members[id := back]), State(id, Online)))
  {
    var m := h.members[id];
    assert MemberOk(h, id, m);
    StatusChangeOk(cfg, h, id, m.(status := Online, stream := Some(m.resume.value.stream), resume := None));
  }

  lemma SendNextOk(cfg: Config, h: Host, id: Id, events: seq<Event>)
    requires HostOk(cfg, h) && id in h.members && h.members[id].resume.Some? && events != []
    requires var c := h.members[id].resume.value.cursor;
             c + |events| <= |h.log| && events == h.log[c..c + |events|]
    ensures HostOk(cfg, SendNext(h, id, events))
  {
    hide HasLeft, RosterOf, WireOk;
    var m := h.members[id];
    var r := m.resume.value;
    var next := r.(cursor := events[0].number, rest := events[1..]);
    var f := RoomEvent(events[0]);
    assert events[0] == h.log[r.cursor] && events[0].number == r.cursor + 1;
    assert MemberOk(h, id, m) && BatchOk(h.log, next) by {
      assert next.rest == h.log[next.cursor..next.cursor + |next.rest|];
    }
    LogFrame(cfg, h, id, r.stream, r.cursor + 1);
    MemberChangeOk(cfg, h, id, m.(resume := Some(next)));
    hide HostOk;
    SendOk(cfg, h.(members := h.members[id := m.(resume := Some(next))]), r.stream, f);
  }

  // ---- Texts, frames from guests, closing ----

  lemma TextOk(cfg: Config, h: Host, id: Id, submission: Submission)
    requires HostOk(cfg, h) && id in h.members && ValidText(cfg, submission.text)
    ensures HostOk(cfg, Commit(h, Text(id, submission.clientEventId, submission.text)))
  {
    assert id in Faces(h.members);
    CommitOk(cfg, h, Text(id, submission.clientEventId, submission.text));
  }

  lemma SubmitTextOk(cfg: Config, h: Host, id: Id, s: Id, submission: Submission)
    requires HostOk(cfg, h) && id in h.members && Voice(h.members[id], s)
    ensures HostOk(cfg, SubmitText(h, cfg, id, s, submission))
  {
    hide HostOk;
    VoiceWire(cfg, h, id, s);
    if h.roomPaused {
      SendOk(cfg, h, s, ActionRejected(submission.clientEventId));
    } else if !ValidText(cfg, submission.text) {
      MarkReconnectingOk(cfg, h, id);
    } else {
      var prior := Answer(Written(h.log, id), cfg.dedupeMaxItems, submission.clientEventId);
      if prior.None? {
        TextOk(cfg, h, id, submission);
      } else if 1 <= prior.value <= |h.log| && After(cfg, h.log, prior.value - 1).Some? {
        LogFrame(cfg, h, id, s, prior.value);
        SendOk(cfg, h, s, RoomEvent(h.log[prior.value - 1]));
      } else {
        SendOk(cfg, h, s, ActionRejected(submission.clientEventId));
      }
    }
  }

  lemma VoiceWire(cfg: Config, h: Host, id: Id, s: Id)
    requires HostOk(cfg, h) && id in h.members && Voice(h.members[id], s)
    ensures AttachedTo(h, s, id)
  {
    assert MemberOk(h, id, h.members[id]);
  }

  /** Any event of the log may be written to a current member's stream. */
  lemma LogFrame(cfg: Config, h: Host, id: Id, s: Id, number: nat)
    requires HostOk(cfg, h) && id in h.members && AttachedTo(h, s, id) && 1 <= number <= |h.log|
    ensures FrameOk(RoomEvent(h.log[number - 1]), h.wires[s].peer, h.owner, h.log)
  {
    assert !HasLeft(h.log, id);
    assert h.log[number - 1].number == number;
  }

  lemma ReadUpOk(cfg: Config, h: Host, s: Id)
    requires HostOk(cfg, h)
    ensures HostOk(cfg, ReadUp(h, cfg, s))
  {
    hide HostOk;
    if Readable(h, s) {
      var w := h.wires[s];
      var read := h.(wires := h.wires[s := w.(upRead := w.upRead + 1)]);
      CountedOk(cfg, h, s);
      if w.peer.Some? && w.peer.value in h.members && Voice(h.members[w.peer.value], s) {
        if w.up[w.upRead].TextSubmit? {
          SubmitTextOk(cfg, read, w.peer.value, s, w.up[w.upRead].submission);
        } else {
          RemoveMemberOk(cfg, read, w.peer.value, false);
        }
      } else if PendingOn(h, s) != {} {
        var r :| r in PendingOn(h, s) && ReadUp(h, cfg, s) == DropPending(read, r);
        RejectPendingOk(cfg, read, r);
      }
    }
  }

  lemma CountedOk(cfg: Config, h: Host, s: Id)
    requires HostOk(cfg, h) && s in h.wires
    ensures HostOk(cfg, h.(wires := h.wires[s := h.wires[s].(upRead := h.wires[s].upRead + 1)]))
  {
    SameButWires(cfg, h, h.wires[s := h.wires[s].(upRead := h.wires[s].upRead + 1)]);
  }

  lemma OwnerTextOk(cfg: Config, h: Host, submission: Submission)
    requires HostOk(cfg, h)
    ensures HostOk(cfg, OwnerText(h, cfg, submission))
  {
    if ValidText(cfg, submission.text) {
      TextOk(cfg, h, h.owner, submission);
    }
  }

  lemma CloseRoomOk(cfg: Config, h: Host)
    requires HostOk(cfg, h)
    ensures HostOk(cfg, CloseRoom(h))
  {
    hide HostOk;
    if !h.closing {
      var flagged := h.(closing := true, roomPaused := true, joinsPaused := true, generation := h.generation + 1);
      Relabelled(cfg, h, flagged);
      CancelOk(cfg, flagged, true);
      var cancelled := CancelPendingApprovals(flagged, true);
      CloseWiresOk(cfg, h, cancelled);
      NoResumesOk(cfg, cancelled.(wires := CloseRoom(h).wires));
    }
  }

  lemma CloseWireOk(cfg: Config, h: Host, cancelled: Host, s: Id)
    requires HostOk(cfg, h) && HostOk(cfg, cancelled) && !h.closing
    requires cancelled == CancelPendingApprovals(
      h.(closing := true, roomPaused := true, joinsPaused := true, generation := h.generation + 1), true)
    requires s in cancelled.wires
    ensures s in CloseRoom(h).wires && WireOk(CloseRoom(h).wires[s], h.owner, h.log)
    ensures CloseRoom(h).wires[s].peer == cancelled.wires[s].peer
      && CloseRoom(h).wires[s].phase == cancelled.wires[s].phase
  {
    if Listening(h.members, s) {
      var id :| id in h.members && Voice(h.members[id], s);
      assert MemberOk(h, id, h.members[id]);
      WriteOk(cancelled.wires[s], h.owner, h.log, Terminal);
    }
  }

  lemma CloseWiresOk(cfg: Config, h: Host, cancelled: Host)
    requires HostOk(cfg, h) && HostOk(cfg, cancelled) && !h.closing
    requires cancelled == CancelPendingApprovals(
      h.(closing := true, roomPaused := true, joinsPaused := true, generation := h.generation + 1), true)
    ensures HostOk(cfg, cancelled.(wires := CloseRoom(h).wires))
  {
    hide HostOk, WireOk;
    forall s | s in cancelled.wires
      ensures s in CloseRoom(h).wires && WireOk(CloseRoom(h).wires[s], h.owner, h.log)
      ensures CloseRoom(h).wires[s].peer == cancelled.wires[s].peer
        && CloseRoom(h).wires[s].phase == cancelled.wires[s].phase
    {
      CloseWireOk(cfg, h, cancelled, s);
    }
    PeersIssued(cfg, cancelled);
    SameButWires(cfg, cancelled, CloseRoom(h).wires);
  }

  lemma PeersIssued(cfg: Config, h: Host)
    requires HostOk(cfg, h)
    ensures forall s :: s in h.wires && h.wires[s].peer.Some? ==> h.wires[s].peer.value in h.issued
  {
  }

  lemma NoResumesOk(cfg: Config, h: Host)
    requires HostOk(cfg, h)
    ensures HostOk(cfg, h.(members := map id | id in h.members :: h.members[id].(resume := None)))
  {
    hide HasLeft, WireOk, LogOk;
    var after := h.(members := map id | id in h.members :: h.members[id].(resume := None));
    forall id | id in after.members
      ensures MemberOk(after, id, after.members[id])
    {
      assert MemberOk(h, id, h.members[id]);
    }
    SameFaces(h.members);
  }

  lemma SameFaces(members: map<Id, Member>)
    ensures Faces(map id | id in members :: members[id].(resume := None)) == Faces(members)
  {
  }

  lemma OpeningOk(cfg: Config, owner: Id, token: Id)
    ensures HostOk(cfg, Opening(owner, token))
  {
  }
}
