/**
 * The owner's controller as an object: its fields, and the loops and updates
 * that its segments are made of. Every method is proved to do what the
 * corresponding function of RoomHost says, and to keep what RoomHostSafety
 * promises.
 */
module RoomController {
  import opened Basics
  import opened RoomTypes
  import opened ReplayBuffer
  import opened EventDeduper
  import opened RoomHost
  import opened RoomHostSafety
  import opened RoomCatchUp
  import opened RoomTexts
  import opened RoomAnswers

  predicate ListeningAmong(members: map<Id, Member>, ids: set<Id>, s: Id) {
    exists id :: id in ids && id in members && Voice(members[id], s)
  }

  /** The streams after a frame was written to the guests among `ids`. */
  function Heard(wires: map<Id, Wire>, members: map<Id, Member>, ids: set<Id>, frame: Down): map<Id, Wire> {
    map s | s in wires :: if ListeningAmong(members, ids, s) then Write(wires[s], frame) else wires[s]
  }

  ghost predicate VoicesApart(members: map<Id, Member>) {
    forall a, b, s :: a in members && b in members && Voice(members[a], s) && Voice(members[b], s) ==> a == b
  }

  lemma HeardByOneMore(wires: map<Id, Wire>, members: map<Id, Member>, ids: set<Id>, id: Id, frame: Down)
    requires id in members && id !in ids && VoicesApart(members)
    ensures var m := members[id];
            var before := Heard(wires, members, ids, frame);
            Heard(wires, members, ids + {id}, frame)
              == if m.role == Guest && m.status == Online && m.stream.Some? && m.stream.value in wires
                 then before[m.stream.value := Write(before[m.stream.value], frame)] else before
  {
    forall s
      ensures ListeningAmong(members, ids + {id}, s) <==> ListeningAmong(members, ids, s) || Voice(members[id], s)
    {
      if Voice(members[id], s) {
        assert id in ids + {id};
      }
    }
  }

  lemma HeardByAll(wires: map<Id, Wire>, members: map<Id, Member>, frame: Down)
    ensures Heard(wires, members, members.Keys, frame)
      == map s | s in wires :: if Listening(members, s) then Write(wires[s], frame) else wires[s]
  {
    forall s
      ensures ListeningAmong(members, members.Keys, s) <==> Listening(members, s)
    {
      if Listening(members, s) {
        var id :| id in members && Voice(members[id], s);
        assert id in members.Keys;
      }
    }
  }

  lemma HeardByNone(wires: map<Id, Wire>, members: map<Id, Member>, frame: Down)
    ensures Heard(wires, members, {}, frame) == wires
  {
  }

  class GroupRoomController {
    const cfg: Config
    const owner: Id
    const replay: GroupReplayBuffer
    var nextSeq: nat
    var members: map<Id, Member>
    var dedupers: map<Id, RecentEventDeduper>
    var pending: map<Id, Pending>
    var roomPaused: bool
    var joinsPaused: bool
    var generation: nat
    var joinToken: Id
    var closing: bool
    var wires: map<Id, Wire>
    ghost var issued: set<Id>

    ghost function State(): Host
      reads this, replay
    {
      Host(owner, replay.log, members, pending, issued, roomPaused, joinsPaused, generation, joinToken, closing, wires)
    }

    /** The replay buffer holds the log the controller numbers. */
    ghost predicate Numbering()
      reads this`nextSeq, replay
    {
      GoodConfig(cfg) && replay.Valid() && replay.cfg == cfg && nextSeq == |replay.log|
    }

    /** Each member's deduper has seen exactly what that member wrote. */
    ghost predicate Deduping()
      reads this`dedupers, replay, dedupers.Values
    {
      && (forall id :: id in dedupers ==> Remembers(dedupers[id], id))
      && (forall a, b :: a in dedupers && b in dedupers && a != b ==> dedupers[a] != dedupers[b])
    }

    ghost predicate Remembers(d: RecentEventDeduper, id: Id)
      reads replay, d
    {
      d.Valid() && d.maximum == cfg.dedupeMaxItems && d.history == Written(replay.log, id)
    }

    ghost predicate Valid()
      reads this, replay, dedupers.Values
    {
      Numbering() && Deduping() && members.Keys == dedupers.Keys && HostOk(cfg, State())
    }

    constructor (cfg: Config, owner: Id, token: Id)
      requires GoodConfig(cfg)
      ensures Valid() && State() == Opening(owner, token) && this.cfg == cfg
    {
      this.cfg, this.owner := cfg, owner;
      var buffer := new GroupReplayBuffer(cfg);
      var deduper := new RecentEventDeduper(cfg.dedupeMaxItems);
      replay := buffer;
      nextSeq, pending, wires, issued := 0, map[], map[], {owner};
      members := map[owner := Member(Owner, Online, None, 0, None)];
      dedupers := map[owner := deduper];
      roomPaused, joinsPaused, generation, joinToken, closing := false, false, 0, token, false;
      new;
      OpeningOk(cfg, owner, token);
    }

    // ---- Writing ----

    method SafeSend(id: Id, frame: Down)
      modifies this`wires
      ensures wires == if id in members && members[id].status == Online && members[id].stream.Some?
        then old(Send(State(), members[id].stream.value, frame).wires) else old(wires)
    {
      if id in members && members[id].status == Online && members[id].stream.Some? {
        var s := members[id].stream.value;
        if s in wires {
          wires := wires[s := Write(wires[s], frame)];
        }
      }
    }

    /** Writes a frame to every online guest, one after the other. */
    method Broadcast(frame: Down)
      requires VoicesApart(members)
      modifies this`wires
      ensures wires == Heard(old(wires), members, members.Keys, frame)
    {
      hide Heard, VoicesApart;
      var todo := members.Keys;
      ghost var done: set<Id> := {};
      HeardByNone(wires, members, frame);
      while todo != {}
        invariant done + todo == members.Keys && done !! todo
        invariant wires == Heard(old(wires), members, done, frame) && wires.Keys == old(wires).Keys
        decreases |todo|
      {
        var id :| id in todo;
        HeardByOneMore(old(wires), members, done, id, frame);
        if members[id].role == Guest && members[id].status == Online {
          SafeSend(id, frame);
        }
        todo := todo - {id};
        done := done + {id};
      }
      assert done == members.Keys;
    }

    /** Numbers an event, keeps it for replay, and writes it to every online guest. */
    method CommitEvent(body: Body)
      requires Numbering()
      requires VoicesApart(members)
      modifies this`nextSeq, this`wires, replay
      ensures Numbering() && State() == Commit(old(State()), body)
      ensures replay.log == old(replay.log) + [Event(|old(replay.log)| + 1, body)]
    {
      hide Heard, VoicesApart, Listening, Write, GroupReplayBuffer.Valid;
      nextSeq := nextSeq + 1;
      var event := Event(nextSeq, body);
      var kept := replay.Push(event);
      assert kept;
      Broadcast(RoomEvent(event));
      HeardByAll(old(wires), members, RoomEvent(event));
    }

    /** What a text of `id` does to everyone's deduplication history; other events do nothing. */
    twostate lemma StillDeduping(body: Body)
      requires old(Deduping()) && replay.log == old(replay.log) + [Event(|old(replay.log)| + 1, body)]
      requires !body.Text?
      requires forall id :: id in dedupers ==>
        id in old(dedupers) && dedupers[id] == old(dedupers[id]) && unchanged(dedupers[id])
      ensures Deduping()
    {
      forall id | id in dedupers
        ensures Remembers(dedupers[id], id)
      {
        WrittenGrows(old(replay.log), Event(|old(replay.log)| + 1, body), id);
      }
    }

    // ---- Members ----

    /** The member is heard on no stream any more. */
    method Detach(id: Id)
      requires id in members
      modifies this`members, this`wires
      ensures State() == Detached(old(State()), id)
    {
      var m := members[id];
      members := members[id := m.(status := Reconnecting, stream := None)];
      if m.stream.Some? && m.stream.value in wires {
        wires := wires[m.stream.value := wires[m.stream.value].(closed := true)];
      }
    }

    method MarkMemberReconnecting(id: Id)
      requires Valid()
      modifies this, replay
      ensures Valid() && State() == MarkReconnecting(old(State()), id) && dedupers == old(dedupers)
    {
      hide HostOk, Commit, Detached, MarkReconnecting, Deduping;
      MarkReconnectingOk(cfg, State(), id);
      MarkIs(State(), id);
      if closing || id !in members || members[id].role != Guest || members[id].status == Reconnecting {
        return;
      }
      Apart(cfg, State());
      DetachedApart(State(), id);
      Detach(id);
      CommitEvent(Body.State(id, Reconnecting));
      StillDeduping(Body.State(id, Reconnecting));
    }

    method AbortResumeAttempt(id: Id)
      requires id in members
      modifies this`members, this`wires
      ensures members == old(members)[id := old(members)[id].(resume := None)]
      ensures wires == GivenUp(old(wires), old(members)[id].resume)
    {
      var m := members[id];
      if m.resume.None? {
        assert members == members[id := m];
        return;
      }
      members := members[id := m.(resume := None)];
      if m.resume.value.stream in wires {
        wires := wires[m.resume.value.stream := wires[m.resume.value.stream].(closed := true)];
      }
    }

    method RemoveMember(id: Id, notify: bool) returns (removed: bool)
      requires Valid()
      modifies this, replay
      ensures Valid() && State() == RoomHost.RemoveMember(old(State()), id, notify)
      ensures removed == (id in old(members) && id != owner && !closing)
    {
      hide HostOk, Commit, RoomHost.RemoveMember, Deduping, Gone;
      RemoveMemberOk(cfg, State(), id, notify);
      RemoveIs(State(), id, notify);
      if closing || id == owner || id !in members {
        return false;
      }
      Apart(cfg, State());
      GoneApart(State(), id, notify);
      EndMember(id, notify);
      CommitEvent(Left(id));
      StillDeduping(Left(id));
      return true;
    }

    /** Authority is revoked before anything is sent. */
    method EndMember(id: Id, notify: bool)
      requires id in members
      modifies this`members, this`wires, this`dedupers
      ensures State() == Gone(old(State()), id, notify) && dedupers == old(dedupers) - {id}
    {
      hide Write, Gone, GivenUp;
      GoneIs(State(), id, notify);
      var m := members[id];
      AbortResumeAttempt(id);
      if m.stream.Some? && m.stream.value in wires {
        var w := wires[m.stream.value];
        wires := wires[m.stream.value := (if notify then Write(w, Terminal) else w).(closed := true)];
      }
      members := members - {id};
      dedupers := dedupers - {id};
      assert members == old(members) - {id};
    }

    // ---- Texts ----

    /** The event with a number, if a resume could still be given it. */
    method Recall(number: nat) returns (event: Option<Event>)
      requires Numbering() && 1 <= number
      ensures event == if number <= |replay.log| && After(cfg, replay.log, number - 1).Some?
        then Some(replay.log[number - 1]) else None
    {
      var events := replay.AfterNumber(number - 1);
      event := None;
      if events.Some? && events.value != [] {
        AfterIsLog(cfg, replay.log, number - 1);
        event := Some(events.value[0]);
      }
    }

    /** Commits a text and remembers its id. */
    method CommitText(id: Id, submission: Submission)
      requires Valid() && id in members && ValidText(cfg, submission.text)
      modifies this, replay, dedupers.Values
      ensures Valid() && dedupers == old(dedupers)
      ensures State() == Commit(old(State()), Text(id, submission.clientEventId, submission.text))
      ensures nextSeq == |old(replay.log)| + 1
    {
      hide HostOk, Commit, VoicesApart, Recent, TakeLast, ValidText, After, Start, GoodConfig, Written;
      TextOk(cfg, State(), id, submission);
      Apart(cfg, State());
      ghost var log := replay.log;
      CommitEvent(Text(id, submission.clientEventId, submission.text));
      WrittenBy(log, Event(nextSeq, Text(id, submission.clientEventId, submission.text)));
      dedupers[id].Remember(submission.clientEventId, nextSeq);
    }

    /** What a guest hears about a text that was committed before. */
    method AnswerDuplicate(id: Id, prior: nat, requestId: Id)
      requires Numbering() && id in members && members[id].status == Online && members[id].stream.Some?
      modifies this`wires
      ensures State() == DuplicateAnswered(old(State()), cfg, members[id].stream.value, prior, requestId)
    {
      hide After, GroupReplayBuffer.Valid;
      var event: Option<Event> := None;
      if prior >= 1 {
        event := Recall(prior);
      }
      if event.Some? {
        SafeSend(id, RoomEvent(event.value));
      } else {
        SafeSend(id, ActionRejected(requestId));
      }
    }

    /** A text from a guest, on the stream it is heard on. */
    method HandleText(id: Id, submission: Submission)
      requires Valid() && id in members && members[id].stream.Some? && Voice(members[id], members[id].stream.value)
      modifies this, replay, dedupers.Values
      ensures Valid()
      ensures State() == SubmitText(old(State()), cfg, id, old(members[id].stream.value), submission)
    {
      hide HostOk, Commit, Send, MarkReconnecting, DuplicateAnswered, ValidText, After, Answer, Written, VoicesApart,
        SubmitText,
           Deduping, Numbering;
      var s := members[id].stream.value;
      SubmitTextOk(cfg, State(), id, s, submission);
      SubmitIs(State(), cfg, id, s, submission);
      SendShape(State(), s, ActionRejected(submission.clientEventId));
      if roomPaused {
        SafeSend(id, ActionRejected(submission.clientEventId));
      } else if !ValidText(cfg, submission.text) {
        MarkMemberReconnecting(id);
      } else {
        var prior := KnownNumber(id, submission.clientEventId);
        if prior.None? {
          CommitText(id, submission);
        } else {
          AnswerDuplicate(id, prior.value, submission.clientEventId);
        }
      }
    }

    /** The owner's own text: committed, or answered with the event that already carries its id. */
    method SendText(submission: Submission) returns (event: Option<Event>)
      requires Valid()
      modifies this, replay, dedupers.Values
      ensures Valid() && State() == OwnerText(old(State()), cfg, submission)
      ensures SendsBack(cfg, old(State()), submission, event)
    {
      hide HostOk, Commit, ValidText, After, Answer, Written, VoicesApart, Deduping, GroupReplayBuffer.Valid,
        Remembered;
      OwnerTextOk(cfg, State(), submission);
      event := None;
      if closing || roomPaused || !ValidText(cfg, submission.text) {
        return;
      }
      var prior := KnownNumber(owner, submission.clientEventId);
      ghost var before := State();
      if prior.None? {
        CommitText(owner, submission);
        event := Some(Event(nextSeq, Text(owner, submission.clientEventId, submission.text)));
      } else if prior.value >= 1 {
        event := Recall(prior.value);
      }
      hide SendsBack;
      SentBack(cfg, before, submission, event);
    }

    method KnownNumber(id: Id, clientEventId: Id) returns (number: Option<nat>)
      requires Deduping() && members.Keys <= dedupers.Keys && HostOk(cfg, State()) && (id == owner || id in members)
      ensures number == Answer(Written(replay.log, id), cfg.dedupeMaxItems, clientEventId)
      ensures id in members
    {
      hide HostOk, Answer, Written;
      OwnerIn(cfg, State());
      assert Remembers(dedupers[id], id);
      number := dedupers[id].Get(clientEventId);
    }

    // ---- Requests ----

    /** Revokes a request before telling it; one being admitted is not told, and yields only to force. */
    method RejectPending(requestId: Id, notify: bool, force: bool) returns (rejected: bool)
      modifies this`pending, this`wires
      ensures rejected == (requestId in old(pending) && (!old(pending)[requestId].state.Committing? || force))
      ensures pending == if rejected then old(pending) - {requestId} else old(pending)
      ensures wires == if rejected then Rejected(old(wires), old(pending)[requestId], notify) else old(wires)
    {
      if requestId !in pending || (pending[requestId].state.Committing? && !force) {
        return false;
      }
      var entry := pending[requestId];
      pending := pending - {requestId};
      if entry.stream in wires {
        var w := wires[entry.stream];
        if notify && !entry.state.Committing? {
          w := Write(w, JoinReject);
        }
        wires := wires[entry.stream := w.(closed := true)];
      }
      return true;
    }

    /** Every request that an approval is under way for, or every request. */
    method CancelPendingApprovals(everyone: bool)
      modifies this`pending, this`wires
      ensures State() == RoomHost.CancelPendingApprovals(old(State()), everyone)
    {
      hide ShutStreams, Rejected;
      var todo := pending.Keys;
      ghost var cut: set<Id> := {};
      NoneShut(wires, pending);
      while todo != {}
        invariant todo <= old(pending).Keys
        invariant forall r :: r in old(pending) ==>
          (r in cut <==> r !in todo && (everyone || !old(pending)[r].state.Waiting?))
        invariant cut <= old(pending).Keys && pending == old(pending) - cut
        invariant wires == ShutStreams(old(wires), old(pending), cut)
        decreases |todo|
      {
        var r :| r in todo;
        if everyone || !pending[r].state.Waiting? {
          OneMoreShut(old(wires), old(pending), cut, r);
          var revoked := RejectPending(r, false, true);
          cut := cut + {r};
          assert pending == old(pending) - cut;
        }
        todo := todo - {r};
      }
      assert cut == Cancelled(old(pending), everyone);
    }

    method SetRoomPaused(requested: bool)
      requires Valid()
      modifies this
      ensures Valid() && State() == RoomHost.SetRoomPaused(old(State()), requested)
    {
      hide HostOk, RoomHost.CancelPendingApprovals, Deduping, Numbering;
      PauseOk(cfg, State(), requested);
      if requested != roomPaused {
        generation := generation + 1;
      }
      roomPaused := requested;
      if requested {
        CancelPendingApprovals(false);
      }
    }

    method SetJoinsPaused(requested: bool)
      requires Valid()
      modifies this
      ensures Valid() && State() == RoomHost.SetJoinsPaused(old(State()), requested)
    {
      hide HostOk, RoomHost.CancelPendingApprovals, Deduping, Numbering;
      PauseOk(cfg, State(), requested);
      if requested != joinsPaused {
        generation := generation + 1;
      }
      joinsPaused := requested;
      if requested {
        CancelPendingApprovals(false);
      }
    }

    /** Revokes every request, and tells those that are not being admitted. */
    method RejectEverything()
      requires StreamsApart(pending)
      modifies this`pending, this`wires
      ensures pending == map[] && wires == Rotated(old(wires), old(pending), old(pending).Keys)
    {
      hide StreamsApart, Rotated, Rejected;
      ghost var requests := pending;
      ghost var streams := wires;
      var todo := pending.Keys;
      ghost var done: set<Id> := {};
      NoneRotated(wires, pending);
      while todo != {}
        invariant todo == pending.Keys && done + todo == requests.Keys && done !! todo
        invariant forall r :: r in todo ==> pending[r] == requests[r]
        invariant wires == Rotated(streams, requests, done)
        decreases |todo|
      {
        var r :| r in todo;
        OneMoreRotated(streams, requests, done, r);
        var revoked := RejectPending(r, true, true);
        todo := todo - {r};
        done := done + {r};
      }
      assert done == requests.Keys;
    }

    /** A new token, and every request made under the old one revoked. */
    method RotateInvitation(token: Id)
      requires Valid()
      modifies this`pending, this`wires, this`generation, this`joinToken
      ensures Valid() && State() == RoomHost.RotateInvitation(old(State()), token)
    {
      hide HostOk, Deduping, Numbering, Rotated, RoomHost.RotateInvitation, StreamsApart;
      RotateOk(cfg, State(), token);
      OwnStreams(cfg, State());
      AllRotated(State(), token);
      generation := generation + 1;
      joinToken := token;
      RejectEverything();
    }

    /** Members, and requests that hold a seat while their approval is under way. */
    method OccupiedSeats() returns (count: nat)
      ensures count == RoomHost.OccupiedSeats(State())
    {
      var reserved := 0;
      var todo := pending.Keys;
      ghost var done: set<Id> := {};
      while todo != {}
        invariant done + todo == pending.Keys && done !! todo
        invariant reserved == |Reserved(pending) * done|
        decreases |todo|
      {
        var r :| r in todo;
        if !pending[r].state.Waiting? {
          assert Reserved(pending) * (done + {r}) == Reserved(pending) * done + {r};
          reserved := reserved + 1;
        } else {
          assert Reserved(pending) * (done + {r}) == Reserved(pending) * done;
        }
        todo := todo - {r};
        done := done + {r};
      }
      assert Reserved(pending) * done == Reserved(pending);
      count := |members| + reserved;
    }

    /** The first frame of a new stream asks to join. */
    method AcceptJoinRequest(s: Id, requestId: Id, token: Id, wellFormed: bool) returns (refusal: Option<Refusal>)
      requires Valid()
      modifies this`pending, this`wires
      ensures Valid() && State() == RoomHost.AcceptJoinRequest(old(State()), cfg, s, requestId, token, wellFormed)
      ensures refusal == JoinRefusal(old(State()), cfg, requestId, token, wellFormed)
    {
      hide HostOk, Deduping, Numbering;
      AcceptJoinRequestOk(cfg, State(), s, requestId, token, wellFormed);
      refusal :=
        if token != joinToken then Some(InviteInvalid)
        else if !wellFormed then Some(Invalid)
        else if roomPaused || joinsPaused then Some(Paused)
        else if |members| >= cfg.maxMembers then Some(Full)
        else if |pending| >= cfg.maxPendingJoins then Some(Busy)
        else if requestId in pending then Some(Duplicate)
        else None;
      if s in wires {
        return;
      }
      if refusal.Some? {
        wires := wires[s := Wire(None, 0, Refused, 0, [JoinReject], true, [], 0)];
      } else {
        NumberOf();
        wires := wires[s := Wire(None, 0, Accepted, nextSeq, [], false, [], 0)];
        pending := pending[requestId := Pending(s, token, Waiting)];
      }
    }

    /** The stream of a request ended, or carried a frame it may not carry yet. */
    method DropPending(requestId: Id)
      requires Valid()
      modifies this`pending, this`wires
      ensures Valid() && State() == RoomHost.DropPending(old(State()), requestId)
    {
      hide HostOk, Deduping, Numbering;
      RejectPendingOk(cfg, State(), requestId);
      if requestId in pending {
        var s := pending[requestId].stream;
        pending := pending - {requestId};
        if s in wires {
          wires := wires[s := wires[s].(closed := true)];
        }
      }
    }

    /**
     * The address was checked: everything is looked at again, and the acceptance
     * frame goes out under a fresh member id.
     */
    method StartAdmission(requestId: Id, verified: bool, expired: bool, memberId: Id)
      requires Valid() && memberId !in issued
      modifies this`pending, this`wires, this`issued
      ensures Valid() && State() == ApproveVerified(old(State()), requestId, verified, expired, memberId)
    {
      hide HostOk, Deduping, Numbering, Rejected, Write;
      ApproveVerifiedOk(cfg, State(), requestId, verified, expired, memberId);
      VerifiedIs(State(), requestId, verified, expired, memberId);
      if requestId !in pending || !pending[requestId].state.Approving? {
        return;
      }
      var p := pending[requestId];
      if !verified || expired || closing || roomPaused || joinsPaused || generation != p.state.generation
          || p.stream !in wires {
        var rejected := RejectPending(requestId, true, false);
        return;
      }
      NumberOf();
      var accept := JoinAccept(memberId, nextSeq, Faces(members)[memberId := Face(Guest, Online)]);
      issued := issued + {memberId};
      pending := pending[requestId := p.(state := Committing(p.state.generation, memberId, nextSeq))];
      wires := wires[p.stream := Write(wires[p.stream].(peer := Some(memberId)), accept)];
    }

    /** The seat is taken before anything is awaited, so approvals under way cannot oversubscribe the room. */
    method ApprovePending(requestId: Id, expired: bool)
      requires Valid()
      modifies this
      ensures Valid() && State() == ApproveBegin(old(State()), cfg, requestId, expired)
    {
      hide HostOk, Deduping, Numbering, RoomHost.OccupiedSeats, Rejected;
      ApproveBeginOk(cfg, State(), requestId, expired);
      if requestId !in pending || !pending[requestId].state.Waiting? {
        return;
      }
      RejectIs(State(), requestId);
      if expired || roomPaused || joinsPaused {
        var rejected := RejectPending(requestId, true, false);
        return;
      }
      var entry := pending[requestId];
      pending := pending[requestId := entry.(state := Approving(generation))];
      var seats := OccupiedSeats();
      if seats > cfg.maxMembers {
        pending := pending[requestId := entry];
        assert pending == old(pending);
        var rejected := RejectPending(requestId, true, false);
      }
    }

    /** The acceptance frame was written, or was not: the point at which a guest is admitted. */
    method FinishAdmission(requestId: Id, written: bool) returns (admitted: bool)
      requires Valid()
      modifies this, replay
      ensures Valid() && State() == ApproveCommit(old(State()), requestId, written)
      ensures admitted == (written && requestId in old(pending) && Admissible(old(State()), old(pending)[requestId]))
    {
      hide HostOk, Commit, Deduping, Numbering, Rejected, ApproveCommit, Written, VoicesApart;
      ApproveCommitOk(cfg, State(), requestId, written);
      CommitIs(State(), requestId, written);
      if requestId !in pending || !pending[requestId].state.Committing? {
        return false;
      }
      var entry := pending[requestId];
      if !written || closing || roomPaused || joinsPaused || generation != entry.state.generation {
        pending := pending[requestId := entry.(state := Approving(entry.state.generation))];
        var rejected := RejectPending(requestId, true, false);
        assert pending == old(pending) - {requestId};
        return false;
      }
      Seat(requestId);
      return true;
    }

    method Seat(requestId: Id)
      requires Valid() && requestId in pending && pending[requestId].state.Committing?
      requires HostOk(cfg, Commit(Taken(State(), requestId),
                                  Joined(pending[requestId].state.memberId, Face(Guest, Online))))
      modifies this, replay
      ensures Valid()
      ensures State() == old(Commit(Taken(State(), requestId),
                                    Joined(pending[requestId].state.memberId, Face(Guest, Online))))
    {
      hide HostOk, Commit, Deduping, Numbering, Written, VoicesApart;
      var entry := pending[requestId];
      SeatApart(cfg, State(), requestId);
      CommittingNeverWrote(cfg, State(), requestId);
      pending := pending - {requestId};
      members := members[entry.state.memberId := Member(Guest, Online, Some(entry.stream), entry.state.admissionSeq,
                                                        None)];
      CommitEvent(Joined(entry.state.memberId, Face(Guest, Online)));
      StillDeduping(Joined(entry.state.memberId, Face(Guest, Online)));
      NewDeduper(entry.state.memberId);
    }

    method NewDeduper(id: Id)
      requires Deduping() && id !in dedupers && Written(replay.log, id) == []
      modifies this`dedupers
      ensures Deduping() && dedupers.Keys == old(dedupers).Keys + {id}
    {
      hide Written;
      var deduper := new RecentEventDeduper(cfg.dedupeMaxItems);
      dedupers := dedupers[id := deduper];
    }

    // ---- Frames from guests ----

    method HandleVoiceFrame(id: Id, s: Id, frame: Up)
      requires Valid() && !closing && id in members && Voice(members[id], s)
      modifies this, replay, dedupers.Values
      ensures Valid() && State() == VoiceHandled(old(State()), cfg, id, s, frame)
    {
      hide HostOk, Deduping, Numbering, SubmitText, RoomHost.RemoveMember;
      match frame {
        case TextSubmit(submission) =>
          VoiceStream(members[id], s);
          HandleText(id, submission);
        case Leave =>
          var removed := RemoveMember(id, false);
      }
    }

    /** The next frame of a stream: acted on if the stream is a member's voice, else at most the end of a request. */
    method HandleMemberFrame(s: Id)
      requires Valid()
      modifies this, replay, dedupers.Values
      ensures Valid() && State() == ReadUp(old(State()), cfg, s)
    {
      hide HostOk, Deduping, Numbering, VoiceHandled, RoomHost.DropPending, Voice, ReadUp;
      ReadIs(cfg, State(), s);
      if s !in wires || wires[s].upRead >= |wires[s].up| || Resuming(members, s) {
        return;
      }
      var w := wires[s];
      ReadingOk(cfg, State(), s);
      wires := wires[s := w.(upRead := w.upRead + 1)];
      if w.peer.Some? && w.peer.value in members && Voice(members[w.peer.value], s) {
        if !closing {
          HandleVoiceFrame(w.peer.value, s, w.up[w.upRead]);
        }
      } else {
        var request := RequestOn(s);
        if request.Some? {
          DropPending(request.value);
        }
      }
    }

    method RequestOn(s: Id) returns (request: Option<Id>)
      ensures request.None? <==> PendingOn(State(), s) == {}
      ensures request.Some? ==> request.value in PendingOn(State(), s)
    {
      var requests := set r | r in pending && pending[r].stream == s;
      if requests == {} {
        return None;
      }
      var r :| r in requests;
      return Some(r);
    }

    // ---- Closing ----

    /** Every resume under way is given up. */
    method AbortAll()
      modifies this`members, this`wires
      ensures members == NoResumes(old(members))
      ensures wires == Aborted(old(wires), old(members), old(members).Keys)
    {
      hide Aborted, AbortResume, ResumingAmong, GivenUp;
      var todo := members.Keys;
      ghost var done: set<Id> := {};
      NoneAborted(wires, members);
      while todo != {}
        invariant done + todo == members.Keys == old(members).Keys && done !! todo
        invariant forall id :: id in todo ==> members[id] == old(members)[id]
        invariant forall id :: id in done ==> members[id] == old(members)[id].(resume := None)
        invariant wires == Aborted(old(wires), old(members), done)
        decreases |todo|
      {
        var id :| id in todo;
        OneMoreAborted(old(wires), old(members), done, id);
        AbortResumeAttempt(id);
        todo := todo - {id};
        done := done + {id};
      }
      assert done == old(members).Keys;
      assert members == NoResumes(old(members));
    }

    /** From here on nothing is admitted, and no text is taken. */
    method Shutdown()
      modifies this`pending, this`wires, this`closing, this`roomPaused, this`joinsPaused, this`generation
      ensures State() == RoomHost.CancelPendingApprovals(
        old(State()).(closing := true, roomPaused := true, joinsPaused := true,
                      generation := old(generation) + 1), true)
    {
      hide RoomHost.CancelPendingApprovals;
      closing, roomPaused, joinsPaused, generation := true, true, true, generation + 1;
      CancelPendingApprovals(true);
    }

    /** Everything is revoked before anyone is told. */
    method Close()
      requires Valid()
      modifies this
      ensures Valid() && State() == CloseRoom(old(State()))
    {
      hide HostOk, Deduping, Numbering, RoomHost.CancelPendingApprovals, Heard, Aborted, CloseRoom, VoicesApart,
        NoResumes,
        Listening, Resuming;
      CloseRoomOk(cfg, State());
      if closing {
        AlreadyClosing(State());
        return;
      }
      Apart(cfg, State());
      ClosingIs(cfg, State());
      Shutdown();
      AbortAll();
      NoResumesApart(old(members));
      Broadcast(Terminal);
    }

    // ---- Resuming ----

    /** The first frame of a new stream asks to go on where another one stopped. */
    method AcceptResume(s: Id, inTime: bool) returns (accepted: bool)
      requires Valid()
      modifies this, replay
      ensures Valid() && State() == RoomHost.AcceptResume(old(State()), s, inTime)
      ensures accepted == (
                && s in old(wires) && old(wires)[s].phase == Fresh
                && MayResume(old(State()), old(wires)[s], inTime))
    {
      hide HostOk, Deduping, Numbering, MarkReconnecting, RoomHost.AcceptResume, Write;
      AcceptResumeOk(cfg, State(), s, inTime);
      ResumeIs(State(), s, inTime);
      if s in wires {
        MayResumeIs(State(), wires[s], inTime);
      }
      hide MayResume;
      if s !in wires || wires[s].phase != Fresh {
        return false;
      }
      var w := wires[s];
      NumberOf();
      if w.peer.None? || closing || w.peer.value !in members || members[w.peer.value].role != Guest
         || (members[w.peer.value].status != Online && !inTime) || members[w.peer.value].resume.Some?
         || !(members[w.peer.value].admissionSeq <= w.claim <= nextSeq) {
        wires := wires[s := w.(phase := Refused, down := w.down + [ResumeReject], closed := true)];
        return false;
      }
      var id := w.peer.value;
      MarkKeeps(cfg, State(), id, s);
      MarkMemberReconnecting(id);
      NumberOf();
      members := members[id := members[id].(resume := Some(Resume(s, w.claim, [])))];
      wires := wires[s := Write(w.(phase := Accepted, base := nextSeq), ResumeAccept(nextSeq))];
      return true;
    }

    lemma MayResumeIs(h: Host, w: Wire, inTime: bool)
      ensures MayResume(h, w, inTime) <==>
        !(w.peer.None? || h.closing || w.peer.value !in h.members || h.members[w.peer.value].role != Guest
          || (h.members[w.peer.value].status != Online && !inTime) || h.members[w.peer.value].resume.Some?
          || !(h.members[w.peer.value].admissionSeq <= w.claim <= |h.log|))
    {
    }

    lemma NumberOf()
      requires Numbering()
      ensures nextSeq == |replay.log|
    {
    }

    /** What the catch-up loop sends next: an event, a resync, or nothing more. */
    method NextOf(r: Resume) returns (events: Option<seq<Event>>)
      requires Numbering() && r.cursor < nextSeq
      ensures events == After(cfg, replay.log, r.cursor)
      ensures events.Some? ==> events.value != []
    {
      events := replay.AfterNumber(r.cursor);
      AfterIsLog(cfg, replay.log, r.cursor);
    }

    method SendNextEvent(id: Id, events: seq<Event>)
      requires id in members && members[id].resume.Some? && events != []
      modifies this`members, this`wires
      ensures State() == SendNext(old(State()), id, events) && members.Keys == old(members).Keys
    {
      var m := members[id];
      var r := m.resume.value;
      if r.stream in wires {
        wires := wires[r.stream := Write(wires[r.stream], RoomEvent(events[0]))];
      }
      members := members[id := m.(resume := Some(r.(cursor := events[0].number, rest := events[1..])))];
    }

    method SendResync(id: Id)
      requires id in members && members[id].resume.Some? && nextSeq == |replay.log|
      modifies this`members, this`wires
      ensures State() == Resynced(old(State()), id) && members.Keys == old(members).Keys
    {
      var m := members[id];
      var r := m.resume.value;
      if r.stream in wires {
        wires := wires[r.stream := Write(wires[r.stream], Resync(nextSeq, Faces(members)))];
      }
      members := members[id := m.(resume := Some(r.(cursor := nextSeq)))];
    }

    /** Nothing is left to send: the member is heard on the stream from here on. */
    method Activate(id: Id)
      requires Valid() && id in members && members[id].resume.Some?
      modifies this, replay
      ensures Valid() && State() == Activated(old(State()), id)
    {
      hide HostOk, Commit, Deduping;
      ActivateOk(cfg, State(), id);
      OnlineApart(cfg, State(), id);
      var m := members[id];
      members := members[id := m.(status := Online, stream := Some(m.resume.value.stream), resume := None)];
      CommitEvent(Body.State(id, Online));
      StillDeduping(Body.State(id, Online));
    }

    /** One turn of the catch-up loop, after a write settled. */
    method ContinueResume(id: Id, ok: bool)
      requires Valid()
      modifies this, replay
      ensures Valid() && State() == RoomHost.ContinueResume(old(State()), cfg, id, ok)
    {
      hide HostOk, Deduping, Commit, SendNext, AbortResume, Resynced, Activated, RoomHost.ContinueResume, After,
           GroupReplayBuffer.Valid;
      ContinueResumeOk(cfg, State(), id, ok);
      ContinueIs(State(), cfg, id, ok);
      if id !in members || members[id].resume.None? {
        return;
      }
      var r := members[id].resume.value;
      if !ok || closing || r.stream !in wires || wires[r.stream].closed {
        AbortIs(State(), id);
        AbortResumeAttempt(id);
      } else if r.rest != [] {
        SendNextEvent(id, r.rest);
      } else if r.cursor < nextSeq {
        var events := NextOf(r);
        if events.Some? {
          SendNextEvent(id, events.value);
        } else {
          SendResync(id);
        }
      } else {
        Activate(id);
      }
    }
  }

  /** Nothing changed since the approval began that would forbid the admission. */
  predicate Admissible(h: Host, p: Pending) {
    p.state.Committing? && !h.closing && !h.roomPaused && !h.joinsPaused && h.generation == p.state.generation
  }

  /** A text's sender was in the roster, and stays there until it leaves. */
  lemma {:induction false} NeverWrote(cfg: Config, owner: Id, log: seq<Event>, id: Id)
    requires LogOk(cfg, owner, log) && id !in RosterOf(owner, log) && !HasLeft(log, id)
    ensures Written(log, id) == []
  {
    if log != [] {
      var front, last := log[..|log| - 1], log[|log| - 1];
      assert forall i :: 0 <= i < |front| ==> front[i] == log[i] && front[..i] == log[..i];
      assert last.body != Left(id);
      NeverWrote(cfg, owner, front, id);
    }
  }

  lemma CommittingNeverWrote(cfg: Config, h: Host, requestId: Id)
    requires HostOk(cfg, h) && requestId in h.pending && h.pending[requestId].state.Committing?
    ensures h.pending[requestId].state.memberId !in h.members
      && Written(h.log, h.pending[requestId].state.memberId) == []
  {
    hide LogOk, HasLeft, VoicesOk, WiresOk, Written;
    var id := h.pending[requestId].state.memberId;
    assert id !in Faces(h.members);
    NeverWrote(cfg, h.owner, h.log, id);
  }

  function Detached(h: Host, id: Id): Host
    requires id in h.members
  {
    var m := h.members[id];
    var shut := if m.stream.Some? then Shut(h, m.stream.value) else h;
    shut.(members := h.members[id := m.(status := Reconnecting, stream := None)])
  }

  lemma WrittenBy(log: seq<Event>, event: Event)
    requires event.body.Text?
    ensures forall x :: (Written(log + [event], x)
      == Written(log, x) + if x == event.body.senderId then [Entry(event.body.clientEventId, event.number)] else [])
  {
    forall x
      ensures Written(log + [event], x)
        == Written(log, x) + if x == event.body.senderId then [Entry(event.body.clientEventId, event.number)] else []
    {
      WrittenGrows(log, event, x);
    }
  }

  lemma OwnerIn(cfg: Config, h: Host)
    requires HostOk(cfg, h)
    ensures h.owner in h.members
  {
  }

  /** The committed event if it can still be replayed, else a rejection. */
  ghost function DuplicateAnswered(h: Host, cfg: Config, s: Id, prior: nat, requestId: Id): Host {
    if 1 <= prior <= |h.log| && After(cfg, h.log, prior - 1).Some?
    then Send(h, s, RoomEvent(h.log[prior - 1]))
    else Send(h, s, ActionRejected(requestId))
  }

  lemma SubmitIs(h: Host, cfg: Config, id: Id, s: Id, submission: Submission)
    ensures SubmitText(h, cfg, id, s, submission)
      == if h.roomPaused then Send(h, s, ActionRejected(submission.clientEventId))
         else if !ValidText(cfg, submission.text) then MarkReconnecting(h, id)
         else match Answer(Written(h.log, id), cfg.dedupeMaxItems, submission.clientEventId)
           case Some(prior) => DuplicateAnswered(h, cfg, s, prior, submission.clientEventId)
           case None => Commit(h, Text(id, submission.clientEventId, submission.text))
  {
  }

  lemma SendShape(h: Host, s: Id, f: Down)
    ensures Send(h, s, f) == h.(wires := Send(h, s, f).wires)
  {
  }

  function Rejected(wires: map<Id, Wire>, entry: Pending, notify: bool): map<Id, Wire> {
    if entry.stream !in wires then wires
    else
      var w := wires[entry.stream];
      wires[entry.stream := (if notify && !entry.state.Committing? then Write(w, JoinReject) else w).(closed := true)]
  }

  lemma RejectIs(h: Host, requestId: Id)
    requires requestId in h.pending ==> !h.pending[requestId].state.Committing?
    ensures RejectPending(h, requestId)
      == if requestId !in h.pending then h
         else h.(pending := h.pending - {requestId}, wires := Rejected(h.wires, h.pending[requestId], true))
  {
    hide Write;
  }

  lemma NoneShut(wires: map<Id, Wire>, pending: map<Id, Pending>)
    ensures ShutStreams(wires, pending, {}) == wires
  {
  }

  lemma OneMoreShut(wires: map<Id, Wire>, pending: map<Id, Pending>, cut: set<Id>, r: Id)
    requires r in pending
    ensures ShutStreams(wires, pending, cut + {r}) == Rejected(ShutStreams(wires, pending, cut), pending[r], false)
  {
    forall s
      ensures StreamOf(pending, cut + {r}, s) <==> StreamOf(pending, cut, s) || pending[r].stream == s
    {
      if pending[r].stream == s {
        assert r in cut + {r};
      }
    }
  }

  ghost predicate StreamsApart(pending: map<Id, Pending>) {
    forall r, q :: r in pending && q in pending && r != q ==> pending[r].stream != pending[q].stream
  }

  lemma OwnStreams(cfg: Config, h: Host)
    requires HostOk(cfg, h)
    ensures StreamsApart(h.pending)
  {
  }

  /** The streams once the requests in `done` were rejected for the sake of a new token. */
  function Rotated(wires: map<Id, Wire>, pending: map<Id, Pending>, done: set<Id>): map<Id, Wire> {
    map s | s in wires ::
      if StreamOf(pending, NotCommitting(pending) * done, s) then Write(wires[s], JoinReject).(closed := true)
      else if StreamOf(pending, done, s) then wires[s].(closed := true)
      else wires[s]
  }

  lemma NoneRotated(wires: map<Id, Wire>, pending: map<Id, Pending>)
    ensures Rotated(wires, pending, {}) == wires
  {
  }

  lemma OneMoreRotated(wires: map<Id, Wire>, pending: map<Id, Pending>, done: set<Id>, r: Id)
    requires r in pending && r !in done && StreamsApart(pending)
    ensures Rotated(wires, pending, done + {r}) == Rejected(Rotated(wires, pending, done), pending[r], true)
  {
    forall s
      ensures StreamOf(pending, done + {r}, s) <==> StreamOf(pending, done, s) || pending[r].stream == s
      ensures StreamOf(pending, NotCommitting(pending) * (done + {r}), s)
        <==> StreamOf(pending, NotCommitting(pending) * done, s)
             || (pending[r].stream == s && !pending[r].state.Committing?)
      ensures pending[r].stream == s ==>
        !StreamOf(pending, done, s) && !StreamOf(pending, NotCommitting(pending) * done, s)
    {
      if pending[r].stream == s {
        assert r in done + {r};
        assert !pending[r].state.Committing? ==> r in NotCommitting(pending) * (done + {r});
      }
    }
  }

  lemma AllRotated(h: Host, token: Id)
    ensures RotateInvitation(h, token)
      == h.(generation := h.generation + 1, joinToken := token, pending := map[],
            wires := Rotated(h.wires, h.pending, h.pending.Keys))
  {
    assert NotCommitting(h.pending) * h.pending.Keys == NotCommitting(h.pending);
  }

  lemma ResumeIs(h: Host, s: Id, inTime: bool)
    ensures AcceptResume(h, s, inTime)
      == if s !in h.wires || h.wires[s].phase != Fresh then h
         else
           var w := h.wires[s];
           if w.peer.None? || !Resumable(h, w.peer.value, w.claim, inTime)
           then h.(wires := h.wires[s := w.(phase := Refused, down := w.down + [ResumeReject], closed := true)])
           else
             var k := MarkReconnecting(h, w.peer.value);
             k.(members := k.members[w.peer.value := k.members[w.peer.value].(resume := Some(Resume(s, w.claim, [])))],
                wires := k.wires[s := Write(w.(phase := Accepted, base := |k.log|), ResumeAccept(|k.log|))])
  {
  }

  /** The member about to be admitted, seated but not announced. */
  function Taken(h: Host, requestId: Id): Host
    requires requestId in h.pending && h.pending[requestId].state.Committing?
  {
    var p := h.pending[requestId];
    h.(members := h.members[p.state.memberId := Member(Guest, Online, Some(p.stream), p.state.admissionSeq, None)],
       pending := h.pending - {requestId})
  }

  lemma CommitIs(h: Host, requestId: Id, written: bool)
    ensures ApproveCommit(h, requestId, written)
      == if requestId !in h.pending || !h.pending[requestId].state.Committing? then h
         else
           var p := h.pending[requestId];
           if !written || h.closing || h.roomPaused || h.joinsPaused || h.generation != p.state.generation
           then h.(pending := h.pending - {requestId},
                   wires := Rejected(h.wires, p.(state := Approving(p.state.generation)), true))
           else Commit(Taken(h, requestId), Joined(p.state.memberId, Face(Guest, Online)))
  {
    hide Commit, Write;
  }

  lemma SeatApart(cfg: Config, h: Host, requestId: Id)
    requires HostOk(cfg, h) && requestId in h.pending && h.pending[requestId].state.Committing?
    ensures VoicesApart(Taken(h, requestId).members)
    ensures forall event: Event :: event.body.Joined? ==>
      Written(h.log + [event], h.pending[requestId].state.memberId) == Written(h.log,
        h.pending[requestId].state.memberId)
  {
    var p := h.pending[requestId];
    var members := Taken(h, requestId).members;
    forall a, b, s | a in members && b in members && Voice(members[a], s) && Voice(members[b], s)
      ensures a == b
    {
      assert a != p.state.memberId ==> MemberOk(h, a, h.members[a]);
      assert b != p.state.memberId ==> MemberOk(h, b, h.members[b]);
    }
    forall event: Event | event.body.Joined?
      ensures Written(h.log + [event], p.state.memberId) == Written(h.log, p.state.memberId)
    {
      WrittenGrows(h.log, event, p.state.memberId);
    }
  }

  function Resynced(h: Host, id: Id): Host
    requires id in h.members && h.members[id].resume.Some?
  {
    var m := h.members[id];
    var r := m.resume.value;
    Send(h, r.stream, Resync(|h.log|, Faces(h.members))).(
      members := h.members[id := m.(resume := Some(r.(cursor := |h.log|)))])
  }

  function Activated(h: Host, id: Id): Host
    requires id in h.members && h.members[id].resume.Some?
  {
    var m := h.members[id];
    Commit(h.(members := h.members[id := m.(status := Online, stream := Some(m.resume.value.stream), resume := None)]),
           State(id, Online))
  }

  lemma ContinueIs(h: Host, cfg: Config, id: Id, ok: bool)
    ensures ContinueResume(h, cfg, id, ok)
      == if id !in h.members || h.members[id].resume.None? then h
         else
           var r := h.members[id].resume.value;
           if !ok || h.closing || r.stream !in h.wires || h.wires[r.stream].closed then AbortResume(h, id)
           else if r.rest != [] then SendNext(h, id, r.rest)
           else if r.cursor < |h.log| then
             match After(cfg, h.log, r.cursor)
             case None => Resynced(h, id)
             case Some(events) => if events == [] then h else SendNext(h, id, events)
           else Activated(h, id)
  {
  }

  lemma OnlineApart(cfg: Config, h: Host, id: Id)
    requires HostOk(cfg, h) && id in h.members && h.members[id].resume.Some?
    ensures var m := h.members[id];
            VoicesApart(h.members[id := m.(status := Online, stream := Some(m.resume.value.stream), resume := None)])
  {
    var m := h.members[id];
    var members := h.members[id := m.(status := Online, stream := Some(m.resume.value.stream), resume := None)];
    assert MemberOk(h, id, m);
    forall a, b, s | a in members && b in members && Voice(members[a], s) && Voice(members[b], s)
      ensures a == b
    {
      assert MemberOk(h, a, h.members[a]) && MemberOk(h, b, h.members[b]);
    }
  }

  /** Member `id` is out, its streams are shut, and its leaving is not yet announced. */
  function Gone(h: Host, id: Id, notify: bool): Host
    requires id in h.members
  {
    var m := h.members[id];
    var aborted := AbortResume(h, id);
    var told := if m.stream.None? then aborted
      else Shut(if notify then Send(aborted, m.stream.value, Terminal) else aborted, m.stream.value);
    told.(members := h.members - {id})
  }

  lemma GoneIs(h: Host, id: Id, notify: bool)
    requires id in h.members
    ensures var m := h.members[id];
            var aborted := GivenUp(h.wires, m.resume);
            var wires := if m.stream.None? || m.stream.value !in aborted then aborted
              else
                var w := aborted[m.stream.value];
                aborted[m.stream.value := (if notify then Write(w, Terminal) else w).(closed := true)];
            Gone(h, id, notify) == h.(members := h.members - {id}, wires := wires)
  {
    AbortIs(h, id);
    hide AbortResume, GivenUp;
  }

  lemma RemoveIs(h: Host, id: Id, notify: bool)
    ensures RemoveMember(h, id, notify)
      == if h.closing || id == h.owner || id !in h.members then h else Commit(Gone(h, id, notify), Left(id))
  {
  }

  lemma GoneApart(h: Host, id: Id, notify: bool)
    requires id in h.members && VoicesApart(h.members)
    ensures var k := Gone(h, id, notify);
            k.log == h.log && k.members == h.members - {id} && VoicesApart(k.members)
  {
  }

  lemma MarkIs(h: Host, id: Id)
    ensures MarkReconnecting(h, id)
      == if h.closing || id !in h.members || h.members[id].role != Guest || h.members[id].status == Reconnecting then h
         else Commit(Detached(h, id), State(id, Reconnecting))
  {
  }

  lemma DetachedApart(h: Host, id: Id)
    requires id in h.members
    requires VoicesApart(h.members)
    ensures var k := Detached(h, id);
            && k.log == h.log && k.members.Keys == h.members.Keys
            && VoicesApart(k.members)
  {
  }

  /** No two members are heard on one stream. */
  lemma Apart(cfg: Config, h: Host)
    requires HostOk(cfg, h)
    ensures VoicesApart(h.members)
  {
    forall a, b, s | a in h.members && b in h.members && Voice(h.members[a], s) && Voice(h.members[b], s)
      ensures a == b
    {
      assert MemberOk(h, a, h.members[a]) && MemberOk(h, b, h.members[b]);
    }
  }

  lemma VerifiedIs(h: Host, requestId: Id, verified: bool, expired: bool, memberId: Id)
    requires memberId !in h.issued
    ensures ApproveVerified(h, requestId, verified, expired, memberId)
      == if requestId !in h.pending || !h.pending[requestId].state.Approving? then h
         else
           var p := h.pending[requestId];
           if !verified || expired || h.closing || h.roomPaused || h.joinsPaused || h.generation != p.state.generation
              || p.stream !in h.wires
           then h.(pending := h.pending - {requestId}, wires := Rejected(h.wires, p, true))
           else
             var accept := JoinAccept(memberId, |h.log|, Faces(h.members)[memberId := Face(Guest, Online)]);
             h.(issued := h.issued + {memberId},
                pending := h.pending[requestId := p.(state := Committing(p.state.generation, memberId, |h.log|))],
                wires := h.wires[p.stream := Write(h.wires[p.stream].(peer := Some(memberId)), accept)])
  {
    if requestId in h.pending && h.pending[requestId].state.Approving? {
      RejectIs(h, requestId);
    }
    hide RejectPending, Rejected, Write;
  }

  lemma ReadingOk(cfg: Config, h: Host, s: Id)
    requires HostOk(cfg, h) && s in h.wires
    ensures HostOk(cfg, h.(wires := h.wires[s := h.wires[s].(upRead := h.wires[s].upRead + 1)]))
  {
    CountedOk(cfg, h, s);
  }

  lemma VoiceStream(m: Member, s: Id)
    requires Voice(m, s)
    ensures m.stream == Some(s) && Voice(m, m.stream.value)
  {
  }

  ghost function VoiceHandled(h: Host, cfg: Config, id: Id, s: Id, frame: Up): Host {
    match frame
    case TextSubmit(submission) => SubmitText(h, cfg, id, s, submission)
    case Leave => RemoveMember(h, id, false)
  }

  /** A stream carries at most one request, so it is that one which ends. */
  lemma ReadIs(cfg: Config, h: Host, s: Id)
    requires HostOk(cfg, h)
    ensures !Readable(h, s) ==> ReadUp(h, cfg, s) == h
    ensures Readable(h, s) ==>
      var w := h.wires[s];
      var read := h.(wires := h.wires[s := w.(upRead := w.upRead + 1)]);
      if w.peer.Some? && w.peer.value in h.members && Voice(h.members[w.peer.value], s)
      then ReadUp(h, cfg, s) == if h.closing then read else VoiceHandled(read, cfg, w.peer.value, s, w.up[w.upRead])
      else
        && (PendingOn(h, s) == {} ==> ReadUp(h, cfg, s) == read)
        && (forall r :: r in PendingOn(h, s) ==> ReadUp(h, cfg, s) == DropPending(read, r))
  {
    hide DropPending, SubmitText, RemoveMember, Voice;
    if Readable(h, s) && PendingOn(h, s) != {} {
      var w := h.wires[s];
      var read := h.(wires := h.wires[s := w.(upRead := w.upRead + 1)]);
      var q :| q in PendingOn(h, s) && ReadUp(h, cfg, s) == DropPending(read, q);
      assert forall r :: r in PendingOn(h, s) ==> r == q;
    }
  }

  function GivenUp(wires: map<Id, Wire>, resume: Option<Resume>): map<Id, Wire> {
    if resume.Some? && resume.value.stream in wires
    then wires[resume.value.stream := wires[resume.value.stream].(closed := true)] else wires
  }

  lemma AbortIs(h: Host, id: Id)
    requires id in h.members
    ensures var m := h.members[id];
            AbortResume(h, id)
              == h.(members := h.members[id := m.(resume := None)], wires := GivenUp(h.wires, m.resume))
  {
    if h.members[id].resume.None? {
      assert h.members[id := h.members[id]] == h.members;
    }
  }

  predicate ResumingAmong(members: map<Id, Member>, ids: set<Id>, s: Id) {
    exists id :: id in ids && id in members && members[id].resume.Some? && members[id].resume.value.stream == s
  }

  /** The streams once the resumes of the members among `ids` were given up. */
  function Aborted(wires: map<Id, Wire>, members: map<Id, Member>, ids: set<Id>): map<Id, Wire> {
    map s | s in wires :: if ResumingAmong(members, ids, s) then wires[s].(closed := true) else wires[s]
  }

  lemma NoneAborted(wires: map<Id, Wire>, members: map<Id, Member>)
    ensures Aborted(wires, members, {}) == wires
  {
  }

  lemma OneMoreAborted(wires: map<Id, Wire>, members: map<Id, Member>, done: set<Id>, id: Id)
    requires id in members
    ensures Aborted(wires, members, done + {id}) == GivenUp(Aborted(wires, members, done), members[id].resume)
  {
    forall s
      ensures ResumingAmong(members, done + {id}, s) <==>
        ResumingAmong(members, done, s) || (members[id].resume.Some? && members[id].resume.value.stream == s)
    {
      if members[id].resume.Some? && members[id].resume.value.stream == s {
        assert id in done + {id};
      }
    }
  }

  lemma AlreadyClosing(h: Host)
    requires h.closing
    ensures CloseRoom(h) == h
  {
  }

  function NoResumes(members: map<Id, Member>): map<Id, Member> {
    map id | id in members :: members[id].(resume := None)
  }

  lemma NoResumesApart(members: map<Id, Member>)
    requires VoicesApart(members)
    ensures VoicesApart(NoResumes(members)) && NoResumes(members).Keys == members.Keys
  {
    var after := NoResumes(members);
    forall a, b, s | a in after && b in after && Voice(after[a], s) && Voice(after[b], s)
      ensures a == b
    {
      assert Voice(members[a], s) && Voice(members[b], s);
    }
  }

  /** Closing, in the order in which it is done. */
  lemma ClosingIs(cfg: Config, h: Host)
    requires HostOk(cfg, h) && !h.closing
    ensures var cancelled := CancelPendingApprovals(
              h.(closing := true, roomPaused := true, joinsPaused := true, generation := h.generation + 1), true);
            var members := NoResumes(h.members);
            CloseRoom(h)
              == cancelled.(members := members,
                            wires := Heard(Aborted(cancelled.wires, h.members, h.members.Keys), members, members.Keys,
                                           Terminal))
  {
    hide HostOk, CancelPendingApprovals, ResumingAmong, ListeningAmong, Resuming, Listening, Write;
    NoVoiceResumes(cfg, h);
    forall s
      ensures ResumingAmong(h.members, h.members.Keys, s) <==> Resuming(h.members, s)
      ensures var members := NoResumes(h.members);
              ListeningAmong(members, members.Keys, s) <==> Listening(h.members, s)
    {
      SameVoices(h.members, s);
    }
  }

  lemma SameVoices(all: map<Id, Member>, s: Id)
    ensures ResumingAmong(all, all.Keys, s) <==> Resuming(all, s)
    ensures var members := NoResumes(all);
            ListeningAmong(members, members.Keys, s) <==> Listening(all, s)
  {
    var members := NoResumes(all);
    assert forall id :: id in all ==> (Voice(members[id], s) <==> Voice(all[id], s));
    if Listening(all, s) {
      var id :| id in all && Voice(all[id], s);
      assert id in members.Keys && Voice(members[id], s);
    }
    if ListeningAmong(members, members.Keys, s) {
      var id :| id in members.Keys && id in members && Voice(members[id], s);
      assert Voice(all[id], s);
    }
  }

  lemma NoVoiceResumes(cfg: Config, h: Host)
    requires HostOk(cfg, h)
    ensures forall s :: Resuming(h.members, s) ==> !Listening(h.members, s)
  {
    forall s
      ensures Resuming(h.members, s) ==> !Listening(h.members, s)
    {
      NotListening(h, s);
    }
  }
}
