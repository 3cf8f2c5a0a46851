/**
 * A whole room: the owner, its streams, and every guest that read its
 * acceptance frame. One step is one synchronous segment somewhere.
 */
module RoomSystem {
  import opened Basics
  import opened RoomTypes
  import opened RoomHost
  import opened RoomNode

  datatype Room = Room(host: Host, guests: map<Id, Node>)

  datatype Step =
    // the owner
    | HostJoinRequest(stream: Id, requestId: Id, token: Id, wellFormed: bool)
    | HostDropPending(requestId: Id)
    | HostReject(requestId: Id)
    | HostApproveBegin(requestId: Id, flag: bool)
    | HostApproveVerified(requestId: Id, verified: bool, flag: bool, memberId: Id)
    | HostApproveCommit(requestId: Id, flag: bool)
    | HostPauseJoins(flag: bool)
    | HostPauseRoom(flag: bool)
    | HostRotate(token: Id)
    | HostMarkReconnecting(memberId: Id)
    | HostRemove(memberId: Id, flag: bool)
    | HostAcceptResume(stream: Id, flag: bool)
    | HostContinueResume(memberId: Id, flag: bool)
    | HostRead(stream: Id)
    | HostText(submission: Submission)
    | HostWriterFails(stream: Id)
    | HostClose
    // a guest
    | GuestJoined(stream: Id)
    | GuestReads(memberId: Id)
    | GuestStreamEnds(memberId: Id)
    | GuestSendFails(memberId: Id)
    | GuestTexts(memberId: Id, submission: Submission)
    | GuestDials(memberId: Id, stream: Id)
    | GuestAnswered(memberId: Id)
    | GuestResubmits(memberId: Id)
    | GuestAdopts(memberId: Id)
    | GuestAbandons(memberId: Id)
    | GuestCloses(memberId: Id)

  ghost function HostStep(cfg: Config, h: Host, step: Step): Host {
    match step
    case HostJoinRequest(s, r, token, wellFormed) => AcceptJoinRequest(h, cfg, s, r, token, wellFormed)
    case HostDropPending(r) => DropPending(h, r)
    case HostReject(r) => RejectByChoice(h, r)
    case HostApproveBegin(r, expired) => ApproveBegin(h, cfg, r, expired)
    case HostApproveVerified(r, verified, expired, id) => ApproveVerified(h, r, verified, expired, id)
    case HostApproveCommit(r, written) => ApproveCommit(h, r, written)
    case HostPauseJoins(paused) => SetJoinsPaused(h, paused)
    case HostPauseRoom(paused) => SetRoomPaused(h, paused)
    case HostRotate(token) => RotateInvitation(h, token)
    case HostMarkReconnecting(id) => MarkReconnecting(h, id)
    case HostRemove(id, notify) => RemoveMember(h, id, notify)
    case HostAcceptResume(s, inTime) => AcceptResume(h, s, inTime)
    case HostContinueResume(id, ok) => ContinueResume(h, cfg, id, ok)
    case HostRead(s) => ReadUp(h, cfg, s)
    case HostText(submission) => OwnerText(h, cfg, submission)
    case HostWriterFails(s) => Shut(h, s)
    case HostClose => CloseRoom(h)
    case _ => h
  }

  function Post(h: Host, s: Id, frame: Up): Host {
    if s in h.wires then h.(wires := h.wires[s := h.wires[s].(up := h.wires[s].up + [frame])]) else h
  }

  /** What `memberId`'s guest does in a guest step. */
  function GuestStep(cfg: Config, h: Host, n: Node, step: Step): (Host, Node) {
    match step
    case GuestReads(_) =>
      if n.reading && n.stream in h.wires && n.delivered < |h.wires[n.stream].down|
      then (h, TakeFrame(cfg, n.(delivered := n.delivered + 1), h.wires[n.stream].down[n.delivered]))
      else (h, n)
    case GuestStreamEnds(_) => (h, EndReading(n))
    case GuestSendFails(_) => (h, n.(recovering := true))
    case GuestTexts(_, submission) =>
      if n.recovering || |n.pending| >= cfg.sendQueueMaxFrames || submission.clientEventId in n.used
         || !ValidText(cfg, submission.text)
      then (h, n)
      else (Post(h, n.stream, TextSubmit(submission)),
            n.(pending := n.pending + [submission], used := n.used + {submission.clientEventId}))
    case GuestDials(_, s) =>
      if !n.recovering || n.attempt.Some? || s in h.wires then (h, n)
      else (h.(wires := h.wires[s := Wire(Some(n.id), n.lastSeq, Fresh, 0, [], false, [], 0)]),
            n.(attempt := Some(Asked(s))))
    case GuestAnswered(_) =>
      if n.attempt.None? || !n.attempt.value.Asked? || n.attempt.value.stream !in h.wires then (h, n)
      else
        var w := h.wires[n.attempt.value.stream];
        if w.down == [] then (h, n)
        else if w.down[0].ResumeAccept? && w.down[0].currentSeq >= w.claim
        then (h, n.(attempt := Some(Resubmitting(n.attempt.value.stream, n.pending))))
        else (h, n.(attempt := None))
    case GuestResubmits(_) =>
      if n.attempt.None? || n.attempt.value.Asked? || n.attempt.value.rest == [] then (h, n)
      else
        var a := n.attempt.value;
        (Post(h, a.stream, TextSubmit(a.rest[0])), n.(attempt := Some(Resubmitting(a.stream, a.rest[1..]))))
    case GuestAdopts(_) =>
      if n.attempt.None? || n.attempt.value.Asked? || n.attempt.value.rest != [] then (h, n)
      else (h, n.(stream := n.attempt.value.stream, delivered := 1, reading := true, recovering := false,
                  attempt := None))
    case GuestAbandons(_) => (h, n.(attempt := None))
    case GuestCloses(_) =>
      (if n.recovering then h else Post(h, n.stream, Leave), n.(active := false, reading := false, attempt := None))
    case _ => (h, n)
  }

  /** A pending requester reads its acceptance frame. */
  function Joining(room: Room, s: Id): Room {
    if s !in room.host.wires || room.host.wires[s].down == [] || !room.host.wires[s].down[0].JoinAccept?
       || room.host.wires[s].down[0].memberId in room.guests
    then room
    else
      var accept := room.host.wires[s].down[0];
      var node := Node(room.host.owner, accept.memberId, true, accept.number, accept.roster, s, 1, true, false, None,
                       [],
                       accept.number, [], {});
      if room.host.owner in accept.roster && accept.memberId in accept.roster
      then room.(guests := room.guests[accept.memberId := node])
      else room
  }

  predicate ByGuest(step: Step) {
    step.GuestReads? || step.GuestStreamEnds? || step.GuestSendFails? || step.GuestTexts? || step.GuestDials?
    || step.GuestAnswered? || step.GuestResubmits? || step.GuestAdopts? || step.GuestAbandons? || step.GuestCloses?
  }

  ghost function Do(cfg: Config, room: Room, step: Step): Room {
    if step.GuestJoined? then Joining(room, step.stream)
    else if ByGuest(step) then
      if step.memberId in room.guests && room.guests[step.memberId].active then
        var (h, n) := GuestStep(cfg, room.host, room.guests[step.memberId], step);
        Room(h, room.guests[step.memberId := n])
      else room
    else room.(host := HostStep(cfg, room.host, step))
  }

  ghost predicate Run(cfg: Config, owner: Id, token: Id, rooms: seq<Room>, steps: seq<Step>) {
    && |rooms| == |steps| + 1
    && rooms[0] == Room(Opening(owner, token), map[])
    && forall i :: 0 <= i < |steps| ==> rooms[i + 1] == Do(cfg, rooms[i], steps[i])
  }
}
