/**
 * The owner's side of a room. Each function is one synchronous segment of the
 * owner's code, from one `await` to the next; a segment that the source leaves
 * early (or with an exception) returns the state it leaves behind.
 */
module RoomHost {
  import opened Basics
  import opened RoomTypes
  import opened ReplayBuffer
  import opened EventDeduper

  /** A resume in progress: what it has sent so far, and the rest of the batch it is sending. */
  datatype Resume = Resume(stream: Id, cursor: nat, rest: seq<Event>)

  datatype Member = Member(
    role: Role,
    status: Status,
    stream: Option<Id>,
    admissionSeq: nat,
    resume: Option<Resume>)

  datatype PendingState =
    | Waiting
    | Approving(generation: nat)
    | Committing(generation: nat, memberId: Id, admissionSeq: nat)

  datatype Pending = Pending(stream: Id, token: Id, state: PendingState)

  /** How the owner treated the first frame of a stream. */
  datatype Phase = Fresh | Refused | Accepted

  /**
   * One control stream. `down` and `up` are everything ever written on it;
   * `closed` says the owner's writer accepts no more. `peer` is the member the
   * stream is authenticated for, `claim` the sequence number a resume asked
   * to continue from, and `base` the log length when that resume was accepted.
   */
  datatype Wire = Wire(
    peer: Option<Id>,
    claim: nat,
    phase: Phase,
    base: nat,
    down: seq<Down>,
    closed: bool,
    up: seq<Up>,
    upRead: nat)

  datatype Host = Host(
    owner: Id,
    log: seq<Event>,
    members: map<Id, Member>,
    pending: map<Id, Pending>,
    issued: set<Id>,
    roomPaused: bool,
    joinsPaused: bool,
    generation: nat,
    joinToken: Id,
    closing: bool,
    wires: map<Id, Wire>)

  datatype Refusal = Invalid | InviteInvalid | Paused | Full | Busy | Duplicate

  // ---- Views ----

  function Faces(members: map<Id, Member>): Roster {
    map id | id in members :: Face(members[id].role, members[id].status)
  }

  predicate Voice(m: Member, s: Id) {
    m.role == Guest && m.status == Online && m.stream == Some(s)
  }

  /** The streams that a broadcast reaches. */
  predicate Listening(members: map<Id, Member>, s: Id) {
    exists id :: id in members && Voice(members[id], s)
  }

  function Reserved(pending: map<Id, Pending>): set<Id> {
    set r | r in pending && !pending[r].state.Waiting?
  }

  /** The deduplication history of one member is the part of the log it wrote. */
  function Written(log: seq<Event>, member: Id): seq<Entry> {
    if log == [] then []
    else
      var event := log[|log| - 1];
      Written(log[..|log| - 1], member)
        + (if event.body.Text? && event.body.senderId == member
           then [Entry(event.body.clientEventId, event.number)] else [])
  }

  lemma WrittenGrows(log: seq<Event>, event: Event, m: Id)
    ensures Written(log + [event], m) == Written(log, m)
      + (if event.body.Text? && event.body.senderId == m then [Entry(event.body.clientEventId, event.number)] else [])
  {
    assert (log + [event])[..|log|] == log;
  }

  // ---- Writing ----

  function Write(w: Wire, frame: Down): Wire {
    if w.closed then w else w.(down := w.down + [frame])
  }

  function Send(h: Host, s: Id, frame: Down): Host {
    if s in h.wires then h.(wires := h.wires[s := Write(h.wires[s], frame)]) else h
  }

  function Shut(h: Host, s: Id): Host {
    if s in h.wires then h.(wires := h.wires[s := h.wires[s].(closed := true)]) else h
  }

  /** Numbers an event, appends it, and writes it to every online guest. */
  function Commit(h: Host, body: Body): Host {
    var event := Event(|h.log| + 1, body);
    h.(
      log := h.log + [event],
      wires := map s | s in h.wires ::
        if Listening(h.members, s) then Write(h.wires[s], RoomEvent(event)) else h.wires[s])
  }

  // ---- Admission ----

  function JoinRefusal(h: Host, cfg: Config, requestId: Id, token: Id, wellFormed: bool): Option<Refusal> {
    if !wellFormed || token != h.joinToken then Some(if token == h.joinToken then Invalid else InviteInvalid)
    else if h.roomPaused || h.joinsPaused then Some(Paused)
    else if |h.members| >= cfg.maxMembers then Some(Full)
    else if |h.pending| >= cfg.maxPendingJoins then Some(Busy)
    else if requestId in h.pending then Some(Duplicate)
    else None
  }

  /** A new stream whose first frame is a join request. */
  function AcceptJoinRequest(h: Host, cfg: Config, s: Id, requestId: Id, token: Id, wellFormed: bool): Host {
    if s in h.wires then h
    else if JoinRefusal(h, cfg, requestId, token, wellFormed).Some? then
      h.(wires := h.wires[s := Wire(None, 0, Refused, 0, [JoinReject], true, [], 0)])
    else
      h.(wires := h.wires[s := Wire(None, 0, Accepted, |h.log|, [], false, [], 0)],
         pending := h.pending[requestId := Pending(s, token, Waiting)])
  }

  /** The stream of a pending request ended, or carried a frame it may not carry yet. */
  function DropPending(h: Host, requestId: Id): Host {
    if requestId !in h.pending then h
    else Shut(h, h.pending[requestId].stream).(pending := h.pending - {requestId})
  }

  function RejectPending(h: Host, requestId: Id): Host {
    if requestId !in h.pending then h
    else
      var s := h.pending[requestId].stream;
      Shut(Send(h, s, JoinReject), s).(pending := h.pending - {requestId})
  }

  /** The owner's decision, the expiry timer, or JOIN_CANCEL: not once admission is committing. */
  function RejectByChoice(h: Host, requestId: Id): Host {
    if requestId in h.pending && h.pending[requestId].state.Committing? then h
    else RejectPending(h, requestId)
  }

  function OccupiedSeats(h: Host): nat {
    |h.members| + |Reserved(h.pending)|
  }

  function ApproveBegin(h: Host, cfg: Config, requestId: Id, expired: bool): Host {
    if requestId !in h.pending || !h.pending[requestId].state.Waiting? then h
    else if expired || h.roomPaused || h.joinsPaused then RejectPending(h, requestId)
    else
      var taken := h.(pending := h.pending[requestId := h.pending[requestId].(state := Approving(h.generation))]);
      if OccupiedSeats(taken) > cfg.maxMembers then RejectPending(h, requestId) else taken
  }

  /** The address has been checked; start committing the admission of a fresh member id. */
  function ApproveVerified(h: Host, requestId: Id, verified: bool, expired: bool, memberId: Id): Host {
    if requestId !in h.pending || !h.pending[requestId].state.Approving? || memberId in h.issued then h
    else
      var p := h.pending[requestId];
      if !verified || expired || h.closing || h.roomPaused || h.joinsPaused || h.generation != p.state.generation
         || p.stream !in h.wires
      then RejectPending(h, requestId)
      else
        var accept := JoinAccept(memberId, |h.log|, Faces(h.members)[memberId := Face(Guest, Online)]);
        h.(issued := h.issued + {memberId},
           pending := h.pending[requestId := p.(state := Committing(p.state.generation, memberId, |h.log|))],
           wires := h.wires[p.stream := Write(h.wires[p.stream].(peer := Some(memberId)), accept)])
  }

  /** The acceptance frame has been written (or has not); this is where a guest is admitted. */
  function ApproveCommit(h: Host, requestId: Id, written: bool): Host {
    if requestId !in h.pending || !h.pending[requestId].state.Committing? then h
    else
      var p := h.pending[requestId];
      if !written || h.closing || h.roomPaused || h.joinsPaused || h.generation != p.state.generation
      then RejectPending(h, requestId)
      else
        Commit(h.(members := h.members[p.state.memberId := Member(Guest, Online, Some(p.stream),
                                                                  p.state.admissionSeq, None)],
                  pending := h.pending - {requestId}),
               Joined(p.state.memberId, Face(Guest, Online)))
  }

  function Cancelled(pending: map<Id, Pending>, everyone: bool): set<Id> {
    set r | r in pending && (everyone || !pending[r].state.Waiting?)
  }

  predicate StreamOf(pending: map<Id, Pending>, requests: set<Id>, s: Id) {
    exists r :: r in requests && r in pending && pending[r].stream == s
  }

  function ShutStreams(wires: map<Id, Wire>, pending: map<Id, Pending>, requests: set<Id>): map<Id, Wire> {
    map s | s in wires :: if StreamOf(pending, requests, s) then wires[s].(closed := true) else wires[s]
  }

  /** Revokes requests without telling them. */
  function CancelPendingApprovals(h: Host, everyone: bool): Host {
    var requests := Cancelled(h.pending, everyone);
    h.(pending := h.pending - requests, wires := ShutStreams(h.wires, h.pending, requests))
  }

  function SetJoinsPaused(h: Host, paused: bool): Host {
    var flipped := h.(joinsPaused := paused, generation := h.generation + (if paused != h.joinsPaused then 1 else 0));
    if paused then CancelPendingApprovals(flipped, false) else flipped
  }

  function SetRoomPaused(h: Host, paused: bool): Host {
    var flipped := h.(roomPaused := paused, generation := h.generation + (if paused != h.roomPaused then 1 else 0));
    if paused then CancelPendingApprovals(flipped, false) else flipped
  }

  function NotCommitting(pending: map<Id, Pending>): set<Id> {
    set r | r in pending && !pending[r].state.Committing?
  }

  /** A new join token; every request made under the old one is revoked. */
  function RotateInvitation(h: Host, token: Id): Host {
    var rejected := map s | s in h.wires ::
      if StreamOf(h.pending, NotCommitting(h.pending), s)
      then Write(h.wires[s], JoinReject).(closed := true)
      else if StreamOf(h.pending, h.pending.Keys, s) then h.wires[s].(closed := true)
      else h.wires[s];
    h.(generation := h.generation + 1, joinToken := token, pending := map[], wires := rejected)
  }

  // ---- Members ----

  function MarkReconnecting(h: Host, id: Id): Host {
    if h.closing || id !in h.members || h.members[id].role != Guest || h.members[id].status == Reconnecting then h
    else
      var m := h.members[id];
      var shut := if m.stream.Some? then Shut(h, m.stream.value) else h;
      Commit(shut.(members := h.members[id := m.(status := Reconnecting, stream := None)]), State(id, Reconnecting))
  }

  function AbortResume(h: Host, id: Id): Host
    requires id in h.members
  {
    var m := h.members[id];
    if m.resume.None? then h
    else Shut(h, m.resume.value.stream).(members := h.members[id := m.(resume := None)])
  }

  function RemoveMember(h: Host, id: Id, notify: bool): Host {
    if h.closing || id == h.owner || id !in h.members then h
    else
      var m := h.members[id];
      var aborted := AbortResume(h, id);
      var told := if m.stream.None? then aborted
        else Shut(if notify then Send(aborted, m.stream.value, Terminal) else aborted, m.stream.value);
      Commit(told.(members := h.members - {id}), Left(id))
  }

  /** May a stream that claims to continue `id` from `claim` be resumed? */
  predicate Resumable(h: Host, id: Id, claim: nat, inTime: bool) {
    && !h.closing
    && id in h.members
    && h.members[id].role == Guest
    && (h.members[id].status == Online || inTime)
    && h.members[id].resume.None?
    && h.members[id].admissionSeq <= claim <= |h.log|
  }

  /** The first frame of a new stream is a resume request. */
  function AcceptResume(h: Host, s: Id, inTime: bool): Host {
    if s !in h.wires || h.wires[s].phase != Fresh then h
    else
      var w := h.wires[s];
      if w.peer.None? || !Resumable(h, w.peer.value, w.claim, inTime) then
        h.(wires := h.wires[s := w.(phase := Refused, down := w.down + [ResumeReject], closed := true)])
      else
        var id := w.peer.value;
        var marked := MarkReconnecting(h, id);
        var member := marked.members[id].(resume := Some(Resume(s, w.claim, [])));
        var wire := Write(w.(phase := Accepted, base := |marked.log|), ResumeAccept(|marked.log|));
        marked.(members := marked.members[id := member], wires := marked.wires[s := wire])
  }

  /**
   * One turn of the catch-up loop after an awaited write. A write on a closed
   * stream fails, so a turn that goes on found the stream open.
   */
  ghost function ContinueResume(h: Host, cfg: Config, id: Id, ok: bool): Host {
    if id !in h.members || h.members[id].resume.None? then h
    else
      var m := h.members[id];
      var r := m.resume.value;
      if !ok || h.closing || r.stream !in h.wires || h.wires[r.stream].closed then AbortResume(h, id)
      else if r.rest != [] then SendNext(h, id, r.rest)
      else if r.cursor < |h.log| then
        match After(cfg, h.log, r.cursor)
        case None =>
          Send(h, r.stream, Resync(|h.log|, Faces(h.members))).(
            members := h.members[id := m.(resume := Some(r.(cursor := |h.log|)))])
        case Some(events) => if events == [] then h else SendNext(h, id, events)
      else
        Commit(h.(members := h.members[id := m.(status := Online, stream := Some(r.stream), resume := None)]),
               State(id, Online))
  }

  function SendNext(h: Host, id: Id, events: seq<Event>): Host
    requires id in h.members && h.members[id].resume.Some? && events != []
  {
    var m := h.members[id];
    var r := m.resume.value;
    Send(h, r.stream, RoomEvent(events[0])).(
      members := h.members[id := m.(resume := Some(r.(cursor := events[0].number, rest := events[1..])))])
  }

  // ---- Frames from guests ----

  /** A text from a member, or the answer to one that was already committed. */
  ghost function SubmitText(h: Host, cfg: Config, id: Id, s: Id, submission: Submission): Host {
    if h.roomPaused then Send(h, s, ActionRejected(submission.clientEventId))
    else if !ValidText(cfg, submission.text) then MarkReconnecting(h, id)
    else
      match Answer(Written(h.log, id), cfg.dedupeMaxItems, submission.clientEventId)
      case Some(prior) =>
        if 1 <= prior <= |h.log| && After(cfg, h.log, prior - 1).Some?
        then Send(h, s, RoomEvent(h.log[prior - 1]))
        else Send(h, s, ActionRejected(submission.clientEventId))
      case None => Commit(h, Text(id, submission.clientEventId, submission.text))
  }

  function PendingOn(h: Host, s: Id): set<Id> {
    set r | r in h.pending && h.pending[r].stream == s
  }

  /** A stream is read once its catch-up is over. */
  predicate Readable(h: Host, s: Id) {
    s in h.wires && h.wires[s].upRead < |h.wires[s].up| && !Resuming(h.members, s)
  }

  /** The owner reads the next frame of a stream; a detached stream is not acted on. */
  ghost function ReadUp(h: Host, cfg: Config, s: Id): Host {
    if !Readable(h, s) then h
    else
      var w := h.wires[s];
      var read := h.(wires := h.wires[s := w.(upRead := w.upRead + 1)]);
      if w.peer.Some? && w.peer.value in h.members && Voice(h.members[w.peer.value], s) then
        if h.closing then read
        else
          match w.up[w.upRead]
          case TextSubmit(submission) => SubmitText(read, cfg, w.peer.value, s, submission)
          case Leave => RemoveMember(read, w.peer.value, false)
      else if PendingOn(h, s) != {} then
        var r :| r in PendingOn(h, s);
        DropPending(read, r)
      else read
  }

  /** The owner's own text. */
  ghost function OwnerText(h: Host, cfg: Config, submission: Submission): Host {
    if h.closing || h.roomPaused || !ValidText(cfg, submission.text)
       || Answer(Written(h.log, h.owner), cfg.dedupeMaxItems, submission.clientEventId).Some?
    then h
    else Commit(h, Text(h.owner, submission.clientEventId, submission.text))
  }

  // ---- Closing ----

  function CloseRoom(h: Host): Host {
    if h.closing then h
    else
      var cancelled := CancelPendingApprovals(
        h.(closing := true, roomPaused := true, joinsPaused := true, generation := h.generation + 1), true);
      cancelled.(
        members := map id | id in h.members :: h.members[id].(resume := None),
        wires := map s | s in cancelled.wires ::
          if Listening(h.members, s) then Write(cancelled.wires[s], Terminal)
          else if Resuming(h.members, s) then cancelled.wires[s].(closed := true)
          else cancelled.wires[s])
  }

  predicate Resuming(members: map<Id, Member>, s: Id) {
    exists id :: id in members && members[id].resume.Some? && members[id].resume.value.stream == s
  }

  function Opening(owner: Id, token: Id): Host {
    Host(owner, [], map[owner := Member(Owner, Online, None, 0, None)], map[], {owner},
         false, false, 0, token, false, map[])
  }
}
