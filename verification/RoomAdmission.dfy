/**
 * Admission under concurrency: seats are reserved before the first await, and
 * an admission commits only under the policy its approval began with.
 */
module RoomAdmission {
  import opened Basics
  import opened RoomTypes
  import opened ReplayBuffer
  import opened EventDeduper
  import opened RoomHost
  import opened RoomHostSafety
  import RoomNode
  import opened RoomSystem
  import opened RoomReplication

  ghost predicate SeatsOk(cfg: Config, h: Host) {
    && OccupiedSeats(h) <= cfg.maxMembers
    && |h.pending| <= cfg.maxPendingJoins
  }

  /** The join policy: who may come in, and with which token. */
  datatype Policy = Policy(roomPaused: bool, joinsPaused: bool, joinToken: Id)

  function PolicyOf(h: Host): Policy {
    Policy(h.roomPaused, h.joinsPaused, h.joinToken)
  }

  ghost predicate Reserves(h: Host, state: PendingState) {
    !state.Waiting? ==>
      state.generation <= h.generation && (state.generation == h.generation ==> !h.roomPaused && !h.joinsPaused)
  }

  /** Every request was made with the current token; a live approval saw no pause. */
  ghost predicate PolicyOk(h: Host) {
    forall r :: r in h.pending ==> h.pending[r].token == h.joinToken && Reserves(h, h.pending[r].state)
  }

  lemma SubsetCount(a: set<Id>, b: set<Id>)
    requires a <= b
    ensures |a| <= |b|
  {
    assert b == a + (b - a);
  }

  /** Nobody new, nothing newly reserved. */
  lemma SeatsShrink(cfg: Config, h: Host, k: Host)
    requires SeatsOk(cfg, h)
    requires k.members.Keys <= h.members.Keys && k.pending.Keys <= h.pending.Keys
    requires Reserved(k.pending) <= Reserved(h.pending)
    ensures SeatsOk(cfg, k)
  {
    SubsetCount(k.members.Keys, h.members.Keys);
    SubsetCount(k.pending.Keys, h.pending.Keys);
    SubsetCount(Reserved(k.pending), Reserved(h.pending));
    assert |k.members| == |k.members.Keys| && |h.members| == |h.members.Keys|;
    assert |k.pending| == |k.pending.Keys| && |h.pending| == |h.pending.Keys|;
  }

  lemma AcceptJoinSeats(cfg: Config, h: Host, s: Id, requestId: Id, token: Id, wellFormed: bool)
    requires SeatsOk(cfg, h)
    ensures SeatsOk(cfg, AcceptJoinRequest(h, cfg, s, requestId, token, wellFormed))
  {
    var k := AcceptJoinRequest(h, cfg, s, requestId, token, wellFormed);
    if k.pending != h.pending {
      assert k.pending.Keys == h.pending.Keys + {requestId};
      assert |k.pending.Keys| <= |h.pending.Keys| + 1;
      assert Reserved(k.pending) == Reserved(h.pending);
    }
  }

  lemma ApproveBeginSeats(cfg: Config, h: Host, requestId: Id, expired: bool)
    requires SeatsOk(cfg, h)
    ensures SeatsOk(cfg, ApproveBegin(h, cfg, requestId, expired))
  {
    var k := ApproveBegin(h, cfg, requestId, expired);
    if requestId in h.pending && requestId in k.pending && k != h {
      assert k.pending.Keys == h.pending.Keys;
      assert |k.pending| == |k.pending.Keys|;
    } else {
      SeatsShrink(cfg, h, k);
    }
  }

  /** Admission turns a reserved seat into a member. */
  lemma ApproveCommitSeats(cfg: Config, h: Host, requestId: Id, written: bool)
    requires HostOk(cfg, h) && SeatsOk(cfg, h)
    ensures SeatsOk(cfg, ApproveCommit(h, requestId, written))
  {
    hide HostOk, Listening;
    var k := ApproveCommit(h, requestId, written);
    if requestId in h.pending && h.pending[requestId].state.Committing? {
      CommittingFresh(cfg, h, requestId);
      if k.pending == h.pending - {requestId}
          && k.members.Keys == h.members.Keys + {h.pending[requestId].state.memberId} {
        SeatTaken(cfg, h, k, requestId);
      } else {
        SeatsShrink(cfg, h, k);
      }
    }
  }

  lemma SeatTaken(cfg: Config, h: Host, k: Host, requestId: Id)
    requires SeatsOk(cfg, h) && requestId in h.pending && h.pending[requestId].state.Committing?
    requires k.pending == h.pending - {requestId}
    requires k.members.Keys == h.members.Keys + {h.pending[requestId].state.memberId}
    ensures SeatsOk(cfg, k)
  {
    assert |k.members.Keys| <= |h.members.Keys| + 1;
    assert Reserved(h.pending) == Reserved(k.pending) + {requestId};
    assert requestId !in Reserved(k.pending);
    SubsetCount(k.pending.Keys, h.pending.Keys);
    assert |k.pending| == |k.pending.Keys| && |h.pending| == |h.pending.Keys|;
    assert |k.members| == |k.members.Keys| && |h.members| == |h.members.Keys|;
  }

  lemma CommittingFresh(cfg: Config, h: Host, requestId: Id)
    requires HostOk(cfg, h) && requestId in h.pending && h.pending[requestId].state.Committing?
    ensures h.pending[requestId].state.memberId !in h.members
  {
  }

  /** A segment that is none of admission's business. */
  ghost predicate DeskAlone(h: Host, k: Host) {
    && k.members.Keys <= h.members.Keys && k.pending == h.pending
    && k.generation == h.generation && PolicyOf(k) == PolicyOf(h)
  }

  lemma CommitDesk(h: Host, body: Body)
    ensures var k := Commit(h, body);
            k.members == h.members && k.pending == h.pending && k.generation == h.generation
              && PolicyOf(k) == PolicyOf(h)
  {
    hide Listening;
  }

  lemma MarkDeskAlone(h: Host, id: Id)
    ensures DeskAlone(h, MarkReconnecting(h, id))
    ensures id in h.members ==> id in MarkReconnecting(h, id).members
  {
    hide Commit;
    if id in h.members {
      var m := h.members[id];
      var shut := if m.stream.Some? then Shut(h, m.stream.value) else h;
      CommitDesk(shut.(members := h.members[id := m.(status := Reconnecting, stream := None)]),
                 State(id, Reconnecting));
    }
  }

  lemma RemoveDeskAlone(h: Host, id: Id, notify: bool)
    ensures DeskAlone(h, RemoveMember(h, id, notify))
  {
    hide Commit, Send, Shut;
    if id in h.members {
      var m := h.members[id];
      var aborted := AbortResume(h, id);
      AbortDesk(h, id);
      if m.stream.Some? {
        SendDesk(aborted, m.stream.value, Terminal);
      }
      var told := if m.stream.None? then aborted
        else Shut(if notify then Send(aborted, m.stream.value, Terminal) else aborted, m.stream.value);
      CommitDesk(told.(members := h.members - {id}), Left(id));
    }
  }

  lemma SendDesk(h: Host, s: Id, f: Down)
    ensures DeskAlone(h, Send(h, s, f)) && DeskAlone(h, Shut(h, s)) && DeskAlone(h, Shut(Send(h, s, f), s))
  {
  }

  lemma AbortDesk(h: Host, id: Id)
    requires id in h.members
    ensures DeskAlone(h, AbortResume(h, id))
  {
  }

  lemma AcceptResumeDeskAlone(cfg: Config, h: Host, s: Id, flag: bool)
    ensures DeskAlone(h, AcceptResume(h, s, flag))
  {
    hide MarkReconnecting;
    if s in h.wires && h.wires[s].peer.Some? {
      MarkDeskAlone(h, h.wires[s].peer.value);
    }
  }

  lemma ContinueDeskAlone(cfg: Config, h: Host, id: Id, flag: bool)
    ensures DeskAlone(h, ContinueResume(h, cfg, id, flag))
  {
    hide After, Commit, Send, AbortResume;
    if id in h.members && h.members[id].resume.Some? {
      var m := h.members[id];
      var r := m.resume.value;
      AbortDesk(h, id);
      SendDesk(h, r.stream, Resync(|h.log|, Faces(h.members)));
      if r.rest != [] {
        SendDesk(h, r.stream, RoomEvent(r.rest[0]));
      } else if After(cfg, h.log, r.cursor).Some? && After(cfg, h.log, r.cursor).value != [] {
        SendDesk(h, r.stream, RoomEvent(After(cfg, h.log, r.cursor).value[0]));
      }
      CommitDesk(h.(members := h.members[id := m.(status := Online, stream := Some(r.stream), resume := None)]),
                 State(id, Online));
    }
  }

  lemma SubmitDeskAlone(cfg: Config, h: Host, id: Id, s: Id, submission: Submission)
    ensures DeskAlone(h, SubmitText(h, cfg, id, s, submission))
  {
    hide ValidText, Answer, Written, After, Listening, MarkReconnecting;
    MarkDeskAlone(h, id);
  }

  lemma ReadDesk(cfg: Config, h: Host, s: Id)
    ensures var k := ReadUp(h, cfg, s);
            DeskAlone(h, k) || (exists r :: DeskAlone(h.(pending := h.pending - {r}), k))
  {
    hide SubmitText, RemoveMember;
    if Readable(h, s) {
      var w := h.wires[s];
      var read := h.(wires := h.wires[s := w.(upRead := w.upRead + 1)]);
      if w.peer.Some? && w.peer.value in h.members && Voice(h.members[w.peer.value], s) {
        RemoveDeskAlone(read, w.peer.value, false);
        if w.up[w.upRead].TextSubmit? {
          SubmitDeskAlone(cfg, read, w.peer.value, s, w.up[w.upRead].submission);
        }
      } else if PendingOn(h, s) != {} {
        var r :| r in PendingOn(h, s) && ReadUp(h, cfg, s) == DropPending(read, r);
        assert DeskAlone(h.(pending := h.pending - {r}), DropPending(read, r));
      }
    }
  }

  predicate AtTheDesk(step: Step) {
    step.HostJoinRequest? || step.HostDropPending? || step.HostReject? || step.HostApproveBegin?
        || step.HostApproveVerified?
    || step.HostApproveCommit? || step.HostPauseJoins? || step.HostPauseRoom? || step.HostRotate? || step.HostRead?
    || step.HostClose?
  }

  lemma OthersDeskAlone(cfg: Config, h: Host, step: Step)
    requires !AtTheDesk(step)
    ensures DeskAlone(h, HostStep(cfg, h, step))
  {
    hide ValidText, Answer, Written, Listening, AcceptResume, ContinueResume, MarkReconnecting, RemoveMember;
    match step
    case HostMarkReconnecting(id) => MarkDeskAlone(h, id);
    case HostRemove(id, notify) => RemoveDeskAlone(h, id, notify);
    case HostAcceptResume(s, flag) => AcceptResumeDeskAlone(cfg, h, s, flag);
    case HostContinueResume(id, flag) => ContinueDeskAlone(cfg, h, id, flag);
    case _ =>
  }

  /** What a segment other than approving does to the seats. */
  lemma OtherSegments(cfg: Config, h: Host, step: Step)
    requires !step.HostJoinRequest? && !step.HostApproveBegin? && !step.HostApproveCommit? && !ByGuest(step)
    ensures var k := HostStep(cfg, h, step);
            && k.members.Keys <= h.members.Keys && k.pending.Keys <= h.pending.Keys
            && Reserved(k.pending) <= Reserved(h.pending)
  {
    hide HostStep, DeskAlone;
    if !AtTheDesk(step) {
      OthersDeskAlone(cfg, h, step);
      AloneKeepsSeats(h, HostStep(cfg, h, step));
    } else {
      DeskSegments(cfg, h, step);
    }
  }

  lemma AloneKeepsSeats(h: Host, k: Host)
    requires DeskAlone(h, k)
    ensures k.members.Keys <= h.members.Keys && k.pending.Keys <= h.pending.Keys
      && Reserved(k.pending) <= Reserved(h.pending)
  {
  }

  lemma DeskSegments(cfg: Config, h: Host, step: Step)
    requires AtTheDesk(step)
    requires !step.HostJoinRequest? && !step.HostApproveBegin? && !step.HostApproveCommit? && !ByGuest(step)
    ensures var k := HostStep(cfg, h, step);
            && k.members.Keys <= h.members.Keys && k.pending.Keys <= h.pending.Keys
            && Reserved(k.pending) <= Reserved(h.pending)
  {
    hide Listening, SubmitText, AcceptResume, ContinueResume, MarkReconnecting, RemoveMember, ReadUp, ValidText, Answer;
    if step.HostRead? {
      ReadDesk(cfg, h, step.stream);
    }
  }

  lemma StepSeats(cfg: Config, h: Host, step: Step)
    requires HostOk(cfg, h) && SeatsOk(cfg, h) && !ByGuest(step)
    ensures SeatsOk(cfg, HostStep(cfg, h, step))
  {
    hide HostOk, SeatsOk;
    if step.HostJoinRequest? {
      AcceptJoinSeats(cfg, h, step.stream, step.requestId, step.token, step.wellFormed);
    } else if step.HostApproveBegin? {
      ApproveBeginSeats(cfg, h, step.requestId, step.flag);
    } else if step.HostApproveCommit? {
      ApproveCommitSeats(cfg, h, step.requestId, step.flag);
    } else {
      OtherSegments(cfg, h, step);
      SeatsShrink(cfg, h, HostStep(cfg, h, step));
    }
  }

  // ---- Policy ----

  /** Generations only grow, and nothing about the policy changes without a new one. */
  ghost predicate PolicyMoves(h: Host, k: Host) {
    && h.generation <= k.generation
    && (h.generation == k.generation ==> PolicyOf(k) == PolicyOf(h))
  }

  /** What keeps the policy invariant, said of two states. */
  ghost predicate PolicyStep(h: Host, k: Host) {
    PolicyOk(h) ==> PolicyOk(k) && PolicyMoves(h, k)
  }

  lemma JoinPolicy(cfg: Config, h: Host, s: Id, r: Id, token: Id, flag: bool)
    ensures PolicyStep(h, AcceptJoinRequest(h, cfg, s, r, token, flag))
  {
  }

  lemma RejectPolicy(h: Host, r: Id)
    ensures PolicyStep(h, DropPending(h, r)) && PolicyStep(h, RejectByChoice(h, r))
      && PolicyStep(h, RejectPending(h, r))
  {
    hide Send, Shut;
    if r in h.pending {
      SendDesk(h, h.pending[r].stream, JoinReject);
    }
  }

  lemma ApproveBeginPolicy(cfg: Config, h: Host, r: Id, flag: bool)
    ensures PolicyStep(h, ApproveBegin(h, cfg, r, flag))
  {
    hide RejectPending;
    RejectPolicy(h, r);
  }

  lemma ApproveVerifiedPolicy(h: Host, r: Id, verified: bool, flag: bool, id: Id)
    ensures PolicyStep(h, ApproveVerified(h, r, verified, flag, id))
  {
    hide RejectPending;
    RejectPolicy(h, r);
  }

  lemma ApproveCommitPolicy(h: Host, r: Id, flag: bool)
    ensures PolicyStep(h, ApproveCommit(h, r, flag))
  {
    hide Commit, RejectPending;
    RejectPolicy(h, r);
    if r in h.pending && h.pending[r].state.Committing? {
      var p := h.pending[r];
      CommitDesk(h.(members := h.members[p.state.memberId := Member(Guest, Online, Some(p.stream),
                                                                    p.state.admissionSeq, None)],
                    pending := h.pending - {r}), Joined(p.state.memberId, Face(Guest, Online)));
    }
  }

  lemma FlagPolicy(h: Host, paused: bool, token: Id)
    ensures PolicyStep(h, SetJoinsPaused(h, paused)) && PolicyStep(h, SetRoomPaused(h, paused))
    ensures PolicyStep(h, RotateInvitation(h, token)) && PolicyStep(h, CloseRoom(h))
  {
    hide StreamOf, Listening, Resuming;
  }

  lemma StepPolicy(cfg: Config, h: Host, step: Step)
    requires PolicyOk(h) && !ByGuest(step)
    ensures PolicyOk(HostStep(cfg, h, step)) && PolicyMoves(h, HostStep(cfg, h, step))
  {
    hide PolicyOk;
    if !AtTheDesk(step) {
      OthersPolicy(cfg, h, step);
    } else if step.HostRead? {
      ReadPolicy(cfg, h, step);
    } else {
      hide AcceptJoinRequest, DropPending, RejectByChoice, ApproveBegin, ApproveVerified, ApproveCommit, SetJoinsPaused,
        SetRoomPaused, RotateInvitation, CloseRoom;
      match step
      case HostJoinRequest(s, r, token, wellFormed) => JoinPolicy(cfg, h, s, r, token, wellFormed);
      case HostDropPending(r) => RejectPolicy(h, r);
      case HostReject(r) => RejectPolicy(h, r);
      case HostApproveBegin(r, flag) => ApproveBeginPolicy(cfg, h, r, flag);
      case HostApproveVerified(r, verified, flag, id) => ApproveVerifiedPolicy(h, r, verified, flag, id);
      case HostApproveCommit(r, flag) => ApproveCommitPolicy(h, r, flag);
      case HostPauseJoins(paused) => FlagPolicy(h, paused, 0);
      case HostPauseRoom(paused) => FlagPolicy(h, paused, 0);
      case HostRotate(token) => FlagPolicy(h, false, token);
      case HostClose => FlagPolicy(h, false, 0);
    }
  }

  lemma OthersPolicy(cfg: Config, h: Host, step: Step)
    requires PolicyOk(h) && !AtTheDesk(step)
    ensures PolicyOk(HostStep(cfg, h, step)) && PolicyMoves(h, HostStep(cfg, h, step))
  {
    hide HostStep;
    OthersDeskAlone(cfg, h, step);
  }

  lemma ReadPolicy(cfg: Config, h: Host, step: Step)
    requires PolicyOk(h) && step.HostRead?
    ensures PolicyOk(HostStep(cfg, h, step)) && PolicyMoves(h, HostStep(cfg, h, step))
  {
    hide ReadUp;
    ReadDesk(cfg, h, step.stream);
  }

  lemma GuestLeavesDesk(cfg: Config, h: Host, n: RoomNode.Node, step: Step)
    ensures var k := GuestStep(cfg, h, n, step).0;
            k.members == h.members && k.pending == h.pending && k.generation == h.generation
              && PolicyOf(k) == PolicyOf(h)
  {
    hide RoomNode.TakeFrame, ValidText;
  }

  ghost predicate AdmissionOk(cfg: Config, h: Host) {
    SeatsOk(cfg, h) && PolicyOk(h)
  }

  lemma StepAdmission(cfg: Config, room: Room, step: Step)
    requires GoodConfig(cfg) && RoomOk(cfg, room) && AdmissionOk(cfg, room.host)
    ensures AdmissionOk(cfg, Do(cfg, room, step).host) && PolicyMoves(room.host, Do(cfg, room, step).host)
  {
    hide HostStep, GuestStep, HostOk, NodeOk;
    if ByGuest(step) {
      if step.memberId in room.guests {
        GuestLeavesDesk(cfg, room.host, room.guests[step.memberId], step);
      }
    } else if !step.GuestJoined? {
      StepSeats(cfg, room.host, step);
      StepPolicy(cfg, room.host, step);
    }
  }

  lemma {:induction false} RunAdmission(cfg: Config, owner: Id, token: Id, rooms: seq<Room>, steps: seq<Step>, i: nat)
    requires GoodConfig(cfg) && Run(cfg, owner, token, rooms, steps) && i < |rooms|
    ensures AdmissionOk(cfg, rooms[i].host)
  {
    hide Do, AdmissionOk, RoomOk;
    if i > 0 {
      RunAdmission(cfg, owner, token, rooms, steps, i - 1);
      RunOk(cfg, owner, token, rooms, steps, i - 1);
      assert rooms[i - 1 + 1] == Do(cfg, rooms[i - 1], steps[i - 1]);
      StepAdmission(cfg, rooms[i - 1], steps[i - 1]);
    } else {
      OpeningSeats(cfg, owner, token);
    }
  }

  lemma OpeningSeats(cfg: Config, owner: Id, token: Id)
    requires GoodConfig(cfg)
    ensures AdmissionOk(cfg, Opening(owner, token))
  {
    assert Reserved(Opening(owner, token).pending) == {};
    assert Opening(owner, token).members.Keys == {owner};
    assert |Opening(owner, token).members| == |Opening(owner, token).members.Keys|;
  }

  /**
   * The seat bound, for every interleaving of approvals, rejections, expiries,
   * pauses, removals and resumes: members and reserved seats never exceed
   * `maxMembers`, and requests never exceed `maxPendingJoins`.
   */
  lemma SeatBound(cfg: Config, owner: Id, token: Id, rooms: seq<Room>, steps: seq<Step>, i: nat)
    requires GoodConfig(cfg) && Run(cfg, owner, token, rooms, steps) && i < |rooms|
    ensures |rooms[i].host.members| + |Reserved(rooms[i].host.pending)| <= cfg.maxMembers
    ensures |rooms[i].host.pending| <= cfg.maxPendingJoins
  {
    RunAdmission(cfg, owner, token, rooms, steps, i);
  }

  /** Over a stretch of a run that ends with the generation it began with, the policy never moved. */
  lemma {:induction false} SameGenerationSamePolicy(cfg: Config, owner: Id, token: Id, rooms: seq<Room>,
                                                    steps: seq<Step>,
                                                    i: nat, k: nat, j: nat)
    requires GoodConfig(cfg) && Run(cfg, owner, token, rooms, steps) && i <= k <= j < |rooms|
    ensures rooms[i].host.generation <= rooms[j].host.generation
    ensures rooms[i].host.generation == rooms[j].host.generation ==>
      rooms[k].host.generation == rooms[j].host.generation && PolicyOf(rooms[k].host) == PolicyOf(rooms[j].host)
    decreases j
  {
    hide AdmissionOk, RoomOk, Do;
    if i < j {
      RunAdmission(cfg, owner, token, rooms, steps, j - 1);
      RunOk(cfg, owner, token, rooms, steps, j - 1);
      assert rooms[j - 1 + 1] == Do(cfg, rooms[j - 1], steps[j - 1]);
      StepAdmission(cfg, rooms[j - 1], steps[j - 1]);
      SameGenerationSamePolicy(cfg, owner, token, rooms, steps, i, if k < j then k else i, j - 1);
    }
  }

  /** Step `j` admits request `r`. */
  ghost predicate Admits(cfg: Config, rooms: seq<Room>, steps: seq<Step>, j: nat, r: Id) {
    && j < |steps| && |rooms| == |steps| + 1
    && steps[j] == HostApproveCommit(r, true)
    && r in rooms[j].host.pending && rooms[j].host.pending[r].state.Committing?
    && rooms[j].host.pending[r].state.memberId in rooms[j + 1].host.members
  }

  /**
   * Admission is atomic with respect to policy: from any moment `i` of the
   * generation in which the request was approved until it is admitted, neither
   * pause was set and the join token was always the one the request was made with.
   */
  lemma AdmittedUnderOnePolicy(cfg: Config, owner: Id, token: Id, rooms: seq<Room>, steps: seq<Step>,
                               i: nat, k: nat, j: nat, r: Id)
    requires GoodConfig(cfg) && Run(cfg, owner, token, rooms, steps) && Admits(cfg, rooms, steps, j, r)
    requires i <= k <= j && rooms[i].host.generation == rooms[j].host.pending[r].state.generation
    ensures PolicyOf(rooms[k].host) == Policy(false, false, rooms[j].host.pending[r].token)
  {
    hide Do, RoomOk, AdmissionOk;
    RunOk(cfg, owner, token, rooms, steps, j);
    RunAdmission(cfg, owner, token, rooms, steps, j);
    assert rooms[j + 1] == Do(cfg, rooms[j], steps[j]);
    AdmittedNow(cfg, rooms[j], r, rooms[j + 1]);
    SameGenerationSamePolicy(cfg, owner, token, rooms, steps, i, k, j);
  }

  /** At the admission itself the generation is still that of the approval, and the policy is open. */
  lemma AdmittedNow(cfg: Config, room: Room, r: Id, after: Room)
    requires RoomOk(cfg, room) && AdmissionOk(cfg, room.host) && after == Do(cfg, room, HostApproveCommit(r, true))
    requires r in room.host.pending && room.host.pending[r].state.Committing?
    requires room.host.pending[r].state.memberId in after.host.members
    ensures room.host.generation == room.host.pending[r].state.generation
    ensures PolicyOf(room.host) == Policy(false, false, room.host.pending[r].token)
  {
    hide HostOk;
    CommittingFresh(cfg, room.host, r);
  }
}
