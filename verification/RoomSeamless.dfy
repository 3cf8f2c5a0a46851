/** Seamless catch-up over whole runs: a guest that resumed never meets a gap again. */
module RoomSeamless {
  import opened Basics
  import opened RoomTypes
  import opened ReplayBuffer
  import opened EventDeduper
  import opened RoomHost
  import opened RoomHostSafety
  import opened RoomNode
  import opened RoomSystem
  import opened RoomGuarantee
  import opened RoomReplication
  import opened RoomCatchUp

  /** A reader of a resumed stream is at least where the frames it read carry it. */
  ghost predicate InStep(h: Host, n: Node) {
    && n.stream in h.wires && 1 <= n.delivered <= |h.wires[n.stream].down|
    && (Resumed(h.wires[n.stream]) ==>
          var reached := Reached(h.wires[n.stream].down[..n.delivered], h.wires[n.stream].claim, false);
          reached.Some? && reached.value <= n.lastSeq)
    && (n.attempt.Some? ==>
          var a := n.attempt.value.stream;
          a in h.wires && h.wires[a].claim <= n.lastSeq && (n.attempt.value.Resubmitting? ==> Resumed(h.wires[a])))
  }

  ghost predicate SeamlessOk(room: Room) {
    && CatchUpOk(room.host)
    && forall id :: id in room.guests ==> InStep(room.host, room.guests[id])
  }

  lemma {:induction false} PrefixReached(down: seq<Down>, from: nat, k: nat)
    requires k <= |down| && Reached(down, from, false).Some?
    ensures Reached(down[..k], from, false).Some?
  {
    if k < |down| {
      assert down[..|down| - 1][..k] == down[..k];
      PrefixReached(down[..|down| - 1], from, k);
    } else {
      assert down[..k] == down;
    }
  }

  /** The next frame of a resumed stream advances its reader; an event is never beyond the next number. */
  lemma NextAdvances(h: Host, n: Node)
    requires CatchUpOk(h) && InStep(h, n) && n.delivered < |h.wires[n.stream].down| && Resumed(h.wires[n.stream])
    ensures var w := h.wires[n.stream];
            var at := Reached(w.down[..n.delivered], w.claim, false);
            var next := Advance(at.value, w.down[n.delivered], false);
            && next.Some? && Reached(w.down[..n.delivered + 1], w.claim, false) == next
            && (w.down[n.delivered].RoomEvent? ==> w.down[n.delivered].event.number <= n.lastSeq + 1)
  {
    var w := h.wires[n.stream];
    PrefixReached(w.down, w.claim, n.delivered + 1);
    assert w.down[..n.delivered + 1] == w.down[..n.delivered] + [w.down[n.delivered]];
    ReachedStep(w.down[..n.delivered], w.down[n.delivered], w.claim, false);
  }

  lemma StillInStep(h: Host, k: Host, n: Node)
    requires InStep(h, n)
    requires n.stream in k.wires && h.wires[n.stream].down <= k.wires[n.stream].down
    requires h.wires[n.stream].down != [] && k.wires[n.stream].claim == h.wires[n.stream].claim
    requires n.attempt.Some? ==>
      var a := n.attempt.value.stream;
      a in k.wires && k.wires[a].claim == h.wires[a].claim && h.wires[a].down <= k.wires[a].down
    ensures InStep(k, n)
  {
    assert k.wires[n.stream].down[..n.delivered] == h.wires[n.stream].down[..n.delivered];
  }

  lemma HostKeepsInStep(h: Host, k: Host, n: Node)
    requires NodeOk(h, n) && InStep(h, n)
    requires Evolves(h, k) || exists s :: TakesOver(h, k, s) || TurnsAway(h, k, s)
    ensures InStep(k, n)
  {
    hide Reached, Live, Follows, RosterOf;
    if Evolves(h, k) {
      assert WireEvolves(h.wires[n.stream], k.wires[n.stream], |h.log|);
      if n.attempt.Some? {
        assert WireEvolves(h.wires[n.attempt.value.stream], k.wires[n.attempt.value.stream], |h.log|);
      }
      StillInStep(h, k, n);
    } else {
      var s :| TakesOver(h, k, s) || TurnsAway(h, k, s);
      FreshWire(h, n, s);
      if TakesOver(h, k, s) {
        assert WireEvolves(h.wires[n.stream], k.wires[n.stream], |h.log|);
        if n.attempt.Some? && n.attempt.value.stream != s {
          assert WireEvolves(h.wires[n.attempt.value.stream], k.wires[n.attempt.value.stream], |h.log|);
        }
        TakeOverInStep(h, k, n, s);
      } else {
        TurnedInStep(h, k, n, s);
      }
    }
  }

  lemma FreshWire(h: Host, n: Node, s: Id)
    requires NodeOk(h, n) && s in h.wires && h.wires[s].phase == Fresh
    ensures n.stream != s
  {
  }

  lemma TakeOverInStep(h: Host, k: Host, n: Node, s: Id)
    requires InStep(h, n) && n.stream != s && s in h.wires && h.wires[s].phase == Fresh && TakesOver(h, k, s)
    requires h.wires[n.stream].down <= k.wires[n.stream].down && h.wires[n.stream].down != []
    requires k.wires[n.stream].claim == h.wires[n.stream].claim
    requires NodeOk(h, n)
    requires n.attempt.Some? && n.attempt.value.stream != s ==>
      var a := n.attempt.value.stream;
      a in k.wires && k.wires[a].claim == h.wires[a].claim && h.wires[a].down <= k.wires[a].down
    ensures InStep(k, n)
  {
    hide Reached, Live, Follows, RosterOf;
    assert k.wires[n.stream].down[..n.delivered] == h.wires[n.stream].down[..n.delivered];
  }

  lemma TurnedInStep(h: Host, k: Host, n: Node, s: Id)
    requires InStep(h, n) && NodeOk(h, n) && TurnsAway(h, k, s)
    ensures InStep(k, n)
  {
  }

  // ---- The guest's own segments ----

  lemma TakenNumber(cfg: Config, n: Node, f: Down)
    ensures var a := TakeFrame(cfg, n, f);
            a.stream == n.stream && a.delivered == n.delivered && (a.attempt == n.attempt || a.attempt == None)
    ensures f.RoomEvent? && !Judge(cfg, n, f.event).Malformed? && f.event.number <= n.lastSeq + 1 ==>
      TakeFrame(cfg, n, f).lastSeq >= f.event.number
    ensures f.Resync? ==> TakeFrame(cfg, n, f).lastSeq == f.number
  {
    hide Acceptable, ApplyBody;
  }

  lemma ReadInStep(cfg: Config, h: Host, n: Node)
    requires CatchUpOk(h) && InStep(h, n) && n.delivered < |h.wires[n.stream].down|
    requires var f := h.wires[n.stream].down[n.delivered];
             n.lastSeq <= TakeFrame(cfg, n.(delivered := n.delivered + 1), f).lastSeq
             && (f.RoomEvent? ==> f.event.number >= 1 && !Judge(cfg, n, f.event).Malformed?)
    ensures InStep(h, TakeFrame(cfg, n.(delivered := n.delivered + 1), h.wires[n.stream].down[n.delivered]))
    ensures Resumed(h.wires[n.stream]) && h.wires[n.stream].down[n.delivered].RoomEvent? ==>
      !Judge(cfg, n, h.wires[n.stream].down[n.delivered].event).Gap?
  {
    hide CatchUpOk, Reached, Acceptable, ApplyBody, TakeFrame;
    var f := h.wires[n.stream].down[n.delivered];
    var read := n.(delivered := n.delivered + 1);
    assert f.RoomEvent? ==> Judge(cfg, read, f.event) == Judge(cfg, n, f.event);
    TakenNumber(cfg, read, f);
    if Resumed(h.wires[n.stream]) {
      NextAdvances(h, n);
    }
  }

  lemma GuestReadsInStep(cfg: Config, h: Host, n: Node, step: Step)
    requires HostOk(cfg, h) && NodeOk(h, n) && CatchUpOk(h) && InStep(h, n) && step.GuestReads?
    ensures InStep(h, GuestStep(cfg, h, n, step).1)
  {
    hide HostOk, NodeOk, CatchUpOk, InStep, TakeFrame;
    if n.reading && n.stream in h.wires && n.delivered < |h.wires[n.stream].down| {
      TakeFrameOk(cfg, h, n);
      FrameRead(cfg, h, n);
      ReadInStep(cfg, h, n);
    }
  }

  /** The frames written to every stream, and the numbers claimed, are the same. */
  ghost predicate SameDown(h: Host, k: Host) {
    forall t :: t in h.wires ==>
      (t in k.wires && k.wires[t].down == h.wires[t].down && k.wires[t].claim == h.wires[t].claim)
  }

  lemma PostQuiet(h: Host, s: Id, frame: Up)
    ensures Quiet(h, Post(h, s, frame))
  {
    if s in h.wires {
      UpQuiet(h, s, h.wires[s].up + [frame]);
    } else {
      NothingQuiet(h);
    }
  }

  lemma UpQuiet(h: Host, s: Id, up: seq<Up>)
    requires s in h.wires
    ensures Quiet(h, h.(wires := h.wires[s := h.wires[s].(up := up)]))
  {
  }

  lemma PostSame(h: Host, s: Id, frame: Up)
    ensures SameDown(h, Post(h, s, frame))
  {
  }

  /** What a guest writes or dials changes nothing that was written to it. */
  lemma GuestQuiet(cfg: Config, h: Host, n: Node, step: Step)
    requires ByGuest(step)
    ensures Quiet(h, GuestStep(cfg, h, n, step).0) && SameDown(h, GuestStep(cfg, h, n, step).0)
  {
    hide Post, TakeFrame, ValidText, Quiet;
    NothingQuiet(h);
    if step.GuestTexts? {
      PostQuiet(h, n.stream, TextSubmit(step.submission));
      PostSame(h, n.stream, TextSubmit(step.submission));
    } else if step.GuestResubmits? && n.attempt.Some? && n.attempt.value.Resubmitting? && n.attempt.value.rest != [] {
      PostQuiet(h, n.attempt.value.stream, TextSubmit(n.attempt.value.rest[0]));
      PostSame(h, n.attempt.value.stream, TextSubmit(n.attempt.value.rest[0]));
    } else if step.GuestCloses? {
      PostQuiet(h, n.stream, Leave);
      PostSame(h, n.stream, Leave);
    } else if step.GuestDials? && step.stream !in h.wires {
      NewWireQuiet(h, step.stream, Wire(Some(n.id), n.lastSeq, Fresh, 0, [], false, [], 0));
    }
  }

  lemma AdoptedInStep(h: Host, n: Node)
    requires InStep(h, n) && n.attempt.Some? && n.attempt.value.Resubmitting?
    ensures InStep(h, n.(stream := n.attempt.value.stream, delivered := 1, reading := true, recovering := false,
                         attempt := None))
  {
    var w := h.wires[n.attempt.value.stream];
    assert w.down[..1] == [] + [w.down[0]];
    ReachedStep([], w.down[0], w.claim, false);
  }

  lemma SameInStep(h: Host, k: Host, n: Node, a: Node)
    requires InStep(h, n) && SameDown(h, k)
    requires a.stream == n.stream && a.delivered == n.delivered && a.lastSeq == n.lastSeq
    requires a.attempt.Some? ==>
      var s := a.attempt.value.stream;
      s in k.wires && k.wires[s].claim <= n.lastSeq && (a.attempt.value.Resubmitting? ==> Resumed(k.wires[s]))
    ensures InStep(k, a)
  {
  }

  lemma GuestAdoptsInStep(cfg: Config, h: Host, n: Node, step: Step)
    requires CatchUpOk(h) && InStep(h, n) && step.GuestAdopts?
    ensures InStep(GuestStep(cfg, h, n, step).0, GuestStep(cfg, h, n, step).1)
  {
    hide CatchUpOk, Reached;
    if n.attempt.Some? && n.attempt.value.Resubmitting? {
      AdoptedInStep(h, n);
    }
  }

  /** What a guest that neither reads nor adopts a stream leaves as it was. */
  lemma GuestStaysPut(cfg: Config, h: Host, n: Node, step: Step)
    requires InStep(h, n) && ByGuest(step) && !step.GuestReads? && !step.GuestAdopts?
    ensures var (k, a) := GuestStep(cfg, h, n, step);
            && a.stream == n.stream && a.delivered == n.delivered && a.lastSeq == n.lastSeq
            && (a.attempt == n.attempt || a.attempt.None? || AttemptInStep(k, a))
  {
    hide Post, ValidText, Reached;
    if step.GuestResubmits? && n.attempt.Some? && n.attempt.value.Resubmitting? && n.attempt.value.rest != [] {
      PostSame(h, n.attempt.value.stream, TextSubmit(n.attempt.value.rest[0]));
    }
  }

  ghost predicate AttemptInStep(h: Host, n: Node) {
    n.attempt.Some? ==>
      var a := n.attempt.value.stream;
      a in h.wires && h.wires[a].claim <= n.lastSeq && (n.attempt.value.Resubmitting? ==> Resumed(h.wires[a]))
  }

  lemma AttemptKept(h: Host, k: Host, n: Node, a: Node)
    requires InStep(h, n) && SameDown(h, k) && a.attempt == n.attempt && a.lastSeq == n.lastSeq
    ensures AttemptInStep(k, a)
  {
    hide Reached;
  }

  lemma GuestStaysInStep(cfg: Config, h: Host, n: Node, step: Step)
    requires InStep(h, n) && ByGuest(step) && !step.GuestReads? && !step.GuestAdopts?
    ensures InStep(GuestStep(cfg, h, n, step).0, GuestStep(cfg, h, n, step).1)
  {
    hide GuestStep, InStep, SameDown, Quiet;
    GuestQuiet(cfg, h, n, step);
    GuestStaysPut(cfg, h, n, step);
    var (k, a) := GuestStep(cfg, h, n, step);
    if a.attempt == n.attempt {
      AttemptKept(h, k, n, a);
    }
    SameInStep(h, k, n, a);
  }

  lemma ReadsLeaveHost(cfg: Config, h: Host, n: Node, step: Step)
    requires step.GuestReads?
    ensures GuestStep(cfg, h, n, step).0 == h
  {
  }

  lemma GuestKeepsInStep(cfg: Config, h: Host, n: Node, step: Step)
    requires HostOk(cfg, h) && NodeOk(h, n) && CatchUpOk(h) && InStep(h, n) && ByGuest(step)
    ensures InStep(GuestStep(cfg, h, n, step).0, GuestStep(cfg, h, n, step).1)
  {
    hide HostOk, NodeOk, CatchUpOk, InStep, GuestStep;
    if step.GuestReads? {
      GuestReadsInStep(cfg, h, n, step);
      ReadsLeaveHost(cfg, h, n, step);
    } else if step.GuestAdopts? {
      GuestAdoptsInStep(cfg, h, n, step);
    } else {
      GuestStaysInStep(cfg, h, n, step);
    }
  }

  lemma JoiningInStep(room: Room, s: Id)
    requires SeamlessOk(room)
    ensures SeamlessOk(Joining(room, s))
  {
  }

  lemma HostCarries(cfg: Config, h: Host, step: Step)
    requires GoodConfig(cfg) && HostOk(cfg, h) && CatchUpOk(h) && !ByGuest(step) && !step.GuestJoined?
    ensures CatchUpOk(HostStep(cfg, h, step))
  {
    hide HostOk, CatchUpOk, Quiet;
    match step
    case HostJoinRequest(s, r, token, wellFormed) => JoinRequestCarries(cfg, h, s, r, token, wellFormed);
    case HostDropPending(r) => RejectQuiet(cfg, h, r); QuietOk(h, DropPending(h, r));
    case HostReject(r) => RejectQuiet(cfg, h, r); QuietOk(h, RejectPending(h, r));
    case HostApproveBegin(r, expired) => ApproveBeginCarries(cfg, h, r, expired);
    case HostApproveVerified(r, verified, expired, id) => ApproveVerifiedCarries(cfg, h, r, verified, expired, id);
    case HostApproveCommit(r, written) => ApproveCommitCarries(cfg, h, r, written);
    case HostPauseJoins(paused) => PauseQuiet(h, paused); QuietOk(h, SetJoinsPaused(h, paused));
    case HostPauseRoom(paused) => PauseQuiet(h, paused); QuietOk(h, SetRoomPaused(h, paused));
    case HostRotate(token) => RotateQuiet(h, token); QuietOk(h, RotateInvitation(h, token));
    case HostMarkReconnecting(id) => MarkCarries(cfg, h, id);
    case HostRemove(id, notify) => RemoveCarries(cfg, h, id, notify);
    case HostAcceptResume(s, inTime) => AcceptResumeCarries(cfg, h, s, inTime);
    case HostContinueResume(id, ok) => ContinueCarries(cfg, h, id, ok);
    case HostRead(s) => ReadCarries(cfg, h, s);
    case HostText(submission) => OwnerTextCarries(cfg, h, submission);
    case HostWriterFails(s) => ShutQuiet(h, s); QuietOk(h, Shut(h, s));
    case HostClose => CloseQuiet(h); QuietOk(h, CloseRoom(h));
  }

  lemma StepSeamless(cfg: Config, room: Room, step: Step)
    requires GoodConfig(cfg) && RoomOk(cfg, room) && SeamlessOk(room)
    ensures SeamlessOk(Do(cfg, room, step))
  {
    hide HostOk, NodeOk, CatchUpOk, InStep, GuestStep, HostStep, Quiet, Evolves, TakesOver, TurnsAway;
    if step.GuestJoined? {
      JoiningInStep(room, step.stream);
    } else if ByGuest(step) {
      if step.memberId in room.guests && room.guests[step.memberId].active {
        var n := room.guests[step.memberId];
        var k := GuestStep(cfg, room.host, n, step).0;
        GuestQuiet(cfg, room.host, n, step);
        QuietOk(room.host, k);
        GuestKeepsInStep(cfg, room.host, n, step);
        NodeIssued(cfg, room.host, n);
        GuestStepOk(cfg, room.host, n, step);
        OthersInStep(cfg, room, k);
      }
    } else {
      HostCarries(cfg, room.host, step);
      HostStepGuarantee(cfg, room.host, step);
      OthersInStep(cfg, room, HostStep(cfg, room.host, step));
    }
  }

  lemma OthersInStep(cfg: Config, room: Room, k: Host)
    requires RoomOk(cfg, room) && SeamlessOk(room)
    requires Evolves(room.host, k) || exists s :: TakesOver(room.host, k, s) || TurnsAway(room.host, k, s)
    ensures forall id :: id in room.guests ==> InStep(k, room.guests[id])
  {
    hide HostOk, NodeOk, CatchUpOk, InStep, Evolves, TakesOver, TurnsAway;
    forall id | id in room.guests
      ensures InStep(k, room.guests[id])
    {
      HostKeepsInStep(room.host, k, room.guests[id]);
    }
  }

  lemma {:induction false} RunSeamless(cfg: Config, owner: Id, token: Id, rooms: seq<Room>, steps: seq<Step>, i: nat)
    requires GoodConfig(cfg) && Run(cfg, owner, token, rooms, steps) && i < |rooms|
    ensures SeamlessOk(rooms[i])
  {
    hide HostOk, NodeOk, InStep, Do;
    if i > 0 {
      hide CatchUpOk;
      RunSeamless(cfg, owner, token, rooms, steps, i - 1);
      RunOk(cfg, owner, token, rooms, steps, i - 1);
      assert rooms[i - 1 + 1] == Do(cfg, rooms[i - 1], steps[i - 1]);
      StepSeamless(cfg, rooms[i - 1], steps[i - 1]);
    }
  }

  /**
   * In every run, a guest reading a resumed stream never finds a gap: each
   * event is the next one or one it already has, whatever was committed while
   * the owner caught it up. So after one recovery only a broken stream can
   * make a guest recover again.
   */
  lemma NoGapAfterResume(cfg: Config, owner: Id, token: Id, rooms: seq<Room>, steps: seq<Step>, i: nat, id: Id)
    requires GoodConfig(cfg) && Run(cfg, owner, token, rooms, steps)
    requires i < |rooms| && id in rooms[i].guests
    ensures var h := rooms[i].host;
            var n := rooms[i].guests[id];
            && n.stream in h.wires
            && var down := h.wires[n.stream].down;
               (Resumed(h.wires[n.stream]) && n.delivered < |down| && down[n.delivered].RoomEvent?) ==>
                 down[n.delivered].event.number <= n.lastSeq + 1
  {
    RunSeamless(cfg, owner, token, rooms, steps, i);
    hide CatchUpOk, Reached;
    var h, n := rooms[i].host, rooms[i].guests[id];
    if Resumed(h.wires[n.stream]) && n.delivered < |h.wires[n.stream].down| {
      NextAdvances(h, n);
    }
  }

  /** The same at the owner: whatever it has written to an online member's open stream ends where its log ends. */
  lemma OnlineMeansCaughtUp(cfg: Config, owner: Id, token: Id, rooms: seq<Room>, steps: seq<Step>, i: nat, id: Id)
    requires GoodConfig(cfg) && Run(cfg, owner, token, rooms, steps)
    requires i < |rooms| && id in rooms[i].host.members && rooms[i].host.members[id].stream.Some?
    ensures var h := rooms[i].host;
            var s := h.members[id].stream.value;
            s in h.wires && (!h.wires[s].closed && Resumed(h.wires[s]) ==>
              Reached(h.wires[s].down, h.wires[s].claim, false) == Some(|h.log|))
  {
    RunSeamless(cfg, owner, token, rooms, steps, i);
    assert CarriesMember(rooms[i].host, rooms[i].host.members[id]);
  }

  // ---- Going online, over whole runs ----

  predicate Waits(h: Host, id: Id) {
    id in h.members && h.members[id].status == Reconnecting
  }

  lemma CommitKeepsMembers(h: Host, body: Body)
    ensures Commit(h, body).members == h.members
  {
  }

  lemma RemovalKeepsWaiting(h: Host, gone: Id, notify: bool, id: Id)
    requires Waits(h, id) && id in RemoveMember(h, gone, notify).members
    ensures Waits(RemoveMember(h, gone, notify), id)
  {
    hide Commit, Send, Shut;
    if !h.closing && gone != h.owner && gone in h.members {
      RemovedInSteps(h, gone, notify);
      CommitKeepsMembers(Told(AbortResume(h, gone), gone, notify).(members := AbortResume(h, gone).members - {gone}),
                         Left(gone));
    }
  }

  lemma MarkKeepsWaiting(h: Host, marked: Id, id: Id)
    requires Waits(h, id)
    ensures Waits(MarkReconnecting(h, marked), id)
  {
    hide Shut;
  }

  lemma ResumeKeepsWaiting(h: Host, s: Id, inTime: bool, id: Id)
    requires Waits(h, id)
    ensures Waits(AcceptResume(h, s, inTime), id)
  {
    hide MarkReconnecting;
    if s in h.wires && h.wires[s].peer.Some? {
      MarkKeepsWaiting(h, h.wires[s].peer.value, id);
    }
  }

  lemma SubmitKeepsWaiting(h: Host, cfg: Config, sender: Id, s: Id, submission: Submission, id: Id)
    requires Waits(h, id)
    ensures Waits(SubmitText(h, cfg, sender, s, submission), id)
  {
    hide MarkReconnecting, Answer, After, Written, ValidText, Commit;
    MarkKeepsWaiting(h, sender, id);
    CommitKeepsMembers(h, Text(sender, submission.clientEventId, submission.text));
  }

  lemma ReadKeepsWaiting(h: Host, cfg: Config, s: Id, id: Id)
    requires Waits(h, id) && id in ReadUp(h, cfg, s).members
    ensures Waits(ReadUp(h, cfg, s), id)
  {
    hide MarkReconnecting, RemoveMember, SubmitText;
    if Readable(h, s) {
      var w := h.wires[s];
      var read := h.(wires := h.wires[s := w.(upRead := w.upRead + 1)]);
      if w.peer.Some? {
        SubmitKeepsWaiting(read, cfg, w.peer.value, s,
                           if w.up[w.upRead].TextSubmit? then w.up[w.upRead].submission else Submission(0, ""), id);
        if id in RemoveMember(read, w.peer.value, false).members {
          RemovalKeepsWaiting(read, w.peer.value, false, id);
        }
      }
      if PendingOn(h, s) != {} && (w.peer.None? || w.peer.value !in h.members || !Voice(h.members[w.peer.value], s)) {
        var r :| r in PendingOn(h, s) && ReadUp(h, cfg, s) == DropPending(read, r);
        hide ReadUp;
        DropKeepsMembers(read, r);
      }
    }
  }

  lemma DropKeepsMembers(h: Host, requestId: Id)
    ensures DropPending(h, requestId).members == h.members && RejectPending(h, requestId).members == h.members
  {
  }

  lemma RequestsKeepMembers(h: Host, cfg: Config, step: Step)
    requires step.HostJoinRequest? || step.HostDropPending? || step.HostReject? || step.HostApproveBegin?
        || step.HostApproveVerified?
             || step.HostPauseJoins? || step.HostPauseRoom? || step.HostRotate? || step.HostWriterFails?
    ensures HostStep(cfg, h, step).members == h.members
  {
    hide RejectPending, DropPending, JoinRefusal, OccupiedSeats;
    match step
    case HostDropPending(r) => DropKeepsMembers(h, r);
    case HostReject(r) => DropKeepsMembers(h, r);
    case HostApproveBegin(r, _) => DropKeepsMembers(h, r);
    case HostApproveVerified(r, _, _, _) => DropKeepsMembers(h, r);
    case _ =>
  }

  lemma ApprovalKeepsWaiting(cfg: Config, h: Host, requestId: Id, written: bool, id: Id)
    requires HostOk(cfg, h) && Waits(h, id)
    ensures Waits(ApproveCommit(h, requestId, written), id)
  {
    DropKeepsMembers(h, requestId);
    hide RejectPending;
    assert requestId in h.pending && h.pending[requestId].state.Committing? ==>
      h.pending[requestId].state.memberId != id;
  }

  lemma OtherContinues(h: Host, cfg: Config, other: Id, ok: bool, id: Id)
    requires Waits(h, id) && other != id
    ensures Waits(ContinueResume(h, cfg, other, ok), id)
  {
    hide After, Send, Shut;
  }

  /** Only its own resume brings a reconnecting member online. */
  lemma OnlyResumesActivate(cfg: Config, h: Host, step: Step, id: Id)
    requires HostOk(cfg, h) && Waits(h, id) && !ByGuest(step) && !step.GuestJoined?
    requires id in HostStep(cfg, h, step).members && !Waits(HostStep(cfg, h, step), id)
    ensures step.HostContinueResume? && step.memberId == id
  {
    hide HostOk, ReadUp, AcceptResume, RemoveMember, MarkReconnecting, ContinueResume, ApproveCommit, Commit, Waits,
      ValidText, Answer;
    match step
    case HostApproveCommit(r, written) => ApprovalKeepsWaiting(cfg, h, r, written, id);
    case HostMarkReconnecting(other) => MarkKeepsWaiting(h, other, id);
    case HostRemove(other, notify) => RemovalKeepsWaiting(h, other, notify, id);
    case HostAcceptResume(s, inTime) => ResumeKeepsWaiting(h, s, inTime, id);
    case HostContinueResume(other, ok) => if other != id { OtherContinues(h, cfg, other, ok, id); }
    case HostRead(s) => ReadKeepsWaiting(h, cfg, s, id);
    case HostText(submission) =>
      CommitKeepsMembers(h, Text(h.owner, submission.clientEventId, submission.text));
      SameWaits(h, OwnerText(h, cfg, submission), id);
    case HostClose => ClosingKeepsWaiting(h, id);
    case _ => RequestsKeepMembers(h, cfg, step); SameWaits(h, HostStep(cfg, h, step), id);
  }

  lemma SameWaits(h: Host, k: Host, id: Id)
    requires Waits(h, id) && k.members == h.members
    ensures Waits(k, id)
  {
  }

  lemma ClosingKeepsWaiting(h: Host, id: Id)
    requires Waits(h, id)
    ensures Waits(CloseRoom(h), id)
  {
  }

  lemma ActivatingResume(cfg: Config, h: Host, id: Id, ok: bool)
    requires Waits(h, id) && id in ContinueResume(h, cfg, id, ok).members && !Waits(ContinueResume(h, cfg, id, ok), id)
    ensures ok && !h.closing && id in h.members && h.members[id].resume.Some?
    ensures var r := h.members[id].resume.value;
            r.rest == [] && r.cursor >= |h.log| && r.stream in h.wires && !h.wires[r.stream].closed
  {
    hide After, Send, Shut;
  }

  /**
   * In every run, whenever a reconnecting member comes online: its stream has
   * carried exactly the log from the number it claimed to the end, or a resync
   * over a prefix of that, without a repeat, and the frame that follows carries
   * the next number.
   */
  lemma OnlineIsSeamless(cfg: Config, owner: Id, token: Id, rooms: seq<Room>, steps: seq<Step>, i: nat, id: Id)
    requires GoodConfig(cfg) && Run(cfg, owner, token, rooms, steps) && i < |steps|
    requires Waits(rooms[i].host, id) && id in rooms[i + 1].host.members && !Waits(rooms[i + 1].host, id)
    ensures var h, k := rooms[i].host, rooms[i + 1].host;
            && h.members[id].resume.Some?
            && var s := h.members[id].resume.value.stream;
               && s in h.wires && s in k.wires && Voice(k.members[id], s)
               && Reached(h.wires[s].down, h.wires[s].claim, true) == Some(|h.log|)
               && k.wires[s].down == h.wires[s].down + [RoomEvent(Event(|h.log| + 1, State(id, Online)))]
  {
    hide HostOk, NodeOk, CatchUpOk, InStep, HostStep, GuestStep, Reached, Waits, ContinueResume;
    var h, step := rooms[i].host, steps[i];
    RunOk(cfg, owner, token, rooms, steps, i);
    RunSeamless(cfg, owner, token, rooms, steps, i);
    assert rooms[i + 1] == Do(cfg, rooms[i], step);
    if ByGuest(step) || step.GuestJoined? {
      GuestKeepsMembers(cfg, rooms[i], step);
      SameWaits(h, rooms[i + 1].host, id);
    } else {
      OnlyResumesActivate(cfg, h, step, id);
      ContinuesAs(cfg, h, step);
      ActivatingResume(cfg, h, id, step.flag);
      ActivationIsSeamless(cfg, h, id);
    }
  }

  lemma ContinuesAs(cfg: Config, h: Host, step: Step)
    requires step.HostContinueResume?
    ensures HostStep(cfg, h, step) == ContinueResume(h, cfg, step.memberId, step.flag)
  {
  }

  lemma GuestKeepsMembers(cfg: Config, room: Room, step: Step)
    requires ByGuest(step) || step.GuestJoined?
    ensures Do(cfg, room, step).host.members == room.host.members
  {
    hide TakeFrame, ValidText;
  }
}
