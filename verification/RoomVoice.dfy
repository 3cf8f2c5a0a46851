/**
 * One voice per member. Whatever interleaving of resumes, failures and
 * removals, a guest is heard on exactly one stream or on none, and a stream
 * that is not its voice changes nothing.
 */
module RoomVoice {
  import opened Basics
  import opened RoomTypes
  import opened RoomHost
  import opened RoomHostSafety
  import opened RoomSystem
  import opened RoomGuarantee
  import opened RoomReplication
  import opened RoomStranded

  /** An online guest has one stream and no resume; a reconnecting one has no stream and at most one resume. */
  ghost predicate SpeaksOnce(h: Host, id: Id) {
    id in h.members &&
    var m := h.members[id];
    && m.role == Guest
    && (m.status == Online ==> m.stream.Some? && m.resume.None?)
    && (m.status == Reconnecting ==> m.stream.None?)
  }

  lemma NoStreamShared(cfg: Config, h: Host, id: Id, other: Id, s: Id)
    requires HostOk(cfg, h) && id in h.members && other in h.members
    requires Owns(h.members[id], s) && Owns(h.members[other], s)
    ensures id == other && !HeldByRequest(h.pending, s)
  {
    assert MemberOk(h, id, h.members[id]) && MemberOk(h, other, h.members[other]);
  }

  /** In every run, at every point: guests speak once, and no stream belongs to two members or to a request as well. */
  lemma OneVoicePerMember(cfg: Config, owner: Id, token: Id, rooms: seq<Room>, steps: seq<Step>, i: nat, id: Id, s: Id)
    requires GoodConfig(cfg) && Run(cfg, owner, token, rooms, steps) && i < |rooms|
    requires id in rooms[i].host.members && id != rooms[i].host.owner
    ensures SpeaksOnce(rooms[i].host, id)
    ensures Owns(rooms[i].host.members[id], s) ==>
      !HeldByRequest(rooms[i].host.pending, s)
      && forall other :: other in rooms[i].host.members && other != id ==> !Owns(rooms[i].host.members[other], s)
  {
    hide Run;
    RunOk(cfg, owner, token, rooms, steps, i);
    var h := rooms[i].host;
    assert MemberOk(h, id, h.members[id]);
    forall other | other in h.members && Owns(h.members[other], s) && Owns(h.members[id], s)
      ensures other == id && !HeldByRequest(h.pending, s)
    {
      NoStreamShared(cfg, h, id, other, s);
    }
  }

  /** A frame read on a stream that is no member's voice commits nothing and tells nobody. */
  lemma DetachedStreamIsMute(cfg: Config, h: Host, s: Id)
    requires forall id :: id in h.members ==> !Voice(h.members[id], s)
    ensures var k := ReadUp(h, cfg, s);
            && k.log == h.log && k.members == h.members
            && (forall t :: t in h.wires ==> t in k.wires && k.wires[t].down == h.wires[t].down)
  {
    if Readable(h, s) && PendingOn(h, s) != {} {
      var read := h.(wires := h.wires[s := h.wires[s].(upRead := h.wires[s].upRead + 1)]);
      var r :| r in PendingOn(h, s) && ReadUp(h, cfg, s) == DropPending(read, r);
    }
  }

  /**
   * A resume that fails leaves the member as it was before it, but for the
   * attempt itself, and the stream it was tried on is given up.
   */
  lemma FailedResumeLeavesMember(cfg: Config, h: Host, id: Id)
    requires HostOk(cfg, h) && id in h.members && h.members[id].resume.Some?
    ensures var k := ContinueResume(h, cfg, id, false);
            var s := h.members[id].resume.value.stream;
            && k.log == h.log
            && k.members == h.members[id := h.members[id].(resume := None)]
            && (forall t :: t in h.wires && t != s ==> t in k.wires && k.wires[t] == h.wires[t])
            && GivenUp(k, s)
  {
    var s := h.members[id].resume.value.stream;
    var k := ContinueResume(h, cfg, id, false);
    assert MemberOk(h, id, h.members[id]);
    forall x | x in k.members
      ensures !Owns(k.members[x], s)
    {
      if x != id && Owns(h.members[x], s) {
        NoStreamShared(cfg, h, id, x, s);
      }
    }
    NoStreamShared(cfg, h, id, id, s);
  }

  // ---- A stream that was given up ----

  /** The owner holds the stream no more, and its first frame is not still to be read. */
  ghost predicate GivenUp(h: Host, s: Id) {
    s in h.wires && h.wires[s].phase != Fresh && !Live(h, s)
  }

  lemma StaysGivenUp(h: Host, k: Host, s: Id)
    requires GivenUp(h, s) && (Evolves(h, k) || exists t :: TakesOver(h, k, t) || TurnsAway(h, k, t))
    ensures GivenUp(k, s) && k.wires[s].down == h.wires[s].down
  {
    hide Live;
    if Evolves(h, k) {
      assert WireEvolves(h.wires[s], k.wires[s], |h.log|);
    } else {
      var t :| TakesOver(h, k, t) || TurnsAway(h, k, t);
      if TakesOver(h, k, t) {
        assert WireEvolves(h.wires[s], k.wires[s], |h.log|);
      } else {
        TurnedLive(h, k, t, s);
      }
    }
  }

  lemma TurnedLive(h: Host, k: Host, t: Id, s: Id)
    requires TurnsAway(h, k, t)
    ensures Live(k, s) <==> Live(h, s)
  {
  }

  lemma OwnStreamLeavesGivenUp(h: Host, k: Host, id: Id, s: Id)
    requires GivenUp(h, s) && OwnStream(h, k, id)
    ensures GivenUp(k, s) && k.wires[s].down == h.wires[s].down
  {
    assert Live(k, s) <==> Live(h, s);
    hide Live;
  }

  lemma VoiceIsHeld(h: Host, s: Id)
    requires !Live(h, s)
    ensures forall id :: id in h.members ==> !Voice(h.members[id], s)
  {
    forall id | id in h.members && Voice(h.members[id], s)
      ensures false
    {
      VoiceLive(h, id, s);
    }
  }

  lemma JoiningLeavesHost(room: Room, s: Id)
    ensures Joining(room, s).host == room.host
  {
  }

  lemma StepLeavesGivenUp(cfg: Config, room: Room, step: Step, s: Id)
    requires GoodConfig(cfg) && RoomOk(cfg, room) && GivenUp(room.host, s)
    ensures var k := Do(cfg, room, step).host;
            && GivenUp(k, s) && k.wires[s].down == room.host.wires[s].down
            && (step == HostRead(s) ==> k.log == room.host.log && k.members == room.host.members)
  {
    hide HostOk, NodeOk, GuestStep, GivenUp, Evolves, TakesOver, TurnsAway, ReadUp, OwnStream;
    GivenUpWire(room.host, s);
    if step.GuestJoined? {
      JoiningLeavesHost(room, step.stream);
    } else if ByGuest(step) {
      if step.memberId in room.guests && room.guests[step.memberId].active {
        var n := room.guests[step.memberId];
        GuestStepOwnStream(cfg, room.host, n, step);
        OwnStreamLeavesGivenUp(room.host, GuestStep(cfg, room.host, n, step).0, n.id, s);
      }
    } else {
      HostStepGuarantee(cfg, room.host, step);
      StaysGivenUp(room.host, HostStep(cfg, room.host, step), s);
      if step == HostRead(s) {
        VoiceIsHeld(room.host, s);
        DetachedStreamIsMute(cfg, room.host, s);
      }
    }
  }

  lemma GivenUpWire(h: Host, s: Id)
    requires GivenUp(h, s)
    ensures s in h.wires && !Live(h, s)
  {
  }

  /**
   * For good: once the owner gave up a stream, it writes nothing on it in all
   * the rest of the run, and what it still reads from it changes neither the
   * log nor any member.
   */
  lemma {:induction false} GivenUpForGood(cfg: Config, owner: Id, token: Id, rooms: seq<Room>, steps: seq<Step>,
                                          i: nat, j: nat, s: Id)
    requires GoodConfig(cfg) && Run(cfg, owner, token, rooms, steps) && i <= j < |rooms|
    requires GivenUp(rooms[i].host, s)
    ensures GivenUp(rooms[j].host, s) && rooms[j].host.wires[s].down == rooms[i].host.wires[s].down
    ensures j < |steps| && steps[j] == HostRead(s) ==>
      rooms[j + 1].host.log == rooms[j].host.log && rooms[j + 1].host.members == rooms[j].host.members
    decreases j
  {
    hide Do, RoomOk, GivenUp;
    if i < j {
      GivenUpForGood(cfg, owner, token, rooms, steps, i, j - 1, s);
      RunOk(cfg, owner, token, rooms, steps, j - 1);
      assert rooms[j - 1 + 1] == Do(cfg, rooms[j - 1], steps[j - 1]);
      StepLeavesGivenUp(cfg, rooms[j - 1], steps[j - 1], s);
    }
    if j < |steps| {
      RunOk(cfg, owner, token, rooms, steps, j);
      assert rooms[j + 1] == Do(cfg, rooms[j], steps[j]);
      StepLeavesGivenUp(cfg, rooms[j], steps[j], s);
    }
  }
}
