/**
 * Log and roster replication, for every run of a room: what each guest has
 * applied is the owner's log, and what it believes about the members is what
 * was true at the owner at that point of the log.
 */
module RoomReplication {
  import opened Basics
  import opened RoomTypes
  import opened RoomHost
  import opened RoomHostSafety
  import opened RoomNode
  import opened RoomSystem
  import opened RoomGuarantee

  /**
   * The guest that was admitted at number `from` and took `heard` is at number
   * `to`: each event it applied is the owner's event with the next number, and
   * only an announced jump skips numbers, forwards.
   */
  ghost predicate Follows(log: seq<Event>, from: nat, heard: seq<Heard>, to: nat) {
    to <= |log|
    && if heard == [] then from == to
       else
         var before := heard[..|heard| - 1];
         match heard[|heard| - 1]
         case Applied(event) => to >= 1 && event == log[to - 1] && event.number == to
           && Follows(log, from, before, to - 1)
         case Jumped(start, number) => number == to && start <= to && Follows(log, from, before, start)
  }

  /** A stream the guest has adopted, or may still adopt. */
  ghost predicate StreamOk(h: Host, n: Node) {
    && n.stream in h.wires
    && h.wires[n.stream].peer == Some(n.id)
    && h.wires[n.stream].phase == Accepted
    && (forall j :: n.delivered <= j < |h.wires[n.stream].down| && h.wires[n.stream].down[j].Resync? ==>
          n.lastSeq <= h.wires[n.stream].down[j].number)
  }

  ghost predicate AttemptOk(h: Host, n: Node) {
    n.attempt.Some? ==>
      var a := n.attempt.value.stream;
      && a in h.wires && a != n.stream && h.wires[a].peer == Some(n.id)
      && (n.attempt.value.Resubmitting? ==> h.wires[a].phase == Accepted)
      && (h.wires[a].phase == Accepted && n.stream in h.wires ==>
            && !Live(h, n.stream)
            && n.lastSeq <= h.wires[a].base
            && (forall j :: 0 <= j < |h.wires[n.stream].down| ==> Reach(h.wires[n.stream].down[j]) <= h.wires[a].base))
  }

  ghost predicate NodeOk(h: Host, n: Node) {
    && n.owner == h.owner
    && Follows(h.log, n.joinedAt, n.heard, n.lastSeq)
    && n.members == WithSelf(RosterAt(h.owner, h.log, n.lastSeq), n.id)
    && StreamOk(h, n)
    && AttemptOk(h, n)
  }

  lemma NodeFacts(h: Host, n: Node)
    requires NodeOk(h, n)
    ensures AttemptOk(h, n) && StreamOk(h, n) && n.lastSeq <= |h.log|
  {
    hide AttemptOk, StreamOk, RosterOf;
  }

  ghost predicate RoomOk(cfg: Config, room: Room) {
    && HostOk(cfg, room.host)
    && (forall id :: id in room.guests ==> room.guests[id].id == id && NodeOk(room.host, room.guests[id]))
  }

  // ---- The owner's segments do not disturb a guest ----

  lemma {:induction false} FollowsGrows(log: seq<Event>, longer: seq<Event>, from: nat, heard: seq<Heard>, to: nat)
    requires log <= longer && Follows(log, from, heard, to)
    ensures Follows(longer, from, heard, to)
  {
    if heard != [] {
      var before := heard[..|heard| - 1];
      match heard[|heard| - 1]
      case Applied(event) => FollowsGrows(log, longer, from, before, to - 1);
      case Jumped(start, _) => FollowsGrows(log, longer, from, before, start);
    }
  }

  lemma HistoryKept(h: Host, k: Host, n: Node)
    requires k.owner == h.owner && h.log <= k.log && NodeOk(h, n)
    ensures n.owner == k.owner && n.lastSeq <= |h.log| && n.lastSeq <= |k.log|
      && Follows(k.log, n.joinedAt, n.heard, n.lastSeq)
    ensures n.members == WithSelf(RosterAt(k.owner, k.log, n.lastSeq), n.id)
  {
    FollowsGrows(h.log, k.log, n.joinedAt, n.heard, n.lastSeq);
    RosterExtends(h.owner, h.log, k.log[|h.log|..], n.lastSeq);
    assert k.log == h.log + k.log[|h.log|..];
  }

  lemma NodeSurvives(h: Host, k: Host, n: Node)
    requires NodeOk(h, n) && Evolves(h, k)
    ensures NodeOk(k, n)
  {
    HistoryKept(h, k, n);
    hide Live, Follows, RosterOf;
    assert WireEvolves(h.wires[n.stream], k.wires[n.stream], |h.log|);
    if n.attempt.Some? {
      var a := n.attempt.value.stream;
      assert WireEvolves(h.wires[a], k.wires[a], |h.log|);
    }
  }

  lemma NodeSurvivesTakeover(cfg: Config, h: Host, k: Host, s: Id, n: Node)
    requires NodeOk(h, n) && TakesOver(h, k, s) && HostOk(cfg, k)
    ensures NodeOk(k, n)
  {
    hide Live, Follows, RosterOf, HostOk;
    HistoryKept(h, k, n);
    assert n.stream != s;
    assert WireEvolves(h.wires[n.stream], k.wires[n.stream], |h.log|);
    FramesReach(cfg, k, n.stream);
    if n.attempt.Some? {
      var a := n.attempt.value.stream;
      if a != s {
        assert WireEvolves(h.wires[a], k.wires[a], |h.log|);
      }
    }
  }

  lemma FramesReach(cfg: Config, h: Host, s: Id)
    requires HostOk(cfg, h) && s in h.wires
    ensures forall j :: 0 <= j < |h.wires[s].down| ==> Reach(h.wires[s].down[j]) <= |h.log|
  {
    assert WireOk(h.wires[s], h.owner, h.log);
    forall j | 0 <= j < |h.wires[s].down|
      ensures Reach(h.wires[s].down[j]) <= |h.log|
    {
      assert FrameOk(h.wires[s].down[j], h.wires[s].peer, h.owner, h.log);
    }
  }

  lemma NodeSurvivesRefusal(h: Host, k: Host, s: Id, n: Node)
    requires NodeOk(h, n) && TurnsAway(h, k, s)
    ensures NodeOk(k, n)
  {
    HistoryKept(h, k, n);
    assert forall t :: Live(k, t) <==> Live(h, t);
    hide Live, Follows, RosterOf;
    assert n.stream != s;
  }

  // ---- A guest's own segments ----

  /** The next event of the log is acceptable to a guest that is in step with it. */
  lemma NextIsAcceptable(cfg: Config, h: Host, n: Node, event: Event)
    requires HostOk(cfg, h) && NodeOk(h, n)
    requires FrameOk(RoomEvent(event), Some(n.id), h.owner, h.log) && event.number == n.lastSeq + 1
    ensures n.lastSeq < |h.log| && event == h.log[n.lastSeq] && event.body != Left(n.id)
    ensures Acceptable(cfg, RosterAt(h.owner, h.log, n.lastSeq), event.body) && Acceptable(cfg, n.members, event.body)
  {
    assert LogOk(cfg, h.owner, h.log);
    hide HostOk, Follows, StreamOk, AttemptOk, ApplyBody;
    assert event == h.log[n.lastSeq];
    WithSelfCommutes(cfg, RosterAt(h.owner, h.log, n.lastSeq), n.id, event.body);
  }

  lemma FollowsNext(log: seq<Event>, from: nat, heard: seq<Heard>, to: nat, event: Event)
    requires Follows(log, from, heard, to) && to < |log| && event == log[to] && event.number == to + 1
    ensures Follows(log, from, heard + [Applied(event)], to + 1)
  {
    var longer := heard + [Applied(event)];
    assert longer[..|longer| - 1] == heard;
  }

  lemma StepNumber(cfg: Config, h: Host, n: Node, event: Event)
    requires HostOk(cfg, h) && NodeOk(h, n)
    requires FrameOk(RoomEvent(event), Some(n.id), h.owner, h.log)
    ensures Judge(cfg, n, event).InSequence? <==> event.number == n.lastSeq + 1
    ensures !Judge(cfg, n, event).Malformed?
    ensures var a := AcceptEvent(cfg, n, event);
            n.owner == h.owner && Follows(h.log, a.joinedAt, a.heard, a.lastSeq)
            && a.members == WithSelf(RosterAt(h.owner, h.log, a.lastSeq), a.id)
  {
    hide HostOk, StreamOk, AttemptOk, Follows, FrameOk, Acceptable, ApplyBody, WithSelf, RosterOf;
    if event.number == n.lastSeq + 1 {
      NextIsAcceptable(cfg, h, n, event);
      WithSelfCommutes(cfg, RosterAt(h.owner, h.log, n.lastSeq), n.id, event.body);
      RosterStep(h.owner, h.log, n.lastSeq);
      FollowsNext(h.log, n.joinedAt, n.heard, n.lastSeq, event);
    }
  }

  lemma FrameRead(cfg: Config, h: Host, n: Node)
    requires HostOk(cfg, h) && NodeOk(h, n) && n.delivered < |h.wires[n.stream].down|
    ensures n.stream in h.wires && n.owner == h.owner
    ensures FrameOk(h.wires[n.stream].down[n.delivered], Some(n.id), h.owner, h.log)
  {
    assert WireOk(h.wires[n.stream], h.owner, h.log);
  }

  /** Flags, pending texts and the read position are not part of what replication is about. */
  lemma FlagsOnly(h: Host, n: Node, a: Node)
    requires NodeOk(h, n)
    requires a == n.(active := a.active, delivered := a.delivered, reading := a.reading, recovering := a.recovering,
                     attempt := a.attempt, pending := a.pending, used := a.used)
    requires a.delivered >= n.delivered && (a.attempt == n.attempt || a.attempt == None)
    ensures NodeOk(h, a)
  {
  }

  /**
   * Reading one frame: a guest never finds an in-sequence event malformed or a
   * resync incomplete, stays on the log, and never goes back.
   */
  lemma TakeFrameOk(cfg: Config, h: Host, n: Node)
    requires HostOk(cfg, h) && NodeOk(h, n) && n.delivered < |h.wires[n.stream].down|
    ensures var f := h.wires[n.stream].down[n.delivered];
            var a := TakeFrame(cfg, n.(delivered := n.delivered + 1), f);
            && NodeOk(h, a) && a.id == n.id && n.lastSeq <= a.lastSeq
            && (f.RoomEvent? ==> !Judge(cfg, n, f.event).Malformed?)
            && (f.Resync? ==> n.owner in f.roster && n.id in f.roster)
  {
    hide HostOk, NodeOk, Acceptable, ApplyBody, WithSelf, AcceptEvent;
    FrameRead(cfg, h, n);
    var f := h.wires[n.stream].down[n.delivered];
    var read := n.(delivered := n.delivered + 1);
    var a := TakeFrame(cfg, read, f);
    FlagsOnly(h, n, read);
    if f.RoomEvent? {
      EventTaken(cfg, h, n);
      FlagsOnly(h, read, EndReading(read));
    } else if f.Resync? {
      ResyncTaken(cfg, h, n);
    } else {
      FlagsOnly(h, read, a);
    }
  }

  lemma EventTaken(cfg: Config, h: Host, n: Node)
    requires HostOk(cfg, h) && NodeOk(h, n) && n.delivered < |h.wires[n.stream].down|
    requires h.wires[n.stream].down[n.delivered].RoomEvent?
    ensures var f := h.wires[n.stream].down[n.delivered];
            var a := AcceptEvent(cfg, n.(delivered := n.delivered + 1), f.event);
            NodeOk(h, a) && a.id == n.id && n.lastSeq <= a.lastSeq && !Judge(cfg, n, f.event).Malformed?
  {
    hide HostOk, Follows, Live, RosterOf;
    var f := h.wires[n.stream].down[n.delivered];
    var read := n.(delivered := n.delivered + 1);
    FlagsOnly(h, n, read);
    FrameRead(cfg, h, n);
    StepNumber(cfg, h, read, f.event);
    EventKeepsStreams(cfg, h, n);
  }

  lemma ResyncTaken(cfg: Config, h: Host, n: Node)
    requires HostOk(cfg, h) && NodeOk(h, n) && n.delivered < |h.wires[n.stream].down|
    requires h.wires[n.stream].down[n.delivered].Resync?
    ensures var f := h.wires[n.stream].down[n.delivered];
            && NodeOk(h, TakeFrame(cfg, n.(delivered := n.delivered + 1), f))
            && n.lastSeq <= f.number && n.owner in f.roster && n.id in f.roster
  {
    hide HostOk, NodeOk, RosterOf;
    FrameRead(cfg, h, n);
    JumpAhead(cfg, h, n);
    ResyncKeeps(cfg, h, n);
  }

  /** Later resyncs of a stream reach at least as far as what came before them. */
  lemma ResyncsAhead(cfg: Config, h: Host, s: Id, i: nat)
    requires HostOk(cfg, h) && s in h.wires && i < |h.wires[s].down|
    ensures forall j :: i < j < |h.wires[s].down| && h.wires[s].down[j].Resync? ==>
      Reach(h.wires[s].down[i]) <= h.wires[s].down[j].number
  {
    assert WireOk(h.wires[s], h.owner, h.log);
  }

  lemma ReachedStreams(cfg: Config, h: Host, n: Node, a: Node)
    requires HostOk(cfg, h) && NodeOk(h, n) && n.delivered < |h.wires[n.stream].down|
    requires a.id == n.id && a.stream == n.stream && a.attempt == n.attempt && a.delivered == n.delivered + 1
    requires a.lastSeq == n.lastSeq || a.lastSeq == Reach(h.wires[n.stream].down[n.delivered])
    ensures StreamOk(h, a) && AttemptOk(h, a)
  {
    hide HostOk, Follows, Live, RosterOf;
    ResyncsAhead(cfg, h, n.stream, n.delivered);
  }

  lemma EventKeepsStreams(cfg: Config, h: Host, n: Node)
    requires HostOk(cfg, h) && NodeOk(h, n) && n.delivered < |h.wires[n.stream].down|
    requires h.wires[n.stream].down[n.delivered].RoomEvent?
    ensures var a := AcceptEvent(cfg, n.(delivered := n.delivered + 1), h.wires[n.stream].down[n.delivered].event);
            StreamOk(h, a) && AttemptOk(h, a)
  {
    hide HostOk, NodeOk, StreamOk, AttemptOk, Acceptable, ApplyBody;
    FrameRead(cfg, h, n);
    ReachedStreams(cfg, h, n, AcceptEvent(cfg, n.(delivered := n.delivered + 1),
                                          h.wires[n.stream].down[n.delivered].event));
  }

  lemma FollowsJump(log: seq<Event>, from: nat, heard: seq<Heard>, start: nat, number: nat)
    requires Follows(log, from, heard, start) && start <= number <= |log|
    ensures Follows(log, from, heard + [Jumped(start, number)], number)
  {
    var longer := heard + [Jumped(start, number)];
    assert longer[..|longer| - 1] == heard;
  }

  lemma ResyncKeeps(cfg: Config, h: Host, n: Node)
    requires HostOk(cfg, h) && NodeOk(h, n) && n.delivered < |h.wires[n.stream].down|
    requires h.wires[n.stream].down[n.delivered].Resync?
    ensures NodeOk(h, TakeFrame(cfg, n.(delivered := n.delivered + 1), h.wires[n.stream].down[n.delivered]))
  {
    hide HostOk, StreamOk, AttemptOk, RosterOf, Follows;
    FrameRead(cfg, h, n);
    var f := h.wires[n.stream].down[n.delivered];
    var a := TakeFrame(cfg, n.(delivered := n.delivered + 1), f);
    JumpAhead(cfg, h, n);
    FollowsJump(h.log, n.joinedAt, n.heard, n.lastSeq, f.number);
    ReachedStreams(cfg, h, n, a);
  }

  lemma JumpAhead(cfg: Config, h: Host, n: Node)
    requires HostOk(cfg, h) && NodeOk(h, n) && n.delivered < |h.wires[n.stream].down|
    requires h.wires[n.stream].down[n.delivered].Resync?
    ensures n.lastSeq <= h.wires[n.stream].down[n.delivered].number
  {
    hide HostOk, Follows, AttemptOk, RosterOf;
  }

  lemma AdoptOk(cfg: Config, h: Host, n: Node)
    requires HostOk(cfg, h) && NodeOk(h, n)
    requires n.attempt.Some? && n.attempt.value.Resubmitting?
    ensures NodeOk(h, n.(stream := n.attempt.value.stream, delivered := 1, reading := true, recovering := false,
                         attempt := None))
  {
    assert WireOk(h.wires[n.attempt.value.stream], h.owner, h.log);
    hide Live, Follows, HostOk, RosterOf;
  }

  lemma AnsweredOk(cfg: Config, h: Host, n: Node)
    requires HostOk(cfg, h) && NodeOk(h, n)
    requires n.attempt.Some? && n.attempt.value.Asked?
    requires var w := h.wires[n.attempt.value.stream]; w.down != [] && w.down[0].ResumeAccept?
    ensures NodeOk(h, n.(attempt := Some(Resubmitting(n.attempt.value.stream, n.pending))))
  {
    assert WireOk(h.wires[n.attempt.value.stream], h.owner, h.log);
    hide Live, Follows, HostOk, RosterOf;
  }

  lemma DialOk(cfg: Config, h: Host, n: Node, s: Id)
    requires HostOk(cfg, h) && NodeOk(h, n) && n.attempt.None? && s !in h.wires && n.id in h.issued
    ensures var k := h.(wires := h.wires[s := Wire(Some(n.id), n.lastSeq, Fresh, 0, [], false, [], 0)]);
            HostOk(cfg, k) && Evolves(h, k) && NodeOk(k, n.(attempt := Some(Asked(s))))
  {
    var w := Wire(Some(n.id), n.lastSeq, Fresh, 0, [], false, [], 0);
    var k := h.(wires := h.wires[s := w]);
    NewWireOk(cfg, h, s, w);
    WritesEvolve(h, k.wires);
    NodeSurvives(h, k, n);
  }

  lemma PostedWires(cfg: Config, h: Host, s: Id, frame: Up)
    requires HostOk(cfg, h) && s in h.wires
    ensures var wires := Post(h, s, frame).wires;
            forall t :: t in wires ==>
              WireOk(wires[t], h.owner, h.log) && (wires[t].peer.Some? ==> wires[t].peer.value in h.issued)
  {
    hide IdsOk, VoicesOk, LogOk, FrameOk;
  }

  lemma PostOk(cfg: Config, h: Host, s: Id, frame: Up)
    requires HostOk(cfg, h)
    ensures HostOk(cfg, Post(h, s, frame)) && Evolves(h, Post(h, s, frame))
  {
    hide HostOk, WireOk, Evolves;
    GuestWritesEvolve(h, s, frame);
    if s in h.wires {
      PostedWires(cfg, h, s, frame);
      SameButWires(cfg, h, Post(h, s, frame).wires);
    }
  }

  lemma GuestReadsOk(cfg: Config, h: Host, n: Node, step: Step)
    requires HostOk(cfg, h) && NodeOk(h, n) && step.GuestReads?
    ensures var (k, a) := GuestStep(cfg, h, n, step);
            k == h && NodeOk(h, a) && a.id == n.id && n.lastSeq <= a.lastSeq
  {
    hide HostOk, NodeOk, TakeFrame;
    if n.reading && n.stream in h.wires && n.delivered < |h.wires[n.stream].down| {
      TakeFrameOk(cfg, h, n);
    }
  }

  /** Writing a frame and changing only flags and pending texts. */
  lemma PostedOk(cfg: Config, h: Host, n: Node, s: Id, frame: Up, a: Node)
    requires HostOk(cfg, h) && NodeOk(h, n)
    requires a == n.(active := a.active, reading := a.reading, attempt := a.attempt, pending := a.pending,
                     used := a.used)
    requires a.attempt == n.attempt || a.attempt == None
      || (n.attempt.Some? && n.attempt.value.Resubmitting? && a.attempt.Some? && a.attempt.value.Resubmitting?
          && a.attempt.value.stream == n.attempt.value.stream)
    ensures HostOk(cfg, Post(h, s, frame)) && Evolves(h, Post(h, s, frame)) && NodeOk(Post(h, s, frame), a)
  {
    hide HostOk, NodeOk, Evolves, Post;
    PostOk(cfg, h, s, frame);
    var k := Post(h, s, frame);
    NodeSurvives(h, k, n);
    if a.attempt == n.attempt || a.attempt == None {
      FlagsOnly(k, n, a);
    } else {
      var b := n.(attempt := a.attempt);
      RestOk(k, n, b);
      FlagsOnly(k, b, a);
    }
  }

  lemma GuestPostsOk(cfg: Config, h: Host, n: Node, step: Step)
    requires HostOk(cfg, h) && NodeOk(h, n)
    requires step.GuestTexts? || step.GuestResubmits? || step.GuestCloses?
    ensures var (k, a) := GuestStep(cfg, h, n, step);
            HostOk(cfg, k) && Evolves(h, k) && NodeOk(k, a) && a.id == n.id && n.lastSeq == a.lastSeq
  {
    hide HostOk, NodeOk, Evolves, Post, ValidText;
    Reflagged(h, h);
    var (k, a) := GuestStep(cfg, h, n, step);
    match step
    case GuestTexts(_, submission) =>
      if a != n {
        PostedOk(cfg, h, n, n.stream, TextSubmit(submission), a);
      }
    case GuestResubmits(_) =>
      if a != n {
        PostedOk(cfg, h, n, n.attempt.value.stream, TextSubmit(n.attempt.value.rest[0]), a);
      }
    case GuestCloses(_) =>
      PostedOk(cfg, h, n, n.stream, Leave, a);
      FlagsOnly(h, n, a);
  }

  lemma GuestAnsweredOk(cfg: Config, h: Host, n: Node, step: Step)
    requires HostOk(cfg, h) && NodeOk(h, n) && step.GuestAnswered?
    ensures var (k, a) := GuestStep(cfg, h, n, step);
            k == h && NodeOk(h, a) && a.id == n.id && n.lastSeq == a.lastSeq
  {
    hide HostOk, NodeOk;
    var a := GuestStep(cfg, h, n, step).1;
    if a.attempt.Some? && a != n {
      AnsweredOk(cfg, h, n);
    } else {
      FlagsOnly(h, n, a);
    }
  }

  lemma GuestAdoptsOk(cfg: Config, h: Host, n: Node, step: Step)
    requires HostOk(cfg, h) && NodeOk(h, n) && step.GuestAdopts?
    ensures var (k, a) := GuestStep(cfg, h, n, step);
            k == h && NodeOk(h, a) && a.id == n.id && n.lastSeq == a.lastSeq
  {
    hide HostOk, NodeOk;
    if GuestStep(cfg, h, n, step).1 != n {
      AdoptOk(cfg, h, n);
    }
  }

  lemma GuestDialsOk(cfg: Config, h: Host, n: Node, step: Step)
    requires HostOk(cfg, h) && NodeOk(h, n) && n.id in h.issued && step.GuestDials?
    ensures var (k, a) := GuestStep(cfg, h, n, step);
            HostOk(cfg, k) && Evolves(h, k) && NodeOk(k, a) && a.id == n.id && n.lastSeq == a.lastSeq
  {
    hide HostOk, NodeOk, Evolves;
    Reflagged(h, h);
    if n.recovering && n.attempt.None? && step.stream !in h.wires {
      DialOk(cfg, h, n, step.stream);
    }
  }

  lemma GuestFlagsOk(cfg: Config, h: Host, n: Node, step: Step)
    requires NodeOk(h, n) && (step.GuestAbandons? || step.GuestStreamEnds? || step.GuestSendFails?)
    ensures var (k, a) := GuestStep(cfg, h, n, step);
            k == h && NodeOk(h, a) && a.id == n.id && n.lastSeq == a.lastSeq
  {
    hide NodeOk;
    FlagsOnly(h, n, GuestStep(cfg, h, n, step).1);
  }

  lemma GuestStepOk(cfg: Config, h: Host, n: Node, step: Step)
    requires HostOk(cfg, h) && NodeOk(h, n) && n.id in h.issued && ByGuest(step)
    ensures var (k, a) := GuestStep(cfg, h, n, step);
            HostOk(cfg, k) && Evolves(h, k) && NodeOk(k, a) && a.id == n.id && n.lastSeq <= a.lastSeq
  {
    hide HostOk, NodeOk, Evolves, GuestStep;
    if step.GuestReads? {
      GuestReadsOk(cfg, h, n, step);
      Reflagged(h, h);
    } else if step.GuestTexts? || step.GuestResubmits? || step.GuestCloses? {
      GuestPostsOk(cfg, h, n, step);
    } else if step.GuestDials? {
      GuestDialsOk(cfg, h, n, step);
    } else {
      Reflagged(h, h);
      if step.GuestAnswered? {
        GuestAnsweredOk(cfg, h, n, step);
      } else if step.GuestAdopts? {
        GuestAdoptsOk(cfg, h, n, step);
      } else {
        GuestFlagsOk(cfg, h, n, step);
      }
    }
  }

  lemma RestOk(h: Host, n: Node, a: Node)
    requires NodeOk(h, n) && n.attempt.Some? && n.attempt.value.Resubmitting?
    requires a.attempt.Some? && a.attempt.value.Resubmitting? && a.attempt.value.stream == n.attempt.value.stream
    requires a == n.(attempt := a.attempt)
    ensures NodeOk(h, a)
  {
  }

  lemma JoiningOk(cfg: Config, room: Room, s: Id)
    requires RoomOk(cfg, room)
    ensures RoomOk(cfg, Joining(room, s))
  {
    hide HostOk, NodeOk;
    var after := Joining(room, s);
    if after != room {
      NewcomerOk(cfg, room.host, s, after.guests[room.host.wires[s].down[0].memberId]);
    }
  }

  lemma NewcomerOk(cfg: Config, h: Host, s: Id, n: Node)
    requires HostOk(cfg, h) && s in h.wires && h.wires[s].down != [] && h.wires[s].down[0].JoinAccept?
    requires var accept := h.wires[s].down[0];
             n == Node(h.owner, accept.memberId, true, accept.number, accept.roster, s, 1, true, false, None, [],
                       accept.number, [], {})
    ensures NodeOk(h, n)
  {
    hide HostOk, Live, RosterOf;
    JoinedWire(cfg, h, s);
    ResyncsAhead(cfg, h, s, 0);
  }

  /** Only an accepted join stream carries an acceptance frame. */
  lemma JoinedWire(cfg: Config, h: Host, s: Id)
    requires HostOk(cfg, h) && s in h.wires && h.wires[s].down != [] && h.wires[s].down[0].JoinAccept?
    ensures h.wires[s].phase == Accepted
    ensures FrameOk(h.wires[s].down[0], h.wires[s].peer, h.owner, h.log)
  {
    assert WireOk(h.wires[s], h.owner, h.log);
  }

  // ---- Every step, every run ----

  lemma HostStepGuarantee(cfg: Config, h: Host, step: Step)
    requires GoodConfig(cfg) && HostOk(cfg, h) && !ByGuest(step) && !step.GuestJoined?
    ensures var k := HostStep(cfg, h, step);
            HostOk(cfg, k) && (Evolves(h, k) || exists s :: TakesOver(h, k, s) || TurnsAway(h, k, s))
  {
    hide HostOk, Evolves, TakesOver, TurnsAway, AcceptJoinRequest, DropPending, RejectPending, ApproveBegin,
      ApproveVerified,
      ApproveCommit, SetJoinsPaused, SetRoomPaused, RotateInvitation, MarkReconnecting, RemoveMember, AcceptResume,
          ContinueResume,
      ReadUp, Shut, CloseRoom;
    match step
    case HostJoinRequest(s, r, token, wellFormed) =>
      AcceptJoinRequestOk(cfg, h, s, r, token, wellFormed);
      JoinRequestEvolves(h, cfg, s, r, token, wellFormed);
    case HostDropPending(r) => RejectPendingOk(cfg, h, r); RejectEvolves(h, r);
    case HostReject(r) => RejectPendingOk(cfg, h, r); RejectEvolves(h, r); Reflagged(h, h);
    case HostApproveBegin(r, expired) => ApproveBeginOk(cfg, h, r, expired); ApproveBeginEvolves(h, cfg, r, expired);
    case HostApproveVerified(r, verified, expired, id) =>
      ApproveVerifiedOk(cfg, h, r, verified, expired, id);
      ApproveVerifiedEvolves(cfg, h, r, verified, expired, id);
    case HostApproveCommit(r, written) => ApproveCommitOk(cfg, h, r, written); ApproveCommitEvolves(h, r, written);
    case HostPauseJoins(paused) => PauseOk(cfg, h, paused); PauseEvolves(h, paused);
    case HostPauseRoom(paused) => PauseOk(cfg, h, paused); PauseEvolves(h, paused);
    case HostRotate(token) => RotateOk(cfg, h, token); RotateEvolves(h, token);
    case HostMarkReconnecting(id) => MarkReconnectingOk(cfg, h, id); MarkEvolves(h, id);
    case HostRemove(id, notify) => RemoveMemberOk(cfg, h, id, notify); RemoveEvolves(h, id, notify);
    case HostAcceptResume(s, inTime) => AcceptResumeOk(cfg, h, s, inTime); AcceptResumeGuarantee(cfg, h, s, inTime);
    case HostContinueResume(id, ok) => ContinueResumeOk(cfg, h, id, ok); ContinueEvolves(cfg, h, id, ok);
    case HostRead(s) => ReadUpOk(cfg, h, s); ReadEvolves(cfg, h, s);
    case HostText(submission) =>
      OwnerTextOk(cfg, h, submission);
      Reflagged(h, h);
      CommitEvolves(h, Text(h.owner, submission.clientEventId, submission.text));
    case HostWriterFails(s) => ShutOk(cfg, h, s); ShutEvolves(h, s);
    case HostClose => CloseRoomOk(cfg, h); CloseEvolves(h);
  }

  lemma GuestsSurvive(cfg: Config, room: Room, k: Host)
    requires RoomOk(cfg, room) && HostOk(cfg, k)
    requires Evolves(room.host, k) || exists s :: TakesOver(room.host, k, s) || TurnsAway(room.host, k, s)
    ensures RoomOk(cfg, Room(k, room.guests))
  {
    hide HostOk, NodeOk, Evolves, TakesOver, TurnsAway;
    forall id | id in room.guests
      ensures NodeOk(k, room.guests[id])
    {
      if Evolves(room.host, k) {
        NodeSurvives(room.host, k, room.guests[id]);
      } else {
        var s :| TakesOver(room.host, k, s) || TurnsAway(room.host, k, s);
        if TakesOver(room.host, k, s) {
          NodeSurvivesTakeover(cfg, room.host, k, s, room.guests[id]);
        } else {
          NodeSurvivesRefusal(room.host, k, s, room.guests[id]);
        }
      }
    }
  }

  lemma NodeIssued(cfg: Config, h: Host, n: Node)
    requires HostOk(cfg, h) && NodeOk(h, n)
    ensures n.id in h.issued
  {
  }

  /** One step anywhere in the room keeps everything, and no guest's number goes back. */
  lemma StepOk(cfg: Config, room: Room, step: Step)
    requires GoodConfig(cfg) && RoomOk(cfg, room)
    ensures RoomOk(cfg, Do(cfg, room, step))
    ensures forall id :: id in room.guests ==>
      id in Do(cfg, room, step).guests && room.guests[id].lastSeq <= Do(cfg, room, step).guests[id].lastSeq
  {
    hide HostOk, NodeOk, Evolves, TakesOver, TurnsAway, GuestStep, HostStep;
    if step.GuestJoined? {
      JoiningOk(cfg, room, step.stream);
    } else if ByGuest(step) {
      if step.memberId in room.guests && room.guests[step.memberId].active {
        var n := room.guests[step.memberId];
        NodeIssued(cfg, room.host, n);
        GuestStepOk(cfg, room.host, n, step);
        var (k, a) := GuestStep(cfg, room.host, n, step);
        GuestsSurvive(cfg, room, k);
      }
    } else {
      HostStepGuarantee(cfg, room.host, step);
      GuestsSurvive(cfg, room, HostStep(cfg, room.host, step));
    }
  }

  lemma {:induction false} RunOk(cfg: Config, owner: Id, token: Id, rooms: seq<Room>, steps: seq<Step>, i: nat)
    requires GoodConfig(cfg) && Run(cfg, owner, token, rooms, steps) && i < |rooms|
    ensures RoomOk(cfg, rooms[i])
  {
    hide HostOk, Do;
    if i == 0 {
      OpeningOk(cfg, owner, token);
    } else {
      RunOk(cfg, owner, token, rooms, steps, i - 1);
      assert rooms[i - 1 + 1] == Do(cfg, rooms[i - 1], steps[i - 1]);
      StepOk(cfg, rooms[i - 1], steps[i - 1]);
    }
  }

  /** The numbers of the events a guest applied, in the order it applied them. */
  function AppliedEvents(heard: seq<Heard>): seq<Event> {
    if heard == [] then []
    else
      var last := heard[|heard| - 1];
      AppliedEvents(heard[..|heard| - 1]) + (if last.Applied? then [last.event] else [])
  }

  /** Events of the log with numbers after `from` and up to `to`, each at its own place. */
  ghost predicate Excerpt(log: seq<Event>, from: nat, applied: seq<Event>, to: nat)
    requires to <= |log|
  {
    && (forall i :: 0 <= i < |applied| ==> from < applied[i].number <= to && log[applied[i].number - 1] == applied[i])
    && (forall i, j :: 0 <= i < j < |applied| ==> applied[i].number < applied[j].number)
  }

  lemma ExcerptGrows(log: seq<Event>, from: nat, applied: seq<Event>, to: nat)
    requires from <= to < |log| && Excerpt(log, from, applied, to) && log[to].number == to + 1
    ensures Excerpt(log, from, applied + [log[to]], to + 1)
  {
  }

  lemma ExcerptWidens(log: seq<Event>, from: nat, applied: seq<Event>, to: nat, further: nat)
    requires to <= further <= |log| && Excerpt(log, from, applied, to)
    ensures Excerpt(log, from, applied, further)
  {
  }

  lemma {:induction false} AppliedInOrder(log: seq<Event>, from: nat, heard: seq<Heard>, to: nat)
    requires Follows(log, from, heard, to)
    ensures from <= to <= |log| && Excerpt(log, from, AppliedEvents(heard), to)
  {
    if heard != [] {
      var before, last := heard[..|heard| - 1], heard[|heard| - 1];
      hide Excerpt;
      match last
      case Applied(event) =>
        AppliedInOrder(log, from, before, to - 1);
        ExcerptGrows(log, from, AppliedEvents(before), to - 1);
      case Jumped(start, number) =>
        AppliedInOrder(log, from, before, start);
        ExcerptWidens(log, from, AppliedEvents(before), start, to);
        assert AppliedEvents(before) + [] == AppliedEvents(before);
    }
  }

  lemma {:induction false} AppliedIsLog(log: seq<Event>, from: nat, heard: seq<Heard>, to: nat)
    requires Follows(log, from, heard, to)
    requires forall k :: 0 <= k < |heard| ==> heard[k].Applied?
    ensures from <= to && AppliedEvents(heard) == log[from..to]
  {
    if heard != [] {
      AppliedIsLog(log, from, heard[..|heard| - 1], to - 1);
      assert log[from..to] == log[from..to - 1] + [log[to - 1]];
    }
  }

  /**
   * Log replication. In every run, what a guest has applied are events of the
   * owner's log with their own numbers, strictly increasing, each once; without
   * a resync it is exactly the log from its admission to its current number.
   */
  lemma LogReplication(cfg: Config, owner: Id, token: Id, rooms: seq<Room>, steps: seq<Step>, i: nat, id: Id)
    requires GoodConfig(cfg) && Run(cfg, owner, token, rooms, steps)
    requires i < |rooms| && id in rooms[i].guests
    ensures var n := rooms[i].guests[id];
            var log := rooms[i].host.log;
            var applied := AppliedEvents(n.heard);
            && n.joinedAt <= n.lastSeq <= |log|
            && Excerpt(log, n.joinedAt, applied, n.lastSeq)
            && ((forall j :: 0 <= j < |n.heard| ==> n.heard[j].Applied?) ==> applied == log[n.joinedAt..n.lastSeq])
  {
    RunOk(cfg, owner, token, rooms, steps, i);
    var n := rooms[i].guests[id];
    AppliedInOrder(rooms[i].host.log, n.joinedAt, n.heard, n.lastSeq);
    if forall j :: 0 <= j < |n.heard| ==> n.heard[j].Applied? {
      AppliedIsLog(rooms[i].host.log, n.joinedAt, n.heard, n.lastSeq);
    }
  }

  /**
   * Roster replication. A guest's picture of the members is the owner's at
   * number `lastSeq`, plus the guest itself until its own join is applied; and
   * the owner's own picture is the one its log describes.
   */
  lemma RosterReplication(cfg: Config, owner: Id, token: Id, rooms: seq<Room>, steps: seq<Step>, i: nat, id: Id)
    requires GoodConfig(cfg) && Run(cfg, owner, token, rooms, steps)
    requires i < |rooms| && id in rooms[i].guests
    ensures var h := rooms[i].host;
            var n := rooms[i].guests[id];
            && Faces(h.members) == RosterAt(h.owner, h.log, |h.log|)
            && n.lastSeq <= |h.log|
            && n.members == WithSelf(RosterAt(h.owner, h.log, n.lastSeq), id)
  {
    RunOk(cfg, owner, token, rooms, steps, i);
    var h := rooms[i].host;
    assert h.log[..|h.log|] == h.log;
    var n := rooms[i].guests[id];
    assert Follows(h.log, n.joinedAt, n.heard, n.lastSeq);
  }

  /** The log only grows, and no guest ever goes back, over any stretch of a run. */
  lemma {:induction false} NeverBack(cfg: Config, owner: Id, token: Id, rooms: seq<Room>, steps: seq<Step>, i: nat,
                                     j: nat, id: Id)
    requires GoodConfig(cfg) && Run(cfg, owner, token, rooms, steps)
    requires i <= j < |rooms| && id in rooms[i].guests
    ensures id in rooms[j].guests && rooms[i].guests[id].lastSeq <= rooms[j].guests[id].lastSeq
  {
    hide RoomOk, Do;
    if i < j {
      NeverBack(cfg, owner, token, rooms, steps, i, j - 1, id);
      RunOk(cfg, owner, token, rooms, steps, j - 1);
      assert rooms[j - 1 + 1] == Do(cfg, rooms[j - 1], steps[j - 1]);
      StepOk(cfg, rooms[j - 1], steps[j - 1]);
    }
  }

  /**
   * An honest guest never rejects an honest owner: whatever frame it reads
   * next, an event in sequence is well formed for it and a resync is complete.
   */
  lemma NothingMalformed(cfg: Config, owner: Id, token: Id, rooms: seq<Room>, steps: seq<Step>, i: nat, id: Id)
    requires GoodConfig(cfg) && Run(cfg, owner, token, rooms, steps)
    requires i < |rooms| && id in rooms[i].guests
    ensures var h := rooms[i].host;
            var n := rooms[i].guests[id];
            n.stream in h.wires && (n.delivered < |h.wires[n.stream].down| ==>
              var f := h.wires[n.stream].down[n.delivered];
              && (f.RoomEvent? ==> !Judge(cfg, n, f.event).Malformed?)
              && (f.Resync? ==> n.owner in f.roster && n.id in f.roster && n.lastSeq <= f.number))
  {
    RunOk(cfg, owner, token, rooms, steps, i);
    var n := rooms[i].guests[id];
    if n.delivered < |rooms[i].host.wires[n.stream].down| {
      TakeFrameOk(cfg, rooms[i].host, n);
    }
  }
}
