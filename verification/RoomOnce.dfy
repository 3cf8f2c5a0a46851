/**
 * At most once: a text that a guest submits, and submits again after every
 * recovery, enters the owner's log at most once, although the owner remembers
 * only a bounded window of ids. It holds for every guest that no resync has
 * carried past a committed text of its own while that was pending, if the
 * window is three times as large as the guest's bound on pending texts.
 */
module RoomOnce {
  import opened Basics
  import opened RoomTypes
  import opened ReplayBuffer
  import opened EventDeduper
  import opened RoomHost
  import opened RoomHostSafety
  import opened RoomNode
  import opened RoomSystem
  import opened RoomGuarantee
  import opened RoomReplication
  import opened RoomCatchUp
  import opened RoomSeamless
  import opened RoomTexts
  import opened RoomUps
  import opened RoomRejections
  import opened RoomStranded
  import opened RoomResends
  import opened RoomReads
  import opened RoomSends

  // ---- One guest's step ----

  lemma AnswersOnce(cfg: Config, h: Host, n: Node, v: Note, step: Step)
    requires HostOk(cfg, h) && Once(cfg, h, n, v) && step.GuestAnswered?
    ensures var (k, a) := GuestStep(cfg, h, n, step);
            k == h && Once(cfg, h, a, v)
  {
    hide HostOk, Once, DistinctSubmissions, IdsOf, TakeFrame, ValidText, Post;
    OnceDistinct(cfg, h, n, v);
    var a := GuestStep(cfg, h, n, step).1;
    if a.attempt.Some? && a != n {
      AnsweredOnce(cfg, h, n, v);
    } else {
      OnceFlags(cfg, h, n, v, a);
    }
  }

  lemma AdoptsOrNot(cfg: Config, h: Host, n: Node, v: Note, step: Step) returns (u: Note)
    requires NodeOk(h, n) && InStep(h, n) && Once(cfg, h, n, v) && step.GuestAdopts?
    ensures var (k, a) := GuestStep(cfg, h, n, step);
            k == h && Once(cfg, h, a, u)
  {
    hide NodeOk, InStep, Once, Resumed, TakeFrame, ValidText, Post, Adopted;
    u := v;
    if n.attempt.Some? && n.attempt.value.Resubmitting? && n.attempt.value.rest == [] {
      AttemptResumed(h, n);
      AdoptsOnce(cfg, h, n, v);
      u := Adopted(h, n, v);
    }
  }

  lemma AttemptResumed(h: Host, n: Node)
    requires InStep(h, n) && n.attempt.Some? && n.attempt.value.Resubmitting?
    ensures n.attempt.value.stream in h.wires && Resumed(h.wires[n.attempt.value.stream])
  {
    hide Reached;
  }

  lemma OtherStepsOnce(cfg: Config, h: Host, n: Node, v: Note, step: Step)
    requires NodeOk(h, n) && Once(cfg, h, n, v)
    requires step.GuestStreamEnds? || step.GuestSendFails? || step.GuestAbandons? || step.GuestCloses?
    ensures var (k, a) := GuestStep(cfg, h, n, step);
            Once(cfg, k, a, v)
  {
    hide NodeOk, Once, Post, DistinctSubmissions, IdsOf, TakeFrame, ValidText;
    OnceDistinct(cfg, h, n, v);
    var (k, a) := GuestStep(cfg, h, n, step);
    if step.GuestCloses? && !n.recovering {
      LeavesOnce(cfg, h, n, v);
    }
    OnceFlags(cfg, k, n, v, a);
  }

  /** The guest that acts keeps its own part, unless the step strands a text. */
  lemma GuestStepOnce(cfg: Config, h: Host, n: Node, v: Note, step: Step) returns (u: Note)
    requires HostOk(cfg, h) && NodeOk(h, n) && InStep(h, n) && Once(cfg, h, n, v) && ByGuest(step)
    requires Attributed(h.wires) && AllRejectionsOk(h.wires)
    requires StaysClear(cfg, h, n, step)
    ensures var (k, a) := GuestStep(cfg, h, n, step);
            Once(cfg, k, a, u)
  {
    u := v;
    hide HostOk, NodeOk, InStep, Once, Attributed, AllRejectionsOk, TakeFrame, ValidText, Post, StaysClear;
    match step
    case GuestReads(_) =>
      if n.reading && n.stream in h.wires && n.delivered < |h.wires[n.stream].down| {
        u := ReadsOnce(cfg, h, n, v, step);
      }
    case GuestTexts(_, submission) =>
      if !n.recovering && |n.pending| < cfg.sendQueueMaxFrames && submission.clientEventId !in n.used {
        TextsOnce(cfg, h, n, v, submission);
      }
    case GuestDials(_, s) =>
      if n.recovering && n.attempt.None? && s !in h.wires {
        DialsOnce(cfg, h, n, v, s);
      }
    case GuestAnswered(_) => AnswersOnce(cfg, h, n, v, step);
    case GuestResubmits(_) =>
      if n.attempt.Some? && n.attempt.value.Resubmitting? && n.attempt.value.rest != [] {
        ResubmitsOnce(cfg, h, n, v);
      }
    case GuestAdopts(_) => u := AdoptsOrNot(cfg, h, n, v, step);
    case _ => OtherStepsOnce(cfg, h, n, v, step);
  }

  lemma OthersCarried(h: Host, k: Host, id: Id, other: Id)
    requires OwnStream(h, k, id) && id != other
    ensures Carried(h, k, other)
  {
    assert forall t :: Live(k, t) <==> Live(h, t);
    hide Live, Written;
  }

  lemma OwnStreamRejections(h: Host, k: Host, id: Id)
    requires OwnStream(h, k, id) && Attributed(h.wires) && AllRejectionsOk(h.wires)
    ensures AllRejectionsOk(k.wires)
  {
    hide RejectionsOk;
    forall s | s in k.wires
      ensures RejectionsOk(k.wires[s])
    {
      if s !in h.wires {
        FirstRefusal(k.wires[s]);
      } else if k.wires[s] != h.wires[s] {
        PostedRejections(h.wires[s], k.wires[s].up[|k.wires[s].up| - 1]);
      }
    }
  }

  // ---- The whole room ----

  /** The guests in `notes` are those that never stranded a text. */
  ghost predicate OnceOk(cfg: Config, room: Room, notes: map<Id, Note>) {
    && Silent(room)
    && AllRejectionsOk(room.host.wires)
    && notes.Keys <= room.guests.Keys
    && forall id :: id in notes ==> Once(cfg, room.host, room.guests[id], notes[id])
  }

  lemma GuestActs(cfg: Config, room: Room, notes: map<Id, Note>, step: Step) returns (after: map<Id, Note>)
    requires RoomOk(cfg, room) && SeamlessOk(room) && OnceOk(cfg, room, notes) && ByGuest(step)
    requires step.memberId in room.guests && room.guests[step.memberId].active
    ensures OnceOk(cfg, Do(cfg, room, step), after)
    ensures notes.Keys - {step.memberId} <= after.Keys
    ensures step.memberId in notes && StaysClear(cfg, room.host, room.guests[step.memberId], step) ==>
      step.memberId in after
  {
    hide HostOk, NodeOk, InStep, CatchUpOk, Once, Carried, GuestStep, Attributed, Written, AllRejectionsOk, StaysClear;
    var n := room.guests[step.memberId];
    var (k, a) := GuestStep(cfg, room.host, n, step);
    GuestStepOwnStream(cfg, room.host, n, step);
    OwnStreamAttributed(room.host, k, n.id, room.guests.Keys);
    OwnStreamRejections(room.host, k, n.id);
    after := notes - {n.id};
    if n.id in notes && StaysClear(cfg, room.host, n, step) {
      var u := GuestStepOnce(cfg, room.host, n, notes[n.id], step);
      after := notes[n.id := u];
    }
    forall id | id in notes && id != step.memberId
      ensures Once(cfg, k, room.guests[id], after[id])
    {
      OthersCarried(room.host, k, n.id, id);
      NodeFacts(room.host, room.guests[id]);
      OnceCarried(cfg, room.host, k, room.guests[id], notes[id]);
    }
  }

  // ---- The owner's steps ----

  lemma OnlyTakeoversAccept(h: Host, k: Host, s: Id)
    requires Guaranteed(h, k) && s in h.wires && s in k.wires
    ensures h.wires[s].phase != Accepted && k.wires[s].phase == Accepted ==> TakesOver(h, k, s)
  {
    hide Live;
    if Evolves(h, k) {
      assert WireEvolves(h.wires[s], k.wires[s], |h.log|);
    } else {
      var t :| TakesOver(h, k, t) || TurnsAway(h, k, t);
      if TakesOver(h, k, t) && t != s {
        assert WireEvolves(h.wires[s], k.wires[s], |h.log|);
      }
    }
  }

  /** A stream that is taken over leaves its member no other. */
  lemma TakenIsSole(h: Host, k: Host, id: Id, s: Id)
    requires TakesOver(h, k, s) && UpsAhead(h.wires, k.wires) && Attributed(h.wires) && h.wires[s].peer == Some(id)
    ensures Sole(k, id, s)
  {
    hide Live;
    forall t | t in k.wires && t != s && k.wires[t].peer == Some(id) && Live(k, t)
      ensures k.wires[t].up == []
    {
      if t in h.wires {
        assert WireAhead(h.wires[t], k.wires[t]);
        assert WireEvolves(h.wires[t], k.wires[t], |h.log|);
      }
    }
  }

  lemma SegmentCarried(cfg: Config, h: Host, k: Host, id: Id)
    requires HostOk(cfg, h) && Guaranteed(h, k) && UpsAhead(h.wires, k.wires) && Attributed(h.wires)
    requires Written(k.log, id) == Written(h.log, id)
    requires forall s :: s in h.wires && s in k.wires && (h.wires[s].peer == Some(id) || h.wires[s].peer == None) ==>
      SettledFrom(Written(h.log, id), k.wires[s], |h.wires[s].down|)
    ensures Carried(h, k, id)
  {
    GuaranteedWires(cfg, h, k);
    forall s | s in h.wires && s in k.wires && h.wires[s].phase != Accepted && h.wires[s].peer == Some(id)
        && k.wires[s].phase == Accepted
      ensures Sole(k, id, s)
    {
      OnlyTakeoversAccept(h, k, s);
      TakenIsSole(h, k, id, s);
    }
    hide HostOk, Guaranteed, Live, Written, SettledFrom, Sole, FloorKept, PeerKept, WireAhead;
    forall s | s in k.wires && s !in h.wires
      ensures !Opened(k.wires[s])
    {
      FirstRefusal(k.wires[s]);
    }
  }

  lemma QuietSettled(wr: seq<Entry>, a: Wire, b: Wire)
    requires NoRejection(a.down, b.down)
    ensures SettledFrom(wr, b, |a.down|)
  {
    hide Floor;
  }

  lemma AheadThenSame(a: map<Id, Wire>, b: map<Id, Wire>, c: map<Id, Wire>)
    requires UpsAhead(a, b) && SameUps(b, c) && a.Keys == b.Keys
    ensures UpsAhead(a, c)
  {
  }

  /** Reading a frame, or not, the owner committed and rejected nothing a guest wrote. */
  lemma QuietCarried(cfg: Config, h: Host, read: Host, k: Host, id: Id)
    requires HostOk(cfg, h) && Guaranteed(h, k) && Attributed(h.wires) && id != h.owner
    requires UpsOwned(read, k) && read == h.(wires := read.wires) && UpsAhead(h.wires, read.wires)
      && read.wires.Keys == h.wires.Keys
    requires forall s :: s in h.wires ==> read.wires[s].down == h.wires[s].down
    ensures Carried(h, k, id) && UpsAhead(h.wires, k.wires)
  {
    WordlessWritten(read, k, id);
    AheadThenSame(h.wires, read.wires, k.wires);
    hide HostOk, Guaranteed, Written, Wordless, UpsAhead, Attributed, Carried, SettledFrom, NoRejection;
    forall s | s in h.wires && s in k.wires
      ensures SettledFrom(Written(h.log, id), k.wires[s], |h.wires[s].down|)
    {
      QuietSettled(Written(h.log, id), read.wires[s], k.wires[s]);
    }
    SegmentCarried(cfg, h, k, id);
  }

  /** Taken over all guests: the owner's segment carried what matters to each of them. */
  lemma HostActsQuietly(cfg: Config, room: Room, notes: map<Id, Note>, k: Host)
    requires RoomOk(cfg, room) && OnceOk(cfg, room, notes) && AllRejectionsOk(k.wires)
    requires Guaranteed(room.host, k) && UpsAhead(room.host.wires, k.wires)
    requires forall id :: id != room.host.owner ==> Written(k.log, id) == Written(room.host.log, id)
    requires forall id :: id in notes ==> Carried(room.host, k, id)
    ensures OnceOk(cfg, Room(k, room.guests), notes)
  {
    hide HostOk, NodeOk, Once, Guaranteed, Live, Written, AllRejectionsOk, FloorKept, Carried, UpsAhead, Attributed;
    GuaranteedWires(cfg, room.host, k);
    GuaranteedOwner(room.host, k);
    SilentKept(room, k, k.owner);
    forall id | id in notes
      ensures Once(cfg, k, room.guests[id], notes[id])
    {
      NodeFacts(room.host, room.guests[id]);
      OnceCarried(cfg, room.host, k, room.guests[id], notes[id]);
    }
  }

  lemma SilentParts(cfg: Config, room: Room, notes: map<Id, Note>)
    requires OnceOk(cfg, room, notes)
    ensures Attributed(room.host.wires) && AllRejectionsOk(room.host.wires) && room.host.owner !in room.guests
      && Silent(room)
    ensures notes.Keys <= room.guests.Keys
  {
    hide Once, AllRejectionsOk, Attributed, Written;
  }

  lemma SameAhead(wires: map<Id, Wire>)
    ensures UpsAhead(wires, wires)
  {
  }

  lemma UpsKeptParts(h: Host, k: Host)
    requires UpsOwned(h, k)
    ensures SameUps(h.wires, k.wires) && Wordless(h, k)
  {
  }

  lemma HostActs(cfg: Config, room: Room, notes: map<Id, Note>, step: Step)
    requires GoodConfig(cfg) && RoomOk(cfg, room) && OnceOk(cfg, room, notes)
    requires !ByGuest(step) && !step.GuestJoined? && !step.HostRead?
    ensures OnceOk(cfg, Do(cfg, room, step), notes)
  {
    hide HostOk, NodeOk, Once, HostStep, Carried, Evolves, TakesOver, TurnsAway, OnceOk, Wordless, Attributed,
      AllRejectionsOk, UpsAhead,
      UpsKept, UpsOwned, SameUps, Written, Silent;
    var h := room.host;
    var k := HostStep(cfg, h, step);
    SilentParts(cfg, room, notes);
    HostStepGuarantee(cfg, h, step);
    HostStepUps(cfg, h, step);
    SameAhead(h.wires);
    assert Guaranteed(h, k);
    UpsKeptParts(h, k);
    hide Guaranteed;
    QuietAllRejections(h, k);
    forall id | id != h.owner
      ensures Carried(h, k, id) && UpsAhead(h.wires, k.wires) && Written(k.log, id) == Written(h.log, id)
    {
      QuietCarried(cfg, h, h, k, id);
      WordlessWritten(h, k, id);
    }
    AheadThenSame(h.wires, h.wires, k.wires);
    HostActsQuietly(cfg, room, notes, k);
  }

  // ---- The owner reads ----

  lemma CountedAhead(h: Host, s: Id)
    requires s in h.wires && h.wires[s].upRead < |h.wires[s].up|
    ensures UpsAhead(h.wires, Counted(h, s).wires) && Counted(h, s).wires.Keys == h.wires.Keys
    ensures forall t :: t in h.wires ==> Counted(h, s).wires[t].down == h.wires[t].down
  {
  }

  lemma ReadsQuietly(cfg: Config, room: Room, notes: map<Id, Note>, s: Id)
    requires GoodConfig(cfg) && RoomOk(cfg, room) && OnceOk(cfg, room, notes) && Readable(room.host, s)
    requires var k := ReadUp(room.host, cfg, s);
             AllRejectionsOk(k.wires) && UpsKept(Counted(room.host, s), k)
    ensures OnceOk(cfg, Room(ReadUp(room.host, cfg, s), room.guests), notes)
  {
    var h := room.host;
    var k := ReadUp(h, cfg, s);
    SilentParts(cfg, room, notes);
    ReadEvolves(cfg, h, s);
    CountedAhead(h, s);
    var read := Counted(h, s);
    assert read == h.(wires := read.wires);
    assert Guaranteed(h, k);
    hide HostOk, NodeOk, Once, ReadUp, Carried, Evolves, Guaranteed, OnceOk, Attributed, AllRejectionsOk, UpsAhead,
      UpsKept, UpsOwned, Counted, Readable;
    KeptWordless(read, k);
    assert forall id :: id != h.owner ==> Written(k.log, id) == Written(h.log, id) by {
      forall id | id != h.owner
        ensures Written(k.log, id) == Written(h.log, id)
      {
        KeptWordless(read, k);
        WordlessWritten(read, k, id);
      }
    }
    QuietCarried(cfg, h, read, k, h.owner + 1);
    forall id | id in room.guests
      ensures Carried(h, k, id)
    {
      QuietCarried(cfg, h, read, k, id);
    }
    HostActsQuietly(cfg, room, notes, k);
  }

  lemma KeptWordless(h: Host, k: Host)
    requires UpsKept(h, k)
    ensures Wordless(h, k) && UpsOwned(h, k)
  {
    KeptIsOwned(h, k);
  }

  /** The owner has read the next frame of stream `s`, a text of the online guest it belongs to. */
  ghost predicate TextNext(h: Host, s: Id) {
    && s in h.wires && h.wires[s].upRead < |h.wires[s].up| && h.wires[s].up[h.wires[s].upRead].TextSubmit?
    && h.wires[s].peer.Some? && h.wires[s].peer.value in h.members && Voice(h.members[h.wires[s].peer.value], s)
  }

  function Rejecting(h: Host, s: Id): Host
    requires s in h.wires && h.wires[s].upRead < |h.wires[s].up| && h.wires[s].up[h.wires[s].upRead].TextSubmit?
  {
    Send(Counted(h, s), s, ActionRejected(h.wires[s].up[h.wires[s].upRead].submission.clientEventId))
  }

  lemma RejectingAhead(h: Host, s: Id)
    requires TextNext(h, s)
    ensures var k := Rejecting(h, s);
            UpsAhead(h.wires, k.wires) && k.log == h.log && k.owner == h.owner
            && k.wires.Keys == h.wires.Keys && (forall t :: t in h.wires && t != s ==> k.wires[t] == h.wires[t])
            && k.wires[s].down == Write(h.wires[s],
                                        ActionRejected(h.wires[s].up[h.wires[s].upRead].submission.clientEventId)).down
  {
  }

  lemma SameSettled(wr: seq<Entry>, w: Wire, v: Wire, lo: nat)
    requires SettledFrom(wr, w, lo) && v.down == w.down
    ensures SettledFrom(wr, v, lo)
  {
  }

  lemma NothingNewSettled(wr: seq<Entry>, w: Wire)
    ensures SettledFrom(wr, w, |w.down|)
  {
  }

  lemma RejectCarried(cfg: Config, h: Host, n: Node, v: Note, s: Id)
    requires HostOk(cfg, h) && CatchUpOk(h) && Once(cfg, h, n, v) && Attributed(h.wires) && TextNext(h, s)
    requires Guaranteed(h, Rejecting(h, s))
    ensures Carried(h, Rejecting(h, s), n.id)
  {
    OnceParts(cfg, h, n, v);
    var wr := Written(h.log, n.id);
    var k := Rejecting(h, s);
    RejectingAhead(h, s);
    hide HostOk, CatchUpOk, Once, Attributed, Guaranteed, Rejecting, SettledFrom, UpsAhead, Written, StreamsOk,
      LaterOk, NoteOk, PendingOk,
      CurrentOk, RestOkay, Distinct, Carried;
    forall t | t in h.wires && t in k.wires && (h.wires[t].peer == Some(n.id) || h.wires[t].peer == None)
      ensures SettledFrom(wr, k.wires[t], |h.wires[t].down|)
    {
      if t == s {
        RejectionSettled(cfg, h, wr, n, v, s);
        SameSettled(wr, Write(h.wires[s], ActionRejected(h.wires[s].up[h.wires[s].upRead].submission.clientEventId)),
                    k.wires[s], |h.wires[s].down|);
      } else {
        NothingNewSettled(wr, h.wires[t]);
      }
    }
    SegmentCarried(cfg, h, k, n.id);
  }

  /** The owner rejects the text of a guest. */
  lemma RejectActs(cfg: Config, room: Room, notes: map<Id, Note>, s: Id)
    requires RoomOk(cfg, room) && CatchUpOk(room.host) && OnceOk(cfg, room, notes) && TextNext(room.host, s)
    requires AllRejectionsOk(Rejecting(room.host, s).wires) && Guaranteed(room.host, Rejecting(room.host, s))
    ensures OnceOk(cfg, Room(Rejecting(room.host, s), room.guests), notes)
  {
    var h := room.host;
    SilentParts(cfg, room, notes);
    RejectingAhead(h, s);
    hide HostOk, NodeOk, CatchUpOk, Rejecting, Guaranteed, Once, Carried, Attributed, AllRejectionsOk, UpsAhead,
      Written, TextNext;
    forall id | id in notes
      ensures Carried(h, Rejecting(h, s), id)
    {
      RejectCarried(cfg, h, room.guests[id], notes[id], s);
    }
    HostActsQuietly(cfg, room, notes, Rejecting(h, s));
  }

  function CommittedText(h: Host, s: Id): Host
    requires s in h.wires && h.wires[s].upRead < |h.wires[s].up| && h.wires[s].up[h.wires[s].upRead].TextSubmit?
    requires h.wires[s].peer.Some?
  {
    var f := h.wires[s].up[h.wires[s].upRead].submission;
    Commit(Counted(h, s), Text(h.wires[s].peer.value, f.clientEventId, f.text))
  }

  lemma CommittedAhead(h: Host, s: Id)
    requires TextNext(h, s)
    ensures UpsAhead(h.wires, CommittedText(h, s).wires) && CommittedText(h, s).owner == h.owner
    ensures forall id :: id != h.wires[s].peer.value ==> Written(CommittedText(h, s).log, id) == Written(h.log, id)
  {
    var f := h.wires[s].up[h.wires[s].upRead].submission;
    var body := Text(h.wires[s].peer.value, f.clientEventId, f.text);
    CommittedUps(h, s, body);
    hide Commit, Written;
    forall id | id != h.wires[s].peer.value
      ensures Written(CommittedText(h, s).log, id) == Written(h.log, id)
    {
      WrittenGrows(h.log, Event(|h.log| + 1, body), id);
    }
  }

  lemma CommitSettled(h: Host, s: Id, wr: seq<Entry>)
    requires TextNext(h, s)
    ensures var k := CommittedText(h, s);
            forall t :: t in h.wires ==> t in k.wires && SettledFrom(wr, k.wires[t], |h.wires[t].down|)
  {
    var f := h.wires[s].up[h.wires[s].upRead].submission;
    CommittedUps(h, s, Text(h.wires[s].peer.value, f.clientEventId, f.text));
    hide Commit, Live, Floor;
  }

  /** The owner commits the text of a guest. */
  lemma CommitActs(cfg: Config, room: Room, notes: map<Id, Note>, s: Id)
    requires Span(cfg) <= cfg.dedupeMaxItems && RoomOk(cfg, room) && OnceOk(cfg, room, notes) && TextNext(room.host, s)
    requires Guaranteed(room.host, CommittedText(room.host, s)) && AllRejectionsOk(CommittedText(room.host, s).wires)
    requires var w := room.host.wires[s];
             Answer(Written(room.host.log, w.peer.value), cfg.dedupeMaxItems,
                    w.up[w.upRead].submission.clientEventId) == None
    ensures OnceOk(cfg, Room(CommittedText(room.host, s), room.guests), notes)
  {
    var h := room.host;
    var k := CommittedText(h, s);
    var writer := h.wires[s].peer.value;
    SilentParts(cfg, room, notes);
    assert writer in room.guests;
    CommittedAhead(h, s);
    hide HostOk, NodeOk, Once, Answer, Written, Live, Commit, CommittedText, Guaranteed, AllRejectionsOk, Attributed,
      FloorKept, UpsAhead;
    GuaranteedWires(cfg, h, k);
    SilentKept(room, k, writer);
    forall id | id in notes
      ensures Once(cfg, k, room.guests[id], notes[id])
    {
      if id == writer {
        OnceCommits(cfg, h, s, room.guests[id], notes[id]);
        assert k == CommittedText(h, s);
        CommittedIs(h, s);
      } else {
        NodeFacts(h, room.guests[id]);
        CommitSettled(h, s, Written(h.log, id));
        SegmentCarried(cfg, h, k, id);
        OnceCarried(cfg, h, k, room.guests[id], notes[id]);
      }
    }
  }

  lemma CommittedIs(h: Host, s: Id)
    requires TextNext(h, s)
    ensures var f := h.wires[s].up[h.wires[s].upRead].submission;
            CommittedText(h, s) == Commit(Counted(h, s), Text(h.wires[s].peer.value, f.clientEventId, f.text))
  {
    hide Commit;
  }

  lemma HostReads(cfg: Config, room: Room, notes: map<Id, Note>, s: Id)
    requires GoodConfig(cfg) && Span(cfg) <= cfg.dedupeMaxItems
    requires RoomOk(cfg, room) && CatchUpOk(room.host) && OnceOk(cfg, room, notes) && Readable(room.host, s)
    ensures OnceOk(cfg, Room(ReadUp(room.host, cfg, s), room.guests), notes)
  {
    var h := room.host;
    var k := ReadUp(h, cfg, s);
    SilentParts(cfg, room, notes);
    ReadUps(cfg, h, s);
    ReadEvolves(cfg, h, s);
    assert Guaranteed(h, k);
    hide HostOk, NodeOk, CatchUpOk, Once, ReadUp, Evolves, OnceOk, Wordless, Answer, Commit, AllRejectionsOk,
      Guaranteed, Send, Voice;
    ReadRejections(cfg, h, s);
    if UpsKept(Counted(h, s), k) {
      ReadsQuietly(cfg, room, notes, s);
    } else if k == Rejecting(h, s) {
      RejectActs(cfg, room, notes, s);
    } else {
      assert k == CommittedText(h, s);
      CommitActs(cfg, room, notes, s);
    }
  }

  // ---- Newcomers ----

  lemma NewcomerOnce(cfg: Config, h: Host, n: Node)
    requires Written(h.log, n.id) == [] && Attributed(h.wires)
    requires forall s :: s in h.wires && h.wires[s].peer == Some(n.id) ==> h.wires[s].up == []
    requires n.attempt == None && n.pending == [] && !n.recovering && n.used == {}
    requires n.stream in h.wires && h.wires[n.stream].peer == Some(n.id) && JoinedOn(h.wires[n.stream])
    requires n.lastSeq == Floor(h.wires[n.stream])
    ensures Once(cfg, h, n, Note({}, {}, {}))
  {
    hide Live, Written, Floor, JoinedOn;
    var v := Note({}, {}, {});
    assert Unsettled(n, v) == {};
    assert Opened(h.wires[n.stream]);
  }

  lemma JoinActs(cfg: Config, room: Room, notes: map<Id, Note>, s: Id) returns (after: map<Id, Note>)
    requires RoomOk(cfg, room) && OnceOk(cfg, room, notes)
    ensures OnceOk(cfg, Joining(room, s), after)
    ensures notes.Keys <= after.Keys && Joining(room, s).guests.Keys <= after.Keys + room.guests.Keys
  {
    hide HostOk, NodeOk, Once, Written, AllRejectionsOk;
    var next := Joining(room, s);
    after := notes;
    if next != room {
      NewcomerIsGuest(cfg, room.host, s);
      var id := room.host.wires[s].down[0].memberId;
      NewcomerOnce(cfg, room.host, next.guests[id]);
      after := notes[id := Note({}, {}, {})];
    }
  }

  // ---- Every step, every run ----

  lemma NothingRead(cfg: Config, h: Host, s: Id)
    requires !Readable(h, s)
    ensures ReadUp(h, cfg, s) == h
  {
  }

  lemma SeamlessHost(room: Room)
    requires SeamlessOk(room)
    ensures CatchUpOk(room.host)
  {
    hide CatchUpOk, InStep;
  }

  lemma StepOnce(cfg: Config, room: Room, notes: map<Id, Note>, step: Step) returns (after: map<Id, Note>)
    requires GoodConfig(cfg) && Span(cfg) <= cfg.dedupeMaxItems
    requires RoomOk(cfg, room) && SeamlessOk(room) && OnceOk(cfg, room, notes)
    ensures OnceOk(cfg, Do(cfg, room, step), after)
    ensures Do(cfg, room, step).guests.Keys <= after.Keys + room.guests.Keys
    ensures forall id :: id in notes && id in room.guests && StrandedAfter(cfg, room, step, id, {}) == {} ==>
      id in after
  {
    hide RoomOk, SeamlessOk, CatchUpOk, OnceOk, GuestStep, ReadUp, Joining, Strand;
    SeamlessHost(room);
    after := notes;
    if step.GuestJoined? {
      after := JoinActs(cfg, room, notes, step.stream);
    } else if ByGuest(step) {
      if step.memberId in room.guests && room.guests[step.memberId].active {
        after := GuestActs(cfg, room, notes, step);
      }
    } else if step.HostRead? {
      if Readable(room.host, step.stream) {
        HostReads(cfg, room, notes, step.stream);
      } else {
        NothingRead(cfg, room.host, step.stream);
      }
    } else {
      HostActs(cfg, room, notes, step);
    }
  }

  /** Guest `id` stranded no text in the first `i` steps. */
  ghost predicate NeverStranded(cfg: Config, rooms: seq<Room>, steps: seq<Step>, i: nat, id: Id)
    requires |rooms| == |steps| + 1 && i < |rooms|
  {
    forall k :: 0 <= k <= i ==> Stranded(cfg, rooms, steps, k, id) == {}
  }

  lemma {:induction false} RunOnce(cfg: Config, owner: Id, token: Id, rooms: seq<Room>, steps: seq<Step>, i: nat)
    returns (notes: map<Id, Note>)
    requires GoodConfig(cfg) && Span(cfg) <= cfg.dedupeMaxItems
    requires Run(cfg, owner, token, rooms, steps) && i < |rooms|
    ensures RoomOk(cfg, rooms[i]) && OnceOk(cfg, rooms[i], notes)
    ensures forall id :: id in rooms[i].guests && NeverStranded(cfg, rooms, steps, i, id) ==> id in notes
  {
    hide RoomOk, SeamlessOk, Do, Once, StrandedAfter;
    RunOk(cfg, owner, token, rooms, steps, i);
    notes := map[];
    if i > 0 {
      hide OnceOk;
      var before := RunOnce(cfg, owner, token, rooms, steps, i - 1);
      RunSeamless(cfg, owner, token, rooms, steps, i - 1);
      assert rooms[i - 1 + 1] == Do(cfg, rooms[i - 1], steps[i - 1]);
      notes := StepOnce(cfg, rooms[i - 1], before, steps[i - 1]);
      forall id | id in rooms[i].guests && NeverStranded(cfg, rooms, steps, i, id)
        ensures id in notes
      {
        assert Stranded(cfg, rooms, steps, i, id) == {} && Stranded(cfg, rooms, steps, i - 1, id) == {};
        assert NeverStranded(cfg, rooms, steps, i - 1, id);
      }
    }
  }

  /** No two events of the log are the same text of guest `id`. */
  ghost predicate NoTextTwice(log: seq<Event>, id: Id) {
    forall a, b :: (0 <= a < b < |log| && log[a].body.Text? && log[b].body.Text? && log[a].body.senderId == id
                    && log[b].body.senderId == id) ==> log[a].body.clientEventId != log[b].body.clientEventId
  }

  /**
   * At most once. In every run, whatever drops, pauses, rejections, resumes,
   * resyncs and resubmissions it contains, the owner's log holds each client
   * event id of a guest at most once, as long as no resync has carried that
   * guest past a committed text that was still pending. The deduplication
   * window cannot have forgotten an id that is sent again, because it is at
   * least three times the guest's bound on pending texts.
   */
  lemma AtMostOnce(cfg: Config, owner: Id, token: Id, rooms: seq<Room>, steps: seq<Step>, i: nat, id: Id)
    requires GoodConfig(cfg) && 3 * cfg.sendQueueMaxFrames <= cfg.dedupeMaxItems
    requires Run(cfg, owner, token, rooms, steps)
    requires i < |rooms| && id in rooms[i].guests && NeverStranded(cfg, rooms, steps, i, id)
    ensures NoTextTwice(rooms[i].host.log, id)
  {
    var notes := RunOnce(cfg, owner, token, rooms, steps, i);
    hide OnceOk, Run, RoomOk, NoTextTwice, NeverStranded;
    WrittenOnce(cfg, rooms[i], notes, id);
    DistinctTexts(cfg, rooms[i].host, id);
  }

  lemma DistinctTexts(cfg: Config, h: Host, id: Id)
    requires HostOk(cfg, h) && Distinct(Written(h.log, id))
    ensures NoTextTwice(h.log, id)
  {
    hide HostOk, Written, Distinct;
    forall a, b | 0 <= a < b < |h.log| && h.log[a].body.Text? && h.log[b].body.Text? && h.log[a].body.senderId == id
                  && h.log[b].body.senderId == id && h.log[a].body.clientEventId == h.log[b].body.clientEventId
      ensures false
    {
      SameEntry(cfg, h, id, a, b);
    }
  }

  lemma WrittenOnce(cfg: Config, room: Room, notes: map<Id, Note>, id: Id)
    requires OnceOk(cfg, room, notes) && RoomOk(cfg, room) && id in notes
    ensures Distinct(Written(room.host.log, id)) && HostOk(cfg, room.host)
  {
    hide Once, HostOk, NodeOk, Written, Distinct;
    OnceParts(cfg, room.host, room.guests[id], notes[id]);
  }

  lemma SameEntry(cfg: Config, h: Host, id: Id, a: nat, b: nat)
    requires HostOk(cfg, h) && Distinct(Written(h.log, id)) && a < |h.log| && b < |h.log|
    requires h.log[a].body.Text? && h.log[a].body.senderId == id && h.log[b].body.Text? && h.log[b].body.senderId == id
    requires h.log[a].body.clientEventId == h.log[b].body.clientEventId
    ensures a == b
  {
    hide HostOk, Written, Numbered;
    LogIsNumbered(cfg, h);
    var wr := Written(h.log, id);
    InWritten(h.log, id, a + 1);
    InWritten(h.log, id, b + 1);
    var i :| 0 <= i < |wr| && wr[i] == Entry(h.log[a].body.clientEventId, a + 1);
    var j :| 0 <= j < |wr| && wr[j] == Entry(h.log[b].body.clientEventId, b + 1);
    assert i == j;
  }
}
