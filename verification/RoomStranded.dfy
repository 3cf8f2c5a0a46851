/**
 * Stranded texts. A resync may carry a guest past the event of a text of its
 * own that is still pending; nothing that follows tells the guest so, and
 * exactly the texts this happened to stay pending although they are committed.
 */
module RoomStranded {
  import opened Basics
  import opened RoomTypes
  import opened EventDeduper
  import opened ReplayBuffer
  import opened RoomHost
  import opened RoomHostSafety
  import opened RoomNode
  import opened RoomSystem
  import opened RoomGuarantee
  import opened RoomReplication
  import opened RoomTexts
  import opened RoomUps
  import opened RoomRejections

  /** Text `id` was committed with a number after `from`, up to `to`. */
  ghost predicate CommittedIn(wr: seq<Entry>, id: Id, from: nat, to: nat) {
    exists i :: 0 <= i < |wr| && wr[i].id == id && from < wr[i].number <= to
  }

  /** The pending texts whose event a jump to `number` passes. */
  ghost function Passed(wr: seq<Entry>, n: Node, number: nat): set<Id> {
    set x | x in IdsOf(n.pending) && CommittedIn(wr, x, n.lastSeq, number)
  }

  /** What a guest's step does to the set of its stranded texts. */
  ghost function Strand(cfg: Config, h: Host, n: Node, step: Step, stranded: set<Id>): set<Id> {
    if step.GuestReads? && n.reading && n.stream in h.wires && n.delivered < |h.wires[n.stream].down| then
      match h.wires[n.stream].down[n.delivered]
      case Resync(number, _) => stranded + Passed(Written(h.log, n.id), n, number)
      case ActionRejected(requestId) => stranded - {requestId}
      case RoomEvent(event) => stranded - Settled(cfg, n, event)
      case _ => stranded
    else stranded
  }

  /** The pending text that an event settles for its reader. */
  function Settled(cfg: Config, n: Node, event: Event): set<Id> {
    if Judge(cfg, n, event).InSequence? && event.body.Text? && event.body.senderId == n.id
    then {event.body.clientEventId} else {}
  }

  /**
   * The texts that guest `id` has stranded after `i` steps of a run: a jump
   * passed the event of each while it was pending, and since then it was
   * neither rejected nor applied from a later event.
   */
  ghost function Stranded(cfg: Config, rooms: seq<Room>, steps: seq<Step>, i: nat, id: Id): set<Id>
    requires |rooms| == |steps| + 1 && i < |rooms|
  {
    if i == 0 then {} else StrandedAfter(cfg, rooms[i - 1], steps[i - 1], id, Stranded(cfg, rooms, steps, i - 1, id))
  }

  // ---- Where texts come from ----

  /** Only guests write frames, and only the owner and guests write texts. */
  ghost predicate Silent(room: Room) {
    && Attributed(room.host.wires)
    && (forall s :: s in room.host.wires && room.host.wires[s].up != [] ==>
          room.host.wires[s].peer.value in room.guests)
    && (forall id :: id !in room.guests && id != room.host.owner ==> Written(room.host.log, id) == [])
    && room.host.owner !in room.guests
  }

  /** What a guest's step does to the owner's state: one stream of its own gets a frame, or is new. */
  ghost predicate OwnStream(h: Host, k: Host, id: Id) {
    && k == h.(wires := k.wires)
    && (forall s :: s in h.wires ==> s in k.wires && (k.wires[s] == h.wires[s] || OnlyUp(h.wires[s], k.wires[s], id)))
    && (forall s :: s in k.wires && s !in h.wires ==>
          k.wires[s].up == [] && k.wires[s].upRead == 0 && k.wires[s].down == [])
  }

  predicate OnlyUp(w: Wire, v: Wire, id: Id) {
    w.peer == Some(id) && |v.up| > 0 && v == w.(up := w.up + [v.up[|v.up| - 1]])
  }

  lemma PostsOwnStream(h: Host, s: Id, up: Up, id: Id)
    requires s in h.wires ==> h.wires[s].peer == Some(id)
    ensures OwnStream(h, Post(h, s, up), id)
  {
  }

  lemma DialsOwnStream(h: Host, s: Id, w: Wire, id: Id)
    requires s !in h.wires && w.up == [] && w.upRead == 0 && w.down == []
    ensures OwnStream(h, h.(wires := h.wires[s := w]), id)
  {
  }

  lemma NothingWritten(h: Host, id: Id)
    ensures OwnStream(h, h, id)
  {
  }

  lemma OwnPeers(h: Host, n: Node)
    requires NodeOk(h, n)
    ensures n.stream in h.wires ==> h.wires[n.stream].peer == Some(n.id)
    ensures n.attempt.Some? && n.attempt.value.stream in h.wires ==>
      h.wires[n.attempt.value.stream].peer == Some(n.id)
  {
    NodeFacts(h, n);
    hide NodeOk;
  }

  lemma GuestStepOwnStream(cfg: Config, h: Host, n: Node, step: Step)
    requires NodeOk(h, n)
    ensures OwnStream(h, GuestStep(cfg, h, n, step).0, n.id)
  {
    hide NodeOk, ValidText, TakeFrame, OwnStream, Post;
    OwnPeers(h, n);
    NothingWritten(h, n.id);
    match step
    case GuestTexts(_, submission) => PostsOwnStream(h, n.stream, TextSubmit(submission), n.id);
    case GuestDials(_, s) =>
      if s !in h.wires {
        DialsOwnStream(h, s, Wire(Some(n.id), n.lastSeq, Fresh, 0, [], false, [], 0), n.id);
      }
    case GuestResubmits(_) =>
      if n.attempt.Some? && n.attempt.value.Resubmitting? && n.attempt.value.rest != [] {
        PostsOwnStream(h, n.attempt.value.stream, TextSubmit(n.attempt.value.rest[0]), n.id);
      }
    case GuestCloses(_) => PostsOwnStream(h, n.stream, Leave, n.id);
    case _ =>
  }

  lemma OwnStreamAttributed(h: Host, k: Host, id: Id, guests: set<Id>)
    requires OwnStream(h, k, id) && id in guests && Attributed(h.wires)
    requires forall s :: s in h.wires && h.wires[s].up != [] ==> h.wires[s].peer.value in guests
    ensures Attributed(k.wires)
    ensures forall s :: s in k.wires && k.wires[s].up != [] ==> k.wires[s].peer.value in guests
  {
  }

  lemma SilentKept(room: Room, k: Host, wrote: Id)
    requires Silent(room) && k.owner == room.host.owner && wrote in room.guests.Keys + {k.owner}
    requires UpsAhead(room.host.wires, k.wires)
    requires forall s :: s in room.host.wires ==> s in k.wires && PeerKept(room.host.wires[s], k.wires[s])
    requires forall id :: id != k.owner && id != wrote ==> Written(k.log, id) == Written(room.host.log, id)
    ensures Silent(Room(k, room.guests))
  {
    hide Written;
    forall s | s in k.wires
      ensures k.wires[s].upRead <= |k.wires[s].up|
      ensures k.wires[s].up != [] ==> k.wires[s].peer.Some? && k.wires[s].peer.value in room.guests
    {
      if s in room.host.wires {
        assert WireAhead(room.host.wires[s], k.wires[s]);
      }
    }
  }

  lemma WordlessWritten(h: Host, k: Host, id: Id)
    requires Wordless(h, k) && id != h.owner
    ensures Written(k.log, id) == Written(h.log, id)
  {
    if k.log != h.log {
      assert k.log == h.log + [k.log[|h.log|]];
      WrittenGrows(h.log, k.log[|h.log|], id);
    }
  }

  /** Every text of guest `n`, wherever it is, is one it once submitted. */
  ghost predicate UsedOk(h: Host, n: Node) {
    && DistinctSubmissions(n.pending)
    && IdsOf(n.pending) <= n.used
    && (n.attempt.Some? && n.attempt.value.Resubmitting? ==> IdsOf(n.attempt.value.rest) <= n.used)
    && (forall i :: 0 <= i < |Written(h.log, n.id)| ==> Written(h.log, n.id)[i].id in n.used)
    && (forall s :: s in h.wires && h.wires[s].peer == Some(n.id) ==>
          IdsIn(h.wires[s].up, 0, |h.wires[s].up|) <= n.used)
  }

  /** The pending texts whose event the guest is past are the stranded ones. */
  ghost predicate StrandedOk(wr: seq<Entry>, n: Node, stranded: set<Id>) {
    forall x :: x in stranded <==> x in IdsOf(n.pending) && CommittedIn(wr, x, 0, n.lastSeq)
  }

  ghost predicate Tracked(h: Host, n: Node, stranded: set<Id>) {
    UsedOk(h, n) && StrandedOk(Written(h.log, n.id), n, stranded)
  }

  // ---- The owner's steps ----

  /** What `id` has in the log stays, or grows by a later text it once submitted. */
  ghost predicate WritesOn(h: Host, k: Host, id: Id, used: set<Id>) {
    || Written(k.log, id) == Written(h.log, id)
    || exists e: Entry :: (e.id in used && e.number > |h.log| && Written(k.log, id) == Written(h.log, id) + [e])
  }

  lemma Survives(h: Host, k: Host, n: Node, stranded: set<Id>)
    requires Tracked(h, n, stranded) && n.lastSeq <= |h.log| && WritesOn(h, k, n.id, n.used)
    requires UpsAhead(h.wires, k.wires) && Attributed(h.wires)
    requires forall s :: s in h.wires ==> s in k.wires && PeerKept(h.wires[s], k.wires[s])
    ensures Tracked(k, n, stranded)
  {
    hide Written, IdsOf, DistinctSubmissions;
    forall s | s in k.wires && k.wires[s].peer == Some(n.id)
      ensures IdsIn(k.wires[s].up, 0, |k.wires[s].up|) <= n.used
    {
      if s in h.wires {
        assert WireAhead(h.wires[s], k.wires[s]);
      }
    }
    hide IdsIn, Attributed, UpsAhead;
    if Written(k.log, n.id) != Written(h.log, n.id) {
      var e: Entry :| e.id in n.used && e.number > |h.log| && Written(k.log, n.id) == Written(h.log, n.id) + [e];
      LateEntry(Written(h.log, n.id), e, n.lastSeq);
    }
  }

  lemma LateEntry(wr: seq<Entry>, e: Entry, to: nat)
    requires e.number > to
    ensures forall x :: CommittedIn(wr + [e], x, 0, to) <==> CommittedIn(wr, x, 0, to)
  {
    forall x
      ensures CommittedIn(wr + [e], x, 0, to) <==> CommittedIn(wr, x, 0, to)
    {
      if CommittedIn(wr, x, 0, to) {
        var i :| 0 <= i < |wr| && wr[i].id == x && 0 < wr[i].number <= to;
        assert (wr + [e])[i] == wr[i];
      }
    }
  }

  /** A segment of the owner commits nothing a guest wrote, or the text that guest's stream carries next. */
  lemma HostWrites(cfg: Config, h: Host, step: Step)
    requires GoodConfig(cfg) && HostOk(cfg, h) && Attributed(h.wires) && !ByGuest(step) && !step.GuestJoined?
    ensures var k := HostStep(cfg, h, step);
            UpsAhead(h.wires, k.wires)
            && ((forall id :: id != h.owner ==> Written(k.log, id) == Written(h.log, id)) || CommitsNext(h, k))
  {
    hide HostOk, UpsKept, UpsOwned, Written, HostStep, CommitsNext;
    var k := HostStep(cfg, h, step);
    if step.HostRead? {
      assert k == ReadUp(h, cfg, step.stream) by { HostReadIs(cfg, h, step); }
      ReadWrites(cfg, h, step.stream);
    } else {
      HostStepUps(cfg, h, step);
      KeptWrites(h, k);
    }
  }

  lemma HostReadIs(cfg: Config, h: Host, step: Step)
    requires step.HostRead?
    ensures HostStep(cfg, h, step) == ReadUp(h, cfg, step.stream)
  {
  }

  lemma KeptWrites(h: Host, k: Host)
    requires UpsOwned(h, k)
    ensures UpsAhead(h.wires, k.wires) && forall id :: id != h.owner ==> Written(k.log, id) == Written(h.log, id)
  {
    hide Written;
    forall id | id != h.owner
      ensures Written(k.log, id) == Written(h.log, id)
    {
      WordlessWritten(h, k, id);
    }
  }

  /** The log grew by the text that is next on some guest's stream. */
  ghost predicate CommitsNext(h: Host, k: Host) {
    exists s :: s in h.wires && CommitsNextOf(h, k, s)
  }

  ghost predicate CommitsNextOf(h: Host, k: Host, s: Id)
    requires s in h.wires
  {
    var w := h.wires[s];
    && w.upRead < |w.up| && w.up[w.upRead].TextSubmit? && w.peer.Some?
    && Written(k.log, w.peer.value)
       == Written(h.log, w.peer.value) + [Entry(w.up[w.upRead].submission.clientEventId, |h.log| + 1)]
    && (forall id :: id != w.peer.value ==> Written(k.log, id) == Written(h.log, id))
  }

  lemma ReadWrites(cfg: Config, h: Host, s: Id)
    requires HostOk(cfg, h) && Attributed(h.wires)
    ensures var k := ReadUp(h, cfg, s);
            UpsAhead(h.wires, k.wires)
            && ((forall id :: id != h.owner ==> Written(k.log, id) == Written(h.log, id)) || CommitsNext(h, k))
  {
    hide HostOk, UpsKept, UpsOwned, Written, Answer, Commit, Send;
    if Readable(h, s) {
      var w := h.wires[s];
      var k := ReadUp(h, cfg, s);
      hide ReadUp;
      ReadUps(cfg, h, s);
      if UpsKept(Counted(h, s), k) {
        KeptIsOwned(Counted(h, s), k);
        KeptWrites(Counted(h, s), k);
        AheadTwice(h, s, k);
      } else if k == Send(Counted(h, s), s, ActionRejected(w.up[w.upRead].submission.clientEventId)) {
        RejectWrites(h, s, w.up[w.upRead].submission.clientEventId);
      } else {
        var f := w.up[w.upRead].submission;
        CommitWritten(h, s, w.peer.value, f);
        assert CommitsNextOf(h, k, s);
      }
    }
  }

  lemma AheadTwice(h: Host, s: Id, k: Host)
    requires s in h.wires && h.wires[s].upRead < |h.wires[s].up| && UpsAhead(Counted(h, s).wires, k.wires)
    ensures UpsAhead(h.wires, k.wires)
  {
  }

  lemma RejectWrites(h: Host, s: Id, id: Id)
    requires s in h.wires && h.wires[s].upRead < |h.wires[s].up|
    ensures var k := Send(Counted(h, s), s, ActionRejected(id));
            UpsAhead(h.wires, k.wires) && k.log == h.log
  {
  }

  lemma CommitWritten(h: Host, s: Id, sender: Id, f: Submission)
    requires s in h.wires && h.wires[s].upRead < |h.wires[s].up|
    ensures var k := Commit(Counted(h, s), Text(sender, f.clientEventId, f.text));
            && UpsAhead(h.wires, k.wires)
            && Written(k.log, sender) == Written(h.log, sender) + [Entry(f.clientEventId, |h.log| + 1)]
            && (forall id :: id != sender ==> Written(k.log, id) == Written(h.log, id))
  {
    hide Listening, Written;
    var body := Text(sender, f.clientEventId, f.text);
    forall id
      ensures Written(Commit(Counted(h, s), body).log, id)
        == Written(h.log, id) + if id == sender then [Entry(f.clientEventId, |h.log| + 1)] else []
    {
      WrittenGrows(h.log, Event(|h.log| + 1, body), id);
    }
  }

  // ---- A guest's own steps ----

  lemma Remains(h: Host, n: Node, a: Node, stranded: set<Id>)
    requires Tracked(h, n, stranded)
    requires a.id == n.id && a.used == n.used && a.lastSeq == n.lastSeq && a.pending == n.pending
    requires a.attempt == n.attempt || a.attempt == None || a.attempt.value.Asked? || a.attempt.value.rest == n.pending
             || (n.attempt.Some? && n.attempt.value.Resubmitting? && n.attempt.value.rest != []
                 && a.attempt.value.rest == n.attempt.value.rest[1..])
    ensures Tracked(h, a, stranded)
  {
    hide Written, CommittedIn, DistinctSubmissions, IdsIn, IdsOf;
    if n.attempt.Some? && n.attempt.value.Resubmitting? && n.attempt.value.rest != [] {
      IdsCons(n.attempt.value.rest);
    }
  }

  lemma Posts(h: Host, n: Node, stranded: set<Id>, s: Id, frame: Up)
    requires Tracked(h, n, stranded) && (frame.TextSubmit? ==> frame.submission.clientEventId in n.used)
    ensures Tracked(Post(h, s, frame), n, stranded)
  {
    hide Written, CommittedIn, DistinctSubmissions, IdsOf;
    if s in h.wires {
      IdsInSnoc(h.wires[s].up, frame, 0);
      hide IdsIn;
    }
  }

  lemma DialsTracked(h: Host, n: Node, stranded: set<Id>, s: Id, w: Wire)
    requires Tracked(h, n, stranded) && s !in h.wires && w.up == []
    ensures Tracked(h.(wires := h.wires[s := w]), n, stranded)
  {
    hide Written, CommittedIn, DistinctSubmissions, IdsOf;
  }

  lemma NewText(h: Host, n: Node, stranded: set<Id>, f: Submission)
    requires Tracked(h, n, stranded) && f.clientEventId !in n.used
    ensures Tracked(h, n.(pending := n.pending + [f], used := n.used + {f.clientEventId}), stranded)
  {
    hide Written, IdsIn;
    IdsSnoc(n.pending, f);
    forall i | 0 <= i < |n.pending|
      ensures n.pending[i].clientEventId != f.clientEventId
    {
      assert n.pending[i].clientEventId in IdsOf(n.pending);
    }
    hide IdsOf;
  }

  /** Pending texts are only ever dropped, and the guest only moves forwards. */
  lemma Drops(h: Host, n: Node, stranded: set<Id>, a: Node, gone: set<Id>, after: set<Id>)
    requires Tracked(h, n, stranded) && a.id == n.id && a.used == n.used
      && (a.attempt == n.attempt || a.attempt == None)
    requires DistinctSubmissions(a.pending) && IdsOf(a.pending) == IdsOf(n.pending) - gone
    requires StrandedOk(Written(h.log, n.id), a, after)
    ensures Tracked(h, a, after)
  {
    hide Written, CommittedIn, DistinctSubmissions, IdsOf, IdsIn, StrandedOk;
  }

  lemma Rejected(h: Host, n: Node, stranded: set<Id>, id: Id)
    requires Tracked(h, n, stranded)
    ensures Tracked(h, n.(pending := Drop(n.pending, id)), stranded - {id})
  {
    DropIds(n.pending, id);
    hide Written, CommittedIn, DistinctSubmissions, IdsOf, IdsIn;
  }

  /** A jump strands the pending texts it passes. */
  lemma Jumps(h: Host, n: Node, stranded: set<Id>, a: Node, number: nat)
    requires Tracked(h, n, stranded) && number >= n.lastSeq
    requires a.id == n.id && a.used == n.used && a.pending == n.pending && a.attempt == n.attempt && a.lastSeq == number
    ensures Tracked(h, a, stranded + Passed(Written(h.log, n.id), n, number))
  {
    hide Written, DistinctSubmissions, IdsOf, IdsIn;
    var wr := Written(h.log, n.id);
    forall x
      ensures CommittedIn(wr, x, 0, number)
        <==> CommittedIn(wr, x, 0, n.lastSeq) || CommittedIn(wr, x, n.lastSeq, number)
    {
    }
    hide CommittedIn;
  }

  /** What applying an event does to the part of a guest that matters here. */
  lemma AppliedPart(cfg: Config, n: Node, event: Event)
    requires Judge(cfg, n, event).InSequence? && DistinctSubmissions(n.pending)
    ensures var a := AcceptEvent(cfg, n, event);
            && a.lastSeq == event.number == n.lastSeq + 1 && a.used == n.used && a.id == n.id && a.stream == n.stream
            && a.attempt == n.attempt && a.recovering == n.recovering
            && DistinctSubmissions(a.pending) && |a.pending| <= |n.pending|
            && IdsOf(a.pending) == IdsOf(n.pending) - Settled(cfg, n, event)
  {
    hide IdsOf, DistinctSubmissions, ApplyBody, Acceptable;
    if event.body.Text? {
      DropIds(n.pending, event.body.clientEventId);
    }
  }

  lemma NextEntry(log: seq<Event>, id: Id, event: Event, x: Id)
    requires Numbered(log) && 1 <= event.number <= |log| && log[event.number - 1] == event
    requires !(event.body.Text? && event.body.senderId == id && event.body.clientEventId == x)
    ensures CommittedIn(Written(log, id), x, 0, event.number) <==> CommittedIn(Written(log, id), x, 0, event.number - 1)
  {
    WrittenIsLog(log, id);
    var wr := Written(log, id);
    hide Written, Increasing;
    if CommittedIn(wr, x, 0, event.number) {
      var i :| 0 <= i < |wr| && wr[i].id == x && 0 < wr[i].number <= event.number;
      assert IsEntry(log[wr[i].number - 1].body, id, wr[i].id);
    }
  }

  lemma EventIsNext(cfg: Config, h: Host, n: Node, event: Event)
    requires HostOk(cfg, h) && FrameOk(RoomEvent(event), Some(n.id), h.owner, h.log) && Judge(cfg, n, event).InSequence?
    ensures Numbered(h.log) && event.number == n.lastSeq + 1 <= |h.log| && h.log[event.number - 1] == event
  {
    hide Acceptable;
  }

  /** Applying the next event settles its text, and passes no other. */
  lemma Applies(cfg: Config, h: Host, n: Node, stranded: set<Id>, event: Event)
    requires HostOk(cfg, h) && Tracked(h, n, stranded)
    requires FrameOk(RoomEvent(event), Some(n.id), h.owner, h.log) && Judge(cfg, n, event).InSequence?
    ensures Tracked(h, AcceptEvent(cfg, n, event), stranded - Settled(cfg, n, event))
  {
    var a := AcceptEvent(cfg, n, event);
    var wr := Written(h.log, n.id);
    EventIsNext(cfg, h, n, event);
    hide HostOk, FrameOk, CommittedIn, Written, IdsOf, IdsIn, Judge, AcceptEvent, DistinctSubmissions;
    AppliedPart(cfg, n, event);
    var gone := Settled(cfg, n, event);
    assert StrandedOk(wr, a, stranded - gone) by {
      forall x | x !in gone
        ensures CommittedIn(wr, x, 0, n.lastSeq + 1) <==> CommittedIn(wr, x, 0, n.lastSeq)
      {
        NextEntry(h.log, n.id, event, x);
      }
    }
    hide Settled;
    Drops(h, n, stranded, a, gone, stranded - gone);
  }

  lemma ReadsTracked(cfg: Config, h: Host, n: Node, stranded: set<Id>, step: Step)
    requires HostOk(cfg, h) && NodeOk(h, n) && Tracked(h, n, stranded) && step.GuestReads?
    requires n.reading && n.stream in h.wires && n.delivered < |h.wires[n.stream].down|
    ensures Tracked(h, TakeFrame(cfg, n.(delivered := n.delivered + 1), h.wires[n.stream].down[n.delivered]),
                    Strand(cfg, h, n, step, stranded))
  {
    var f := h.wires[n.stream].down[n.delivered];
    var read := n.(delivered := n.delivered + 1);
    hide HostOk, NodeOk, Tracked, Written, FrameOk, Judge, AcceptEvent, Drop, IdsOf, Passed, Settled;
    FrameRead(cfg, h, n);
    Remains(h, n, read, stranded);
    match f
    case RoomEvent(event) =>
      SameJudgement(cfg, n, read, event);
      EventTracked(cfg, h, read, stranded, event);
    case Resync(number, roster) =>
      JumpAhead(cfg, h, n);
      SamePassed(Written(h.log, n.id), n, read, number);
      Jumps(h, read, stranded, TakeFrame(cfg, read, f), number);
    case ActionRejected(requestId) => Rejected(h, read, stranded, requestId);
    case _ => Remains(h, read, TakeFrame(cfg, read, f), stranded);
  }

  lemma EventTracked(cfg: Config, h: Host, n: Node, stranded: set<Id>, event: Event)
    requires HostOk(cfg, h) && Tracked(h, n, stranded) && FrameOk(RoomEvent(event), Some(n.id), h.owner, h.log)
    ensures Tracked(h, TakeFrame(cfg, n, RoomEvent(event)), stranded - Settled(cfg, n, event))
  {
    hide HostOk, Tracked, FrameOk, Judge, AcceptEvent;
    if Judge(cfg, n, event).InSequence? {
      Applies(cfg, h, n, stranded, event);
    } else {
      NothingTaken(cfg, n, event);
      assert stranded - Settled(cfg, n, event) == stranded;
      Remains(h, n, n, stranded);
      Remains(h, n, EndReading(n), stranded);
    }
  }

  lemma NothingTaken(cfg: Config, n: Node, event: Event)
    requires !Judge(cfg, n, event).InSequence?
    ensures AcceptEvent(cfg, n, event) == n
  {
    hide Judge;
  }

  lemma SameJudgement(cfg: Config, n: Node, a: Node, event: Event)
    requires a == n.(delivered := a.delivered)
    ensures Judge(cfg, n, event) == Judge(cfg, a, event) && Settled(cfg, n, event) == Settled(cfg, a, event)
  {
  }

  lemma SamePassed(wr: seq<Entry>, n: Node, a: Node, number: nat)
    requires a.pending == n.pending && a.lastSeq == n.lastSeq
    ensures Passed(wr, a, number) == Passed(wr, n, number)
  {
  }

  lemma StrandsOnReads(cfg: Config, h: Host, n: Node, step: Step, stranded: set<Id>)
    ensures !(step.GuestReads? && n.reading && n.stream in h.wires && n.delivered < |h.wires[n.stream].down|) ==>
      Strand(cfg, h, n, step, stranded) == stranded
  {
  }

  lemma FirstOfRest(h: Host, n: Node, stranded: set<Id>)
    requires Tracked(h, n, stranded) && n.attempt.Some? && n.attempt.value.Resubmitting? && n.attempt.value.rest != []
    ensures n.attempt.value.rest[0].clientEventId in n.used
  {
    IdsCons(n.attempt.value.rest);
    hide Written, IdsIn, CommittedIn;
  }

  lemma GuestTracked(cfg: Config, h: Host, n: Node, stranded: set<Id>, step: Step)
    requires HostOk(cfg, h) && NodeOk(h, n) && Tracked(h, n, stranded) && ByGuest(step)
    ensures var (k, a) := GuestStep(cfg, h, n, step);
            Tracked(k, a, Strand(cfg, h, n, step, stranded))
  {
    hide HostOk, NodeOk, Tracked, TakeFrame, ValidText, Post, Strand;
    StrandsOnReads(cfg, h, n, step, stranded);
    var (k, a) := GuestStep(cfg, h, n, step);
    match step
    case GuestReads(_) =>
      if n.reading && n.stream in h.wires && n.delivered < |h.wires[n.stream].down| {
        ReadsTracked(cfg, h, n, stranded, step);
      }
    case GuestTexts(_, f) =>
      if f.clientEventId !in n.used {
        NewText(h, n, stranded, f);
        Posts(h, n.(pending := n.pending + [f], used := n.used + {f.clientEventId}), stranded, n.stream, TextSubmit(f));
      }
    case GuestDials(_, s) =>
      if s !in h.wires {
        DialsTracked(h, n, stranded, s, Wire(Some(n.id), n.lastSeq, Fresh, 0, [], false, [], 0));
        Remains(k, n, a, stranded);
      }
    case GuestResubmits(_) =>
      if n.attempt.Some? && n.attempt.value.Resubmitting? && n.attempt.value.rest != [] {
        FirstOfRest(h, n, stranded);
        Posts(h, n, stranded, n.attempt.value.stream, TextSubmit(n.attempt.value.rest[0]));
        Remains(k, n, a, stranded);
      }
    case GuestCloses(_) =>
      Posts(h, n, stranded, n.stream, Leave);
      Remains(k, n, a, stranded);
    case _ => Remains(h, n, a, stranded);
  }

  // ---- The whole room ----

  ghost predicate AllTracked(room: Room, stranded: map<Id, set<Id>>) {
    && Silent(room)
    && room.guests.Keys <= stranded.Keys
    && forall id :: id in room.guests ==> Tracked(room.host, room.guests[id], stranded[id])
  }

  lemma OthersTracked(h: Host, k: Host, id: Id, n: Node, stranded: set<Id>)
    requires OwnStream(h, k, id) && n.id != id && Tracked(h, n, stranded)
    ensures Tracked(k, n, stranded)
  {
    hide Written, IdsOf, DistinctSubmissions, CommittedIn;
    forall s | s in k.wires && k.wires[s].peer == Some(n.id)
      ensures IdsIn(k.wires[s].up, 0, |k.wires[s].up|) <= n.used
    {
      if s in h.wires {
        assert k.wires[s] == h.wires[s];
      }
    }
  }

  lemma GuestActsTracked(cfg: Config, room: Room, stranded: map<Id, set<Id>>, step: Step)
    requires RoomOk(cfg, room) && AllTracked(room, stranded) && ByGuest(step)
    requires step.memberId in room.guests && room.guests[step.memberId].active
    ensures AllTracked(Do(cfg, room, step),
                       stranded[step.memberId := Strand(cfg, room.host, room.guests[step.memberId], step,
                                                        stranded[step.memberId])])
  {
    hide HostOk, NodeOk, Tracked, GuestStep, Strand, OwnStream, Attributed, Written;
    var n := room.guests[step.memberId];
    var (k, a) := GuestStep(cfg, room.host, n, step);
    GuestTracked(cfg, room.host, n, stranded[n.id], step);
    GuestStepOwnStream(cfg, room.host, n, step);
    OwnStreamAttributed(room.host, k, n.id, room.guests.Keys);
    OwnStreamLog(room.host, k, n.id);
    forall id | id in room.guests && id != n.id
      ensures Tracked(k, room.guests[id], stranded[id])
    {
      OthersTracked(room.host, k, n.id, room.guests[id], stranded[id]);
    }
  }

  lemma OwnStreamLog(h: Host, k: Host, id: Id)
    requires OwnStream(h, k, id)
    ensures k.log == h.log && k.owner == h.owner
  {
  }

  lemma HostActsTracked(cfg: Config, room: Room, stranded: map<Id, set<Id>>, step: Step)
    requires GoodConfig(cfg) && RoomOk(cfg, room) && AllTracked(room, stranded) && !ByGuest(step) && !step.GuestJoined?
    ensures AllTracked(Do(cfg, room, step), stranded)
  {
    var h := room.host;
    var k := HostStep(cfg, h, step);
    HostWrites(cfg, h, step);
    HostStepGuarantee(cfg, h, step);
    assert Guaranteed(h, k);
    hide HostOk, NodeOk, Tracked, Attributed, Written, HostStep, UpsAhead, Evolves, TakesOver, TurnsAway, Guaranteed,
      PeerKept, FloorKept;
    GuaranteedWires(cfg, h, k);
    GuaranteedOwner(h, k);
    var wrote := WriterOf(cfg, room, stranded, k);
    SilentKept(room, k, wrote);
    forall id | id in room.guests
      ensures Tracked(k, room.guests[id], stranded[id])
    {
      NodeFacts(h, room.guests[id]);
      Survives(h, k, room.guests[id], stranded[id]);
    }
  }

  /** Who wrote the event a segment of the owner committed; nobody but the owner, unless a guest's text. */
  lemma WriterOf(cfg: Config, room: Room, stranded: map<Id, set<Id>>, k: Host) returns (wrote: Id)
    requires RoomOk(cfg, room) && AllTracked(room, stranded)
    requires (forall id :: id != room.host.owner ==> Written(k.log, id) == Written(room.host.log, id))
             || CommitsNext(room.host, k)
    ensures wrote in room.guests.Keys + {room.host.owner}
    ensures forall id :: id != room.host.owner && id != wrote ==> Written(k.log, id) == Written(room.host.log, id)
    ensures forall id :: id in room.guests ==> WritesOn(room.host, k, id, room.guests[id].used)
  {
    hide HostOk, NodeOk, Written, CommittedIn, IdsIn, StrandedOk;
    var h := room.host;
    wrote := h.owner;
    if exists s :: s in h.wires && CommitsNextOf(h, k, s) {
      var s :| s in h.wires && CommitsNextOf(h, k, s);
      wrote := h.wires[s].peer.value;
      TextIn(h.wires[s].up, h.wires[s].upRead);
      assert wrote in room.guests;
      var n := room.guests[wrote];
      assert Tracked(h, n, stranded[wrote]);
      var e := Entry(h.wires[s].up[h.wires[s].upRead].submission.clientEventId, |h.log| + 1);
      assert e.id in n.used && e.number > |h.log| && Written(k.log, wrote) == Written(h.log, wrote) + [e];
      assert WritesOn(h, k, wrote, n.used);
    }
    assert forall id :: id in room.guests && id != wrote ==> Written(k.log, id) == Written(h.log, id);
    forall id | id in room.guests
      ensures WritesOn(h, k, id, room.guests[id].used)
    {
      if id != wrote {
        assert Written(k.log, id) == Written(h.log, id);
      }
    }
  }

  lemma NewcomerIsGuest(cfg: Config, h: Host, s: Id)
    requires HostOk(cfg, h) && s in h.wires && h.wires[s].down != [] && h.wires[s].down[0].JoinAccept?
    ensures h.wires[s].down[0].memberId != h.owner && h.wires[s].peer == Some(h.wires[s].down[0].memberId)
  {
    assert WireOk(h.wires[s], h.owner, h.log);
    var f := h.wires[s].down[0];
    assert FrameOk(f, h.wires[s].peer, h.owner, h.log);
    OwnerStays(cfg, h.owner, h.log, f.number);
  }

  lemma JoinTracked(cfg: Config, room: Room, stranded: map<Id, set<Id>>, s: Id)
    requires RoomOk(cfg, room) && AllTracked(room, stranded)
    requires Joining(room, s) != room
    ensures AllTracked(Joining(room, s), stranded[room.host.wires[s].down[0].memberId := {}])
  {
    hide HostOk, NodeOk, Written;
    NewcomerIsGuest(cfg, room.host, s);
    var id := room.host.wires[s].down[0].memberId;
    var n := Joining(room, s).guests[id];
    assert n.pending == [] && n.attempt == None;
    assert IdsOf(n.pending) == {};
    assert forall t :: t in room.host.wires && room.host.wires[t].peer == Some(id) ==> room.host.wires[t].up == [];
  }

  /** The stranded sets of all guests at step `i` of a run. */
  ghost function StrandedBy(cfg: Config, rooms: seq<Room>, steps: seq<Step>, i: nat): map<Id, set<Id>>
    requires |rooms| == |steps| + 1 && i < |rooms|
  {
    map id | id in rooms[i].guests :: Stranded(cfg, rooms, steps, i, id)
  }

  lemma StepTracked(cfg: Config, room: Room, stranded: map<Id, set<Id>>, step: Step) returns (after: map<Id, set<Id>>)
    requires GoodConfig(cfg) && RoomOk(cfg, room) && AllTracked(room, stranded)
    ensures AllTracked(Do(cfg, room, step), after)
    ensures room.guests.Keys <= stranded.Keys
    ensures forall id :: id in Do(cfg, room, step).guests ==>
      id in after && after[id] == StrandedAfter(cfg, room, step, id, if id in stranded then stranded[id] else {})
  {
    hide RoomOk, Tracked, Silent, GuestStep, HostStep, Strand, Joining;
    after := stranded;
    if step.GuestJoined? {
      JoiningGuests(room, step.stream);
      if Joining(room, step.stream) != room {
        JoinTracked(cfg, room, stranded, step.stream);
        after := stranded[room.host.wires[step.stream].down[0].memberId := {}];
      }
    } else if ByGuest(step) {
      if step.memberId in room.guests && room.guests[step.memberId].active {
        GuestActsTracked(cfg, room, stranded, step);
        after := stranded[step.memberId := Strand(cfg, room.host, room.guests[step.memberId], step,
                                                  stranded[step.memberId])];
      }
    } else {
      HostActsTracked(cfg, room, stranded, step);
    }
  }

  ghost function StrandedAfter(cfg: Config, room: Room, step: Step, id: Id, before: set<Id>): set<Id> {
    if id !in room.guests then {}
    else if ByGuest(step) && step.memberId == id && room.guests[id].active
    then Strand(cfg, room.host, room.guests[id], step, before)
    else before
  }

  lemma JoiningGuests(room: Room, s: Id)
    ensures Joining(room, s) != room ==>
      && s in room.host.wires && room.host.wires[s].down != [] && room.host.wires[s].down[0].JoinAccept?
      && room.host.wires[s].down[0].memberId !in room.guests
      && Joining(room, s).guests.Keys == room.guests.Keys + {room.host.wires[s].down[0].memberId}
  {
  }

  lemma {:induction false} RunTracked(cfg: Config, owner: Id, token: Id, rooms: seq<Room>, steps: seq<Step>, i: nat)
    requires GoodConfig(cfg) && Run(cfg, owner, token, rooms, steps) && i < |rooms|
    ensures RoomOk(cfg, rooms[i]) && AllTracked(rooms[i], StrandedBy(cfg, rooms, steps, i))
  {
    hide RoomOk, Do, Tracked, Strand;
    RunOk(cfg, owner, token, rooms, steps, i);
    if i > 0 {
      hide AllTracked;
      RunTracked(cfg, owner, token, rooms, steps, i - 1);
      assert rooms[i - 1 + 1] == Do(cfg, rooms[i - 1], steps[i - 1]);
      var after := StepTracked(cfg, rooms[i - 1], StrandedBy(cfg, rooms, steps, i - 1), steps[i - 1]);
      SameTracked(rooms[i], after, StrandedBy(cfg, rooms, steps, i));
    }
  }

  lemma SameTracked(room: Room, a: map<Id, set<Id>>, b: map<Id, set<Id>>)
    requires AllTracked(room, a) && room.guests.Keys <= b.Keys
    requires forall id :: id in room.guests ==> id in a && a[id] == b[id]
    ensures AllTracked(room, b)
  {
    hide Tracked;
  }

  /**
   * When a committed text stays pending. In every run, a guest that is past
   * the event of a text of its own still has that text pending if and only if
   * a jump passed the event while the text was pending, and the text was
   * neither rejected nor applied from a later event since.
   */
  lemma PendingThoughCommitted(cfg: Config, owner: Id, token: Id, rooms: seq<Room>, steps: seq<Step>, i: nat, id: Id,
                               x: Id)
    requires GoodConfig(cfg) && Run(cfg, owner, token, rooms, steps) && i < |rooms| && id in rooms[i].guests
    requires CommittedIn(Written(rooms[i].host.log, id), x, 0, rooms[i].guests[id].lastSeq)
    ensures x in IdsOf(rooms[i].guests[id].pending) <==> x in Stranded(cfg, rooms, steps, i, id)
  {
    RunTracked(cfg, owner, token, rooms, steps, i);
    hide Run, HostOk, NodeOk, UsedOk, CommittedIn, Written, Stranded;
    assert Tracked(rooms[i].host, rooms[i].guests[id], Stranded(cfg, rooms, steps, i, id));
  }
}
