/**
 * A run, step by step, in which a guest is told to resync past a text of its
 * own, sends the text again, and keeps it pending although it is answered.
 */
module RoomStuck {
  import opened Basics
  import opened RoomTypes
  import opened ReplayBuffer
  import opened EventDeduper
  import opened RoomHost
  import opened RoomNode
  import opened RoomSystem

  ghost predicate Reachable(cfg: Config, room: Room) {
    exists rooms, steps :: Run(cfg, 0, 0, rooms, steps) && rooms[|steps|] == room
  }

  lemma ReachStep(cfg: Config, room: Room, step: Step)
    requires Reachable(cfg, room)
    ensures Reachable(cfg, Do(cfg, room, step))
  {
    var rooms, steps :| Run(cfg, 0, 0, rooms, steps) && rooms[|steps|] == room;
    var more, taken := rooms + [Do(cfg, room, step)], steps + [step];
    hide Do;
    forall i | 0 <= i < |taken|
      ensures more[i + 1] == Do(cfg, more[i], taken[i])
    {
      if i < |steps| {
        assert rooms[i + 1] == Do(cfg, rooms[i], steps[i]);
      }
    }
    assert Run(cfg, 0, 0, more, taken);
  }

  lemma ReachOpening(cfg: Config)
    ensures Reachable(cfg, Room(Opening(0, 0), map[]))
  {
    var rooms: seq<Room>, steps: seq<Step> := [Room(Opening(0, 0), map[])], [];
    assert Run(cfg, 0, 0, rooms, steps);
  }

  /** A replay buffer of three events, each of size one. */
  function Small(frames: nat, window: nat): Config {
    Config(2, 1, 3, 3, window, frames, 1, _ => 1)
  }

  lemma {:induction false} BytesCount(frames: nat, window: nat, events: seq<Event>)
    ensures Bytes(Small(frames, window).size, events) == |events|
  {
    if events != [] {
      BytesCount(frames, window, events[1..]);
    }
  }

  lemma KeepsThree(frames: nat, window: nat, log: seq<Event>, number: nat)
    requires number < |log|
    ensures After(Small(frames, window), log, number) == if number + 3 < |log| then None else Some(log[number..])
  {
    var cfg := Small(frames, window);
    BytesCount(frames, window, log[number..]);
    AfterIsLog(cfg, log, number);
  }

  // ---- The resync ----

  const Self := Face(Guest, Online)
  const Roster0: Roster := map[0 := Face(Owner, Online)]

  const Log3: seq<Event> := [Event(1, Joined(1, Self)), Event(2, Text(0, 0, "x")), Event(3, Text(1, 0, "x"))]

  const Admission: Down := JoinAccept(1, 0, Roster0[1 := Self])

  /** The guest has joined; its stream carries its acceptance and the event of its joining. */
  function JoinedRoom(): Room {
    Room(
      Host(0, Log3[..1], map[0 := Member(Owner, Online, None, 0, None), 1 := Member(Guest, Online, Some(0), 0, None)],
           map[], {0, 1}, false, false, 0, 0, false,
           map[0 := Wire(Some(1), 0, Accepted, 0, [Admission, RoomEvent(Log3[0])], false, [], 0)]),
      map[1 := Node(0, 1, true, 0, Roster0[1 := Self], 0, 1, true, false, None, [], 0, [], {})])
  }

  function Waiting1(state: PendingState, peer: Option<Id>, down: seq<Down>, issued: set<Id>): Room {
    Room(
      Host(0, [], map[0 := Member(Owner, Online, None, 0, None)], map[0 := Pending(0, 0, state)], issued,
           false, false, 0, 0, false, map[0 := Wire(peer, 0, Accepted, 0, down, false, [], 0)]),
      map[])
  }

  lemma Requests(cfg: Config)
    requires cfg.maxMembers == 2 && cfg.maxPendingJoins == 1
    ensures Do(cfg, Room(Opening(0, 0), map[]), HostJoinRequest(0, 0, 0, true)) == Waiting1(Waiting, None, [], {0})
  {
    hide Commit, ReadUp, GuestStep;
    assert |map[0 := Member(Owner, Online, None, 0, None)]| == 1;
  }

  lemma Begins(cfg: Config)
    requires cfg.maxMembers == 2
    ensures Do(cfg, Waiting1(Waiting, None, [], {0}), HostApproveBegin(0, false))
      == Waiting1(Approving(0), None, [], {0})
  {
    hide Commit, ReadUp, GuestStep;
    var pending := map[0 := Pending(0, 0, Approving(0))];
    assert Reserved(pending) == {0};
    assert |map[0 := Member(Owner, Online, None, 0, None)]| == 1;
    assert OccupiedSeats(Waiting1(Approving(0), None, [], {0}).host) == 2;
    assert map[0 := Pending(0, 0, Waiting)][0 := Pending(0, 0, Approving(0))] == pending;
  }

  lemma Verifies(cfg: Config)
    ensures Do(cfg, Waiting1(Approving(0), None, [], {0}), HostApproveVerified(0, true, false, 1))
      == Waiting1(Committing(0, 1, 0), Some(1), [Admission], {0, 1})
  {
    hide Commit, ReadUp, GuestStep;
    assert Faces(map[0 := Member(Owner, Online, None, 0, None)]) == Roster0;
    var h := Waiting1(Approving(0), None, [], {0}).host;
    assert h.issued + {1} == {0, 1};
    assert [] + [Admission] == [Admission];
    assert h.wires[0 := Wire(Some(1), 0, Accepted, 0, [Admission], false, [], 0)]
      == map[0 := Wire(Some(1), 0, Accepted, 0, [Admission], false, [], 0)];
    assert h.pending[0 := Pending(0, 0, Committing(0, 1, 0))] == map[0 := Pending(0, 0, Committing(0, 1, 0))];
  }

  lemma Commits(cfg: Config)
    ensures Do(cfg, Waiting1(Committing(0, 1, 0), Some(1), [Admission], {0, 1}), HostApproveCommit(0, true))
      == JoinedRoom().(guests := map[])
  {
    hide ReadUp, GuestStep;
    var h := Waiting1(Committing(0, 1, 0), Some(1), [Admission], {0, 1}).host;
    var seated := h.(members := h.members[1 := Member(Guest, Online, Some(0), 0, None)], pending := h.pending - {0});
    assert h.pending - {0} == map[];
    assert Voice(seated.members[1], 0);
    assert Listening(seated.members, 0);
    assert Log3[..1] == [Log3[0]];
    assert [Admission] + [RoomEvent(Log3[0])] == [Admission, RoomEvent(Log3[0])];
    assert [] + [Log3[0]] == [Log3[0]];
    assert Commit(seated, Joined(1, Self)).wires == JoinedRoom().host.wires;
  }

  lemma ReachJoined(cfg: Config)
    requires cfg.maxMembers == 2 && cfg.maxPendingJoins == 1
    ensures Reachable(cfg, JoinedRoom())
  {
    hide Reachable, Do;
    ReachOpening(cfg);
    Requests(cfg);
    ReachStep(cfg, Room(Opening(0, 0), map[]), HostJoinRequest(0, 0, 0, true));
    Begins(cfg);
    ReachStep(cfg, Waiting1(Waiting, None, [], {0}), HostApproveBegin(0, false));
    Verifies(cfg);
    ReachStep(cfg, Waiting1(Approving(0), None, [], {0}), HostApproveVerified(0, true, false, 1));
    Commits(cfg);
    ReachStep(cfg, Waiting1(Committing(0, 1, 0), Some(1), [Admission], {0, 1}), HostApproveCommit(0, true));
    Joins(cfg);
    ReachStep(cfg, JoinedRoom().(guests := map[]), GuestJoined(0));
  }

  lemma Joins(cfg: Config)
    ensures Do(cfg, JoinedRoom().(guests := map[]), GuestJoined(0)) == JoinedRoom()
  {
    hide GuestStep, HostStep;
  }

  // ---- A text is committed, and the guest is told to jump past it ----

  const A: Submission := Submission(0, "x")

  const Log5: seq<Event> := Log3 + [Event(4, State(1, Reconnecting)), Event(5, State(1, Online))]

  const Here: Member := OnlineOn(1)

  const Roster4: Roster := map[0 := Face(Owner, Online), 1 := Face(Guest, Reconnecting)]

  function Away(cursor: nat): Member {
    Member(Guest, Reconnecting, None, 0, Some(Resume(1, cursor, [])))
  }

  function HostWith(log: seq<Event>, guest: Member, wires: map<Id, Wire>, generation: nat := 0): Host {
    Host(0, log, map[0 := Member(Owner, Online, None, 0, None), 1 := guest], map[], {0, 1}, false, false, generation, 0,
         false, wires)
  }

  /** The join stream after `events` events. */
  function Before(events: nat, up: seq<Up>, upRead: nat, closed: bool): Wire
    requires events <= 3
  {
    Wire(Some(1), 0, Accepted, 0, [Admission] + (seq(events, i requires 0 <= i < events => RoomEvent(Log3[i]))),
         closed, up, upRead)
  }

  function Resuming1(down: seq<Down>, up: seq<Up>, upRead: nat): Wire {
    Wire(Some(1), 0, Accepted, 4, down, false, up, upRead)
  }

  function GuestWith(pending: seq<Submission>, used: set<Id>, recovering: bool, attempt: Option<Attempt>): Node {
    Node(0, 1, true, 0, Roster0[1 := Self], 0, 1, true, recovering, attempt, pending, 0, [], used)
  }

  lemma XIsText(cfg: Config)
    requires cfg.textBytes == 1
    ensures ValidText(cfg, "x")
  {
    assert !IsBlank("x"[0]);
    assert Utf8Length("x"[1..]) == 0;
  }

  lemma BeforeNext(events: nat, up: seq<Up>, upRead: nat)
    requires events < 3
    ensures Write(Before(events, up, upRead, false), RoomEvent(Log3[events])) == Before(events + 1, up, upRead, false)
  {
    assert Write(Before(events, up, upRead, false), RoomEvent(Log3[events])).down
      == Before(events + 1, up, upRead, false).down;
  }

  lemma WrittenNothing(log: seq<Event>, id: Id)
    requires forall i :: 0 <= i < |log| ==> !(log[i].body.Text? && log[i].body.senderId == id)
    ensures Written(log, id) == []
  {
    if log != [] {
      WrittenNothing(log[..|log| - 1], id);
    }
  }

  function OnlineOn(s: Id): Member {
    Member(Guest, Online, Some(s), 0, None)
  }

  /** A commit reaches the guest's stream only. */
  lemma CommitsOn(log: seq<Event>, s: Id, wires: map<Id, Wire>, event: Event, g: nat := 0)
    requires s in wires && event.number == |log| + 1
    ensures Commit(HostWith(log, OnlineOn(s), wires, g), event.body)
      == HostWith(log + [event], OnlineOn(s), wires[s := Write(wires[s], RoomEvent(event))], g)
  {
    var h := HostWith(log, OnlineOn(s), wires, g);
    assert Voice(h.members[1], s) && Listening(h.members, s);
    assert Commit(h, event.body).wires == wires[s := Write(wires[s], RoomEvent(event))];
  }

  /** A commit while the guest is away reaches nobody. */
  lemma CommitsAway(log: seq<Event>, guest: Member, wires: map<Id, Wire>, event: Event, g: nat := 0)
    requires guest.status == Reconnecting && event.number == |log| + 1
    ensures Commit(HostWith(log, guest, wires, g), event.body) == HostWith(log + [event], guest, wires, g)
  {
    assert Commit(HostWith(log, guest, wires, g), event.body).wires == wires;
  }

  const There: Member := OnlineOn(0)

  lemma OwnerTexts(cfg: Config)
    requires cfg.textBytes == 1
    ensures OwnerText(HostWith(Log3[..1], There, map[0 := Before(1, [], 0, false)]), cfg, A)
      == HostWith(Log3[..2], There, map[0 := Before(2, [], 0, false)])
  {
    hide Commit, ValidText, Answer, Written;
    XIsText(cfg);
    WrittenNothing(Log3[..1], 0);
    UnknownIfNever([], cfg.dedupeMaxItems, 0);
    CommitsOn(Log3[..1], 0, map[0 := Before(1, [], 0, false)], Log3[1]);
    BeforeNext(1, [], 0);
    assert Log3[..1] + [Log3[1]] == Log3[..2];
    assert map[0 := Before(1, [], 0, false)][0 := Before(2, [], 0, false)] == map[0 := Before(2, [], 0, false)];
  }

  lemma FirstRead(cfg: Config)
    requires cfg.textBytes == 1
    ensures ReadUp(HostWith(Log3[..2], There, map[0 := Before(2, [TextSubmit(A)], 0, false)]), cfg, 0)
      == HostWith(Log3, There, map[0 := Before(3, [TextSubmit(A)], 1, false)])
  {
    hide Commit, ValidText, Answer, Written;
    XIsText(cfg);
    WrittenNothing(Log3[..2], 1);
    UnknownIfNever([], cfg.dedupeMaxItems, 0);
    var h := HostWith(Log3[..2], There, map[0 := Before(2, [TextSubmit(A)], 0, false)]);
    assert Voice(h.members[1], 0) && Readable(h, 0);
    CommitsOn(Log3[..2], 0, map[0 := Before(2, [TextSubmit(A)], 1, false)], Log3[2]);
    BeforeNext(2, [TextSubmit(A)], 1);
    assert Log3[..2] + [Log3[2]] == Log3;
    assert h.wires[0 := h.wires[0].(upRead := 1)] == map[0 := Before(2, [TextSubmit(A)], 1, false)];
    assert map[0 := Before(2, [TextSubmit(A)], 1, false)][0 := Before(3, [TextSubmit(A)], 1, false)]
      == map[0 := Before(3, [TextSubmit(A)], 1, false)];
  }

  /** The stream a resume is asked on. */
  const Asking: Wire := Wire(Some(1), 0, Fresh, 0, [], false, [], 0)

  function Sent(log: seq<Event>, w0: Wire, recovering: bool, attempt: Option<Attempt>): Room {
    Room(HostWith(log, There, if attempt.Some? then map[0 := w0, 1 := Asking] else map[0 := w0]),
         map[1 := GuestWith([A], {0}, recovering, attempt)])
  }

  lemma Loses(cfg: Config, w0: Wire)
    ensures Do(cfg, Sent(Log3, w0, false, None), GuestSendFails(1)) == Sent(Log3, w0, true, None)
  {
    var room := Sent(Log3, w0, false, None);
    assert room.guests[1 := GuestWith([A], {0}, true, None)] == map[1 := GuestWith([A], {0}, true, None)];
  }

  lemma Dials(cfg: Config, w0: Wire)
    ensures Do(cfg, Sent(Log3, w0, true, None), GuestDials(1, 1)) == Sent(Log3, w0, true, Some(Asked(1)))
  {
    var room := Sent(Log3, w0, true, None);
    assert room.guests[1 := GuestWith([A], {0}, true, Some(Asked(1)))]
      == map[1 := GuestWith([A], {0}, true, Some(Asked(1)))];
    assert room.host.wires[1 := Asking] == map[0 := w0, 1 := Asking];
  }

  lemma JoinedIs()
    ensures JoinedRoom() == Room(HostWith(Log3[..1], There, map[0 := Before(1, [], 0, false)]),
                                 map[1 := GuestWith([], {}, false, None)])
  {
    assert Before(1, [], 0, false).down == [Admission, RoomEvent(Log3[0])];
  }

  lemma OwnerTextStep(cfg: Config, room: Room)
    ensures Do(cfg, room, HostText(A)) == room.(host := OwnerText(room.host, cfg, A))
  {
    hide OwnerText;
  }

  lemma ReadStep(cfg: Config, room: Room, s: Id)
    ensures Do(cfg, room, HostRead(s)) == room.(host := ReadUp(room.host, cfg, s))
  {
    hide ReadUp;
  }

  lemma Dialled(cfg: Config)
    requires cfg.textBytes == 1 && cfg.sendQueueMaxFrames >= 2 && cfg.maxMembers == 2 && cfg.maxPendingJoins == 1
    ensures Reachable(cfg, Sent(Log3, Before(3, [TextSubmit(A)], 1, false), true, Some(Asked(1))))
  {
    hide Reachable, Do, ReadUp, OwnerText, Before;
    ReachJoined(cfg);
    JoinedIs();
    OwnerTexts(cfg);
    OwnerTextStep(cfg, JoinedRoom());
    ReachStep(cfg, JoinedRoom(), HostText(A));
    var r1 := Room(HostWith(Log3[..2], There, map[0 := Before(2, [], 0, false)]),
                   map[1 := GuestWith([], {}, false, None)]);
    Texted(cfg, r1);
    ReachStep(cfg, r1, GuestTexts(1, A));
    var r2 := Sent(Log3[..2], Before(2, [TextSubmit(A)], 0, false), false, None);
    FirstRead(cfg);
    ReadStep(cfg, r2, 0);
    ReachStep(cfg, r2, HostRead(0));
    var w0 := Before(3, [TextSubmit(A)], 1, false);
    Loses(cfg, w0);
    ReachStep(cfg, Sent(Log3, w0, false, None), GuestSendFails(1));
    Dials(cfg, w0);
    ReachStep(cfg, Sent(Log3, w0, true, None), GuestDials(1, 1));
  }

  lemma Texted(cfg: Config, room: Room)
    requires cfg.textBytes == 1 && cfg.sendQueueMaxFrames >= 2
    requires room == Room(HostWith(Log3[..2], There, map[0 := Before(2, [], 0, false)]),
                          map[1 := GuestWith([], {}, false, None)])
    ensures Do(cfg, room, GuestTexts(1, A))
      == Room(HostWith(Log3[..2], There, map[0 := Before(2, [TextSubmit(A)], 0, false)]),
              map[1 := GuestWith([A], {0}, false, None)])
  {
    hide ValidText;
    XIsText(cfg);
    assert [] + [TextSubmit(A)] == [TextSubmit(A)];
    assert [] + [A] == [A];
    assert {} + {0} == {0};
    assert room.host.wires[0 := Before(2, [TextSubmit(A)], 0, false)] == map[0 := Before(2, [TextSubmit(A)], 0, false)];
    assert room.guests[1 := GuestWith([A], {0}, false, None)] == map[1 := GuestWith([A], {0}, false, None)];
  }

  // ---- The resync itself ----

  function Resumption(w0: Wire, log: seq<Event>, guest: Member, down: seq<Down>, n: Node): Room {
    Room(HostWith(log, guest, map[0 := w0, 1 := Resuming1(down, [], 0)]), map[1 := n])
  }

  const Asker: Node := GuestWith([A], {0}, true, Some(Asked(1)))

  /** The guest's old stream is closed, and it is away. */
  lemma MarksAway(log: seq<Event>, s: Id, wires: map<Id, Wire>, g: nat := 0)
    requires s in wires
    ensures MarkReconnecting(HostWith(log, OnlineOn(s), wires, g), 1)
      == HostWith(log + [Event(|log| + 1, State(1, Reconnecting))], Member(Guest, Reconnecting, None, 0, None),
                  wires[s := wires[s].(closed := true)], g)
  {
    hide Commit;
    var h := HostWith(log, OnlineOn(s), wires, g);
    var away := Member(Guest, Reconnecting, None, 0, None);
    assert h.members[1 := away] == map[0 := Member(Owner, Online, None, 0, None), 1 := away];
    CommitsAway(log, away, wires[s := wires[s].(closed := true)], Event(|log| + 1, State(1, Reconnecting)), g);
  }

  /** A resume request is accepted while the guest is online on another stream. */
  lemma AcceptsResume(log: seq<Event>, s: Id, t: Id, wires: map<Id, Wire>, g: nat := 0)
    requires s in wires && t in wires && s != t && wires[t] == Wire(Some(1), wires[t].claim, Fresh, 0, [], false, [], 0)
    requires wires[t].claim <= |log|
    ensures AcceptResume(HostWith(log, OnlineOn(s), wires, g), t, true)
      == HostWith(log + [Event(|log| + 1, State(1, Reconnecting))],
                  Member(Guest, Reconnecting, None, 0, Some(Resume(t, wires[t].claim, []))),
                  wires[s := wires[s].(closed := true)]
                       [t := Wire(Some(1), wires[t].claim, Accepted, |log| + 1, [ResumeAccept(|log| + 1)], false, [],
                                  0)], g)
  {
    hide MarkReconnecting;
    MarksAway(log, s, wires, g);
    var away := Member(Guest, Reconnecting, None, 0, Some(Resume(t, wires[t].claim, [])));
    assert map[0 := Member(Owner, Online, None, 0, None), 1 := Member(Guest, Reconnecting, None, 0, None)][1 := away]
      == map[0 := Member(Owner, Online, None, 0, None), 1 := away];
    assert [] + [ResumeAccept(|log| + 1)] == [ResumeAccept(|log| + 1)];
  }

  lemma AcceptStep(cfg: Config, room: Room, s: Id)
    ensures Do(cfg, room, HostAcceptResume(s, true)) == room.(host := AcceptResume(room.host, s, true))
  {
    hide AcceptResume;
  }

  lemma Accepts(cfg: Config, w0: Wire)
    ensures Do(cfg, Sent(Log3, w0, true, Some(Asked(1))), HostAcceptResume(1, true))
      == Resumption(w0.(closed := true), Log5[..4], Away(0), [ResumeAccept(4)], Asker)
  {
    hide AcceptResume, Do;
    var room := Sent(Log3, w0, true, Some(Asked(1)));
    AcceptStep(cfg, room, 1);
    AcceptsResume(Log3, 0, 1, room.host.wires);
    assert Log3 + [Log5[3]] == Log5[..4];
    assert room.host.wires[0 := w0.(closed := true)][1 := Resuming1([ResumeAccept(4)], [], 0)]
      == map[0 := w0.(closed := true), 1 := Resuming1([ResumeAccept(4)], [], 0)];
  }

  /** The guest has been sent everything and comes online. */
  lemma ComesOnline(cfg: Config, log: seq<Event>, t: Id, wires: map<Id, Wire>, g: nat := 0)
    requires t in wires && !wires[t].closed
    ensures ContinueResume(HostWith(log, Member(Guest, Reconnecting, None, 0, Some(Resume(t, |log|, []))), wires, g),
                           cfg, 1, true)
      == HostWith(log + [Event(|log| + 1, State(1, Online))], OnlineOn(t),
                  wires[t := Write(wires[t], RoomEvent(Event(|log| + 1, State(1, Online))))], g)
  {
    hide Commit, After;
    var h := HostWith(log, Member(Guest, Reconnecting, None, 0, Some(Resume(t, |log|, []))), wires, g);
    assert h.members[1 := OnlineOn(t)] == map[0 := Member(Owner, Online, None, 0, None), 1 := OnlineOn(t)];
    CommitsOn(log, t, wires, Event(|log| + 1, State(1, Online)), g);
  }

  lemma ContinueStep(cfg: Config, room: Room)
    ensures Do(cfg, room, HostContinueResume(1, true)) == room.(host := ContinueResume(room.host, cfg, 1, true))
  {
    hide ContinueResume;
  }

  /** The guest claimed too old a number, and is told to jump to the end of the log. */
  lemma TellsJump(frames: nat, window: nat, w0: Wire, down: seq<Down>)
    ensures ContinueResume(HostWith(Log5[..4], Away(0), map[0 := w0, 1 := Resuming1(down, [], 0)]),
                           Small(frames, window), 1, true)
      == HostWith(Log5[..4], Away(4), map[0 := w0, 1 := Resuming1(down + [Resync(4, Roster4)], [], 0)])
  {
    hide After;
    KeepsThree(frames, window, Log5[..4], 0);
    var h := HostWith(Log5[..4], Away(0), map[0 := w0, 1 := Resuming1(down, [], 0)]);
    var w := Resuming1(down + [Resync(4, Roster4)], [], 0);
    assert Faces(h.members) == Roster4;
    assert h.wires[1 := w] == map[0 := w0, 1 := w];
    assert h.members[1 := Away(4)] == map[0 := Member(Owner, Online, None, 0, None), 1 := Away(4)];
  }

  lemma Skips(frames: nat, window: nat, w0: Wire)
    ensures Do(Small(frames, window), Resumption(w0, Log5[..4], Away(0), [ResumeAccept(4)], Asker),
               HostContinueResume(1, true))
      == Resumption(w0, Log5[..4], Away(4), [ResumeAccept(4), Resync(4, Roster4)], Asker)
  {
    hide Do, ContinueResume;
    ContinueStep(Small(frames, window), Resumption(w0, Log5[..4], Away(0), [ResumeAccept(4)], Asker));
    TellsJump(frames, window, w0, [ResumeAccept(4)]);
    assert [ResumeAccept(4)] + [Resync(4, Roster4)] == [ResumeAccept(4), Resync(4, Roster4)];
  }

  const Told4: seq<Down> := [ResumeAccept(4), Resync(4, Roster4), RoomEvent(Log5[4])]

  lemma Activates(cfg: Config, w0: Wire)
    ensures Do(cfg, Resumption(w0, Log5[..4], Away(4), Told4[..2], Asker), HostContinueResume(1, true))
      == Resumption(w0, Log5, Here, Told4, Asker)
  {
    hide ContinueResume, Do;
    var room := Resumption(w0, Log5[..4], Away(4), Told4[..2], Asker);
    ContinueStep(cfg, room);
    ComesOnline(cfg, Log5[..4], 1, room.host.wires);
    assert Log5[..4] + [Log5[4]] == Log5;
    assert Told4[..2] + [Told4[2]] == Told4;
    assert room.host.wires[1 := Resuming1(Told4, [], 0)] == map[0 := w0, 1 := Resuming1(Told4, [], 0)];
  }

  lemma ResyncTold(frames: nat, window: nat, w0: Wire)
    requires Reachable(Small(frames, window), Sent(Log3, w0, true, Some(Asked(1))))
    ensures Reachable(Small(frames, window), Resumption(w0.(closed := true), Log5, Here, Told4, Asker))
  {
    hide Reachable, Do;
    var cfg := Small(frames, window);
    var w := w0.(closed := true);
    Accepts(cfg, w0);
    ReachStep(cfg, Sent(Log3, w0, true, Some(Asked(1))), HostAcceptResume(1, true));
    Skips(frames, window, w);
    ReachStep(cfg, Resumption(w, Log5[..4], Away(0), [ResumeAccept(4)], Asker), HostContinueResume(1, true));
    Activates(cfg, w);
    assert Told4[..2] == [ResumeAccept(4), Resync(4, Roster4)];
    ReachStep(cfg, Resumption(w, Log5[..4], Away(4), Told4[..2], Asker), HostContinueResume(1, true));
  }

  // ---- The text is sent again, answered, and stays pending ----

  const Answered: seq<Down> := Told4 + [RoomEvent(Log5[2])]

  function Later(w0: Wire, down: seq<Down>, up: seq<Up>, upRead: nat, n: Node): Room {
    Room(HostWith(Log5, Here, map[0 := w0, 1 := Resuming1(down, up, upRead)]), map[1 := n])
  }

  const Adopter: Node := Node(0, 1, true, 0, Roster0[1 := Self], 1, 1, true, false, None, [A], 0, [], {0})

  /** The guest after reading the whole of `Answered`. */
  const Stuck: Node :=
    Node(0, 1, true, 5, Roster4[1 := Self], 1, 4, true, false, None, [A], 0, [Jumped(0, 4), Applied(Log5[4])], {0})

  lemma HearsAnswer(cfg: Config, w0: Wire)
    ensures Do(cfg, Later(w0, Told4, [], 0, Asker), GuestAnswered(1))
      == Later(w0, Told4, [], 0, Asker.(attempt := Some(Resubmitting(1, [A]))))
  {
    var room := Later(w0, Told4, [], 0, Asker);
    assert room.guests[1 := Asker.(attempt := Some(Resubmitting(1, [A])))]
      == map[1 := Asker.(attempt := Some(Resubmitting(1, [A])))];
  }

  lemma SendsAgain(cfg: Config, w0: Wire)
    ensures Do(cfg, Later(w0, Told4, [], 0, Asker.(attempt := Some(Resubmitting(1, [A])))), GuestResubmits(1))
      == Later(w0, Told4, [TextSubmit(A)], 0, Asker.(attempt := Some(Resubmitting(1, []))))
  {
    var room := Later(w0, Told4, [], 0, Asker.(attempt := Some(Resubmitting(1, [A]))));
    assert [A][1..] == [];
    assert [] + [TextSubmit(A)] == [TextSubmit(A)];
    assert room.host.wires[1 := Resuming1(Told4, [TextSubmit(A)], 0)]
      == map[0 := w0, 1 := Resuming1(Told4, [TextSubmit(A)], 0)];
    assert room.guests[1 := Asker.(attempt := Some(Resubmitting(1, [])))]
      == map[1 := Asker.(attempt := Some(Resubmitting(1, [])))];
  }

  lemma TakesStream(cfg: Config, w0: Wire)
    ensures Do(cfg, Later(w0, Told4, [TextSubmit(A)], 0, Asker.(attempt := Some(Resubmitting(1, [])))), GuestAdopts(1))
      == Later(w0, Told4, [TextSubmit(A)], 0, Adopter)
  {
    var room := Later(w0, Told4, [TextSubmit(A)], 0, Asker.(attempt := Some(Resubmitting(1, []))));
    assert room.guests[1 := Adopter] == map[1 := Adopter];
  }

  lemma WrittenLog5()
    ensures Written(Log5, 1) == [Entry(0, 3)]
  {
    WrittenNothing(Log3[..2], 1);
    assert Log3[..2] + [Log3[2]] == Log3;
    WrittenGrows(Log3[..2], Log3[2], 1);
    WrittenGrows(Log3, Log5[3], 1);
    WrittenGrows(Log3 + [Log5[3]], Log5[4], 1);
    assert Log3 + [Log5[3]] + [Log5[4]] == Log5;
  }

  /** What the owner does with the text that is next on an online guest's stream. */
  ghost predicate NextText(h: Host, s: Id, id: Id, f: Submission) {
    && Readable(h, s) && !h.closing && !h.roomPaused
    && h.wires[s].peer == Some(id) && id in h.members && Voice(h.members[id], s)
    && h.wires[s].up[h.wires[s].upRead] == TextSubmit(f)
  }

  lemma ReadsText(h: Host, cfg: Config, s: Id, id: Id, f: Submission)
    requires NextText(h, s, id, f) && ValidText(cfg, f.text)
    ensures var read := h.(wires := h.wires[s := h.wires[s].(upRead := h.wires[s].upRead + 1)]);
            && (Answer(Written(h.log, id), cfg.dedupeMaxItems, f.clientEventId) == None ==>
                  ReadUp(h, cfg, s) == Commit(read, Text(id, f.clientEventId, f.text)))
            && (forall prior :: (Answer(Written(h.log, id), cfg.dedupeMaxItems, f.clientEventId) == Some(prior)
                                 && 1 <= prior <= |h.log|
                  && After(cfg, h.log, prior - 1).Some?) ==>
                    ReadUp(h, cfg, s) == Send(read, s, RoomEvent(h.log[prior - 1])))
  {
    hide Commit, ValidText, Answer, Written, After, Send;
  }

  lemma OneKnown(e: Entry, window: nat)
    requires window >= 1
    ensures Answer([e], window, e.id) == Some(e.number)
  {
    hide Answer, Without, Recent, TakeLast, Lookup;
    RecentOfFresh([e]);
    KnownIffRecent([e], window, 0);
  }

  lemma PriorIs3(window: nat)
    requires window >= 1
    ensures Answer(Written(Log5, 1), window, 0) == Some(3)
  {
    hide Answer, Written;
    WrittenLog5();
    OneKnown(Entry(0, 3), window);
  }

  lemma LaterIs(w0: Wire)
    ensures var h := Later(w0, Told4, [TextSubmit(A)], 0, Adopter).host;
            h.log == Log5 && |Log5| == 5 && 1 in h.wires && h.wires[1].upRead == 0
  {
  }

  lemma AnswersOld(frames: nat, window: nat, w0: Wire)
    requires window >= 1
    ensures ReadUp(Later(w0, Told4, [TextSubmit(A)], 0, Adopter).host, Small(frames, window), 1)
      == Later(w0, Answered, [TextSubmit(A)], 1, Adopter).host
  {
    hide ReadUp, Commit, ValidText, Answer, Written, After, Later, Send, NextText, Start, Fits;
    var cfg := Small(frames, window);
    XIsText(cfg);
    PriorIs3(window);
    KeepsThree(frames, window, Log5, 2);
    OpenedNext(w0);
    LaterIs(w0);
    ReadsText(Later(w0, Told4, [TextSubmit(A)], 0, Adopter).host, cfg, 1, 1, A);
    AnswerSent(w0);
  }

  lemma OpenedNext(w0: Wire)
    ensures NextText(Later(w0, Told4, [TextSubmit(A)], 0, Adopter).host, 1, 1, A)
  {
  }

  lemma AnswerSent(w0: Wire)
    ensures var h := Later(w0, Told4, [TextSubmit(A)], 0, Adopter).host;
            Send(h.(wires := h.wires[1 := h.wires[1].(upRead := h.wires[1].upRead + 1)]), 1, RoomEvent(Log5[2]))
              == Later(w0, Answered, [TextSubmit(A)], 1, Adopter).host
  {
    var h := Later(w0, Told4, [TextSubmit(A)], 0, Adopter).host;
    var read := Resuming1(Told4, [TextSubmit(A)], 1);
    assert h.wires[1 := read][1 := Write(read, RoomEvent(Log5[2]))]
      == map[0 := w0, 1 := Write(read, RoomEvent(Log5[2]))];
  }

  lemma ReadsOne(cfg: Config, room: Room, frame: Down, n: Node)
    requires 1 in room.guests && room.guests[1].active && room.guests[1].reading
    requires room.guests[1].stream in room.host.wires
    requires room.guests[1].delivered < |room.host.wires[room.guests[1].stream].down|
    requires room.host.wires[room.guests[1].stream].down[room.guests[1].delivered] == frame
    requires TakeFrame(cfg, room.guests[1].(delivered := room.guests[1].delivered + 1), frame) == n
    ensures Do(cfg, room, GuestReads(1)) == room.(guests := room.guests[1 := n])
  {
    hide TakeFrame;
  }

  const Jumper: Node := Adopter.(delivered := 2, lastSeq := 4, members := Roster4, heard := [Jumped(0, 4)])

  const Caught5: Node := Jumper.(delivered := 3, lastSeq := 5, members := Roster4[1 := Self],
                                 heard := [Jumped(0, 4), Applied(Log5[4])])

  lemma TakesResync(cfg: Config)
    ensures TakeFrame(cfg, Adopter.(delivered := 2), Resync(4, Roster4)) == Jumper
  {
    assert [] + [Jumped(0, 4)] == [Jumped(0, 4)];
  }

  lemma TakesEvent(cfg: Config)
    ensures TakeFrame(cfg, Jumper.(delivered := 3), RoomEvent(Log5[4])) == Caught5
  {
    assert [Jumped(0, 4)] + [Applied(Log5[4])] == [Jumped(0, 4), Applied(Log5[4])];
  }

  /** The old event does not settle the text. */
  lemma TakesAnswer(cfg: Config)
    ensures TakeFrame(cfg, Caught5.(delivered := 4), RoomEvent(Log5[2])) == Stuck
  {
    hide Acceptable, ApplyBody;
  }

  lemma ReadsNext(cfg: Config, w0: Wire, n: Node, frame: Down, after: Node)
    requires n.active && n.reading && n.stream == 1 && n.delivered < |Answered| && Answered[n.delivered] == frame
    requires TakeFrame(cfg, n.(delivered := n.delivered + 1), frame) == after
    requires Reachable(cfg, Later(w0, Answered, [TextSubmit(A)], 1, n))
    ensures Reachable(cfg, Later(w0, Answered, [TextSubmit(A)], 1, after))
  {
    hide Reachable, Do, TakeFrame;
    var r := Later(w0, Answered, [TextSubmit(A)], 1, n);
    ReadsOne(cfg, r, frame, after);
    ReachStep(cfg, r, GuestReads(1));
    assert r.guests[1 := after] == map[1 := after];
  }

  /** The guest jumps, applies the event after that, and ignores the old one. */
  lemma StaysPending(cfg: Config, w0: Wire)
    requires Reachable(cfg, Later(w0, Answered, [TextSubmit(A)], 1, Adopter))
    ensures Reachable(cfg, Later(w0, Answered, [TextSubmit(A)], 1, Stuck))
  {
    hide Reachable, TakeFrame, Later;
    TakesResync(cfg);
    ReadsNext(cfg, w0, Adopter, Resync(4, Roster4), Jumper);
    TakesEvent(cfg);
    ReadsNext(cfg, w0, Jumper, RoomEvent(Log5[4]), Caught5);
    TakesAnswer(cfg);
    ReadsNext(cfg, w0, Caught5, RoomEvent(Log5[2]), Stuck);
  }

  lemma ReachStuck(frames: nat, window: nat) returns (w0: Wire)
    requires frames >= 2 && window >= 1
    ensures Reachable(Small(frames, window), Later(w0, Answered, [TextSubmit(A)], 1, Stuck))
  {
    var cfg := Small(frames, window);
    hide Reachable, Do, ReadUp, Before;
    Dialled(cfg);
    ResyncTold(frames, window, Before(3, [TextSubmit(A)], 1, false));
    w0 := Before(3, [TextSubmit(A)], 1, false).(closed := true);
    assert Resumption(w0, Log5, Here, Told4, Asker) == Later(w0, Told4, [], 0, Asker);
    HearsAnswer(cfg, w0);
    ReachStep(cfg, Later(w0, Told4, [], 0, Asker), GuestAnswered(1));
    SendsAgain(cfg, w0);
    ReachStep(cfg, Later(w0, Told4, [], 0, Asker.(attempt := Some(Resubmitting(1, [A])))), GuestResubmits(1));
    TakesStream(cfg, w0);
    ReachStep(cfg, Later(w0, Told4, [TextSubmit(A)], 0, Asker.(attempt := Some(Resubmitting(1, [])))), GuestAdopts(1));
    AnswersOld(frames, window, w0);
    var r := Later(w0, Told4, [TextSubmit(A)], 0, Adopter);
    ReadStep(cfg, r, 1);
    ReachStep(cfg, r, HostRead(1));
    assert r.(host := Later(w0, Answered, [TextSubmit(A)], 1, Adopter).host)
      == Later(w0, Answered, [TextSubmit(A)], 1, Adopter);
    StaysPending(cfg, w0);
  }
}
