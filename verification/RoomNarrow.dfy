/**
 * A window as large as the bound on pending texts is too small, even without
 * any resync: a text rejected on an old stream while it is resent on a new one
 * makes room for one more, and the owner forgets one that is still pending.
 */
module RoomNarrow {
  import opened Basics
  import opened RoomTypes
  import opened ReplayBuffer
  import opened EventDeduper
  import opened RoomHost
  import opened RoomNode
  import opened RoomSystem
  import opened RoomOnce
  import opened RoomStuck
  import opened RoomResync

  /** At most two texts pending, two ids remembered, one event kept for replay. */
  const Narrow: Config := Config(2, 1, 1, 1, 2, 2, 1, _ => 1)

  function At(log: seq<Event>, guest: Member, wires: map<Id, Wire>, n: Node, g: nat): Room {
    Room(HostWith(log, guest, wires, g), map[1 := n])
  }

  function Leaving(t: Id, cursor: nat): Member {
    Member(Guest, Reconnecting, None, 0, Some(Resume(t, cursor, [])))
  }

  lemma GuestStepped(room: Room, n: Node, m: Node)
    requires room.guests == map[1 := n]
    ensures room.guests[1 := m] == map[1 := m]
  {
  }

  // ---- Steps of the guest ----

  lemma Submits(log: seq<Event>, guest: Member, wires: map<Id, Wire>, n: Node, g: nat, f: Submission)
    requires Reachable(Narrow, At(log, guest, wires, n, g)) && f.text == "x"
    requires n.active && !n.recovering && n.stream in wires && |n.pending| < 2 && f.clientEventId !in n.used
    ensures Reachable(Narrow, At(log, guest,
                                 wires[n.stream := wires[n.stream].(up := wires[n.stream].up + [TextSubmit(f)])],
                                 n.(pending := n.pending + [f], used := n.used + {f.clientEventId}), g))
  {
    hide Reachable, Do, ValidText;
    XIsText(Narrow);
    var room := At(log, guest, wires, n, g);
    TextsStep(Narrow, room, f);
    ReachStep(Narrow, room, GuestTexts(1, f));
    GuestStepped(room, n, n.(pending := n.pending + [f], used := n.used + {f.clientEventId}));
  }

  /** The guest loses its stream and asks for a resume on stream `t`. */
  lemma AsksOn(log: seq<Event>, guest: Member, wires: map<Id, Wire>, n: Node, g: nat, t: Id)
    requires Reachable(Narrow, At(log, guest, wires, n, g)) && n.active && n.id == 1 && n.attempt == None && t !in wires
    ensures Reachable(Narrow, At(log, guest, wires[t := Wire(Some(1), n.lastSeq, Fresh, 0, [], false, [], 0)],
                                 n.(recovering := true, attempt := Some(Asked(t))), g))
  {
    hide Reachable;
    var room := At(log, guest, wires, n, g);
    var lost := n.(recovering := true);
    ReachStep(Narrow, room, GuestSendFails(1));
    GuestStepped(room, n, lost);
    var after := At(log, guest, wires, lost, g);
    ReachStep(Narrow, after, GuestDials(1, t));
    GuestStepped(after, lost, lost.(attempt := Some(Asked(t))));
  }

  lemma HearsYes(log: seq<Event>, guest: Member, wires: map<Id, Wire>, n: Node, g: nat, t: Id)
    requires Reachable(Narrow, At(log, guest, wires, n, g)) && n.active && n.attempt == Some(Asked(t)) && t in wires
    requires wires[t].down != [] && wires[t].down[0].ResumeAccept? && wires[t].down[0].currentSeq >= wires[t].claim
    ensures Reachable(Narrow, At(log, guest, wires, n.(attempt := Some(Resubmitting(t, n.pending))), g))
  {
    hide Reachable;
    var room := At(log, guest, wires, n, g);
    ReachStep(Narrow, room, GuestAnswered(1));
    GuestStepped(room, n, n.(attempt := Some(Resubmitting(t, n.pending))));
  }

  lemma Resends(log: seq<Event>, guest: Member, wires: map<Id, Wire>, n: Node, g: nat, t: Id, rest: seq<Submission>)
    requires Reachable(Narrow, At(log, guest, wires, n, g)) && n.active && n.attempt == Some(Resubmitting(t, rest))
    requires t in wires && rest != []
    ensures Reachable(Narrow, At(log, guest, wires[t := wires[t].(up := wires[t].up + [TextSubmit(rest[0])])],
                                 n.(attempt := Some(Resubmitting(t, rest[1..]))), g))
  {
    hide Reachable;
    var room := At(log, guest, wires, n, g);
    ReachStep(Narrow, room, GuestResubmits(1));
    GuestStepped(room, n, n.(attempt := Some(Resubmitting(t, rest[1..]))));
  }

  lemma Adopts(log: seq<Event>, guest: Member, wires: map<Id, Wire>, n: Node, g: nat, t: Id)
    requires Reachable(Narrow, At(log, guest, wires, n, g)) && n.active && n.attempt == Some(Resubmitting(t, []))
    ensures var m := n.(stream := t, delivered := 1, reading := true, recovering := false, attempt := None);
            Reachable(Narrow, At(log, guest, wires, m, g))
  {
    hide Reachable;
    var room := At(log, guest, wires, n, g);
    ReachStep(Narrow, room, GuestAdopts(1));
    GuestStepped(room, n, n.(stream := t, delivered := 1, reading := true, recovering := false, attempt := None));
  }

  lemma Takes(log: seq<Event>, guest: Member, wires: map<Id, Wire>, n: Node, g: nat, frame: Down, m: Node)
    requires Reachable(Narrow, At(log, guest, wires, n, g)) && n.active && n.reading && n.stream in wires
    requires n.delivered < |wires[n.stream].down| && wires[n.stream].down[n.delivered] == frame
    requires TakeFrame(Narrow, n.(delivered := n.delivered + 1), frame) == m
    ensures Reachable(Narrow, At(log, guest, wires, m, g))
  {
    hide Reachable, Do, TakeFrame;
    var room := At(log, guest, wires, n, g);
    ReadsOne(Narrow, room, frame, m);
    ReachStep(Narrow, room, GuestReads(1));
    GuestStepped(room, n, m);
  }

  // ---- Steps of the owner ----

  lemma Pauses(log: seq<Event>, guest: Member, wires: map<Id, Wire>, n: Node, g: nat)
    ensures var h := HostWith(log, guest, wires, g);
            Do(Narrow, At(log, guest, wires, n, g), HostPauseRoom(true))
              == Room(h.(roomPaused := true, generation := g + 1), map[1 := n])
  {
    var none: map<Id, Pending> := map[];
    assert Cancelled(none, false) == {} && none - {} == none;
    assert ShutStreams(wires, none, {}) == wires;
  }

  lemma Resumes(log: seq<Event>, guest: Member, wires: map<Id, Wire>, n: Node, g: nat)
    ensures var h := HostWith(log, guest, wires, g).(roomPaused := true, generation := g + 1);
            Do(Narrow, Room(h, map[1 := n]), HostPauseRoom(false)) == At(log, guest, wires, n, g + 2)
  {
  }

  /** The owner reads a text while the room is paused. */
  lemma ReadsPaused(log: seq<Event>, s: Id, wires: map<Id, Wire>, g: nat, f: Submission)
    requires s in wires && wires[s].peer == Some(1) && wires[s].upRead < |wires[s].up|
    requires wires[s].up[wires[s].upRead] == TextSubmit(f)
    ensures var h := HostWith(log, OnlineOn(s), wires, g).(roomPaused := true, generation := g + 1);
            var w := Write(wires[s].(upRead := wires[s].upRead + 1), ActionRejected(f.clientEventId));
            ReadUp(h, Narrow, s) == h.(wires := wires[s := w])
  {
    hide ValidText, Answer, Written, After;
    var h := HostWith(log, OnlineOn(s), wires, g).(roomPaused := true, generation := g + 1);
    assert Readable(h, s) && Voice(h.members[1], s);
    var read := wires[s].(upRead := wires[s].upRead + 1);
    assert wires[s := read][s := Write(read, ActionRejected(f.clientEventId))]
      == wires[s := Write(read, ActionRejected(f.clientEventId))];
  }

  /** The room is paused just while the owner reads one text. */
  lemma Rejects(log: seq<Event>, s: Id, wires: map<Id, Wire>, n: Node, g: nat, f: Submission)
    requires Reachable(Narrow, At(log, OnlineOn(s), wires, n, g))
    requires s in wires && wires[s].peer == Some(1) && wires[s].upRead < |wires[s].up|
    requires wires[s].up[wires[s].upRead] == TextSubmit(f)
    ensures var w := Write(wires[s].(upRead := wires[s].upRead + 1), ActionRejected(f.clientEventId));
            Reachable(Narrow, At(log, OnlineOn(s), wires[s := w], n, g + 2))
  {
    hide Reachable, Do, ReadUp, OnlineOn;
    var w := Write(wires[s].(upRead := wires[s].upRead + 1), ActionRejected(f.clientEventId));
    var paused := HostWith(log, OnlineOn(s), wires, g).(roomPaused := true, generation := g + 1);
    Pauses(log, OnlineOn(s), wires, n, g);
    ReachStep(Narrow, At(log, OnlineOn(s), wires, n, g), HostPauseRoom(true));
    ReadsPaused(log, s, wires, g, f);
    ReadStep(Narrow, Room(paused, map[1 := n]), s);
    ReachStep(Narrow, Room(paused, map[1 := n]), HostRead(s));
    Resumes(log, OnlineOn(s), wires[s := w], n, g);
    ReachStep(Narrow, Room(paused.(wires := wires[s := w]), map[1 := n]), HostPauseRoom(false));
  }

  lemma Commits2(log: seq<Event>, s: Id, wires: map<Id, Wire>, n: Node, g: nat, f: Submission) returns (e: Event)
    requires Reachable(Narrow, At(log, OnlineOn(s), wires, n, g)) && f.text == "x"
    requires s in wires && wires[s].peer == Some(1) && wires[s].upRead < |wires[s].up|
    requires wires[s].up[wires[s].upRead] == TextSubmit(f)
    requires Answer(Written(log, 1), 2, f.clientEventId) == None
    ensures e == Event(|log| + 1, Text(1, f.clientEventId, "x"))
    ensures Written(log + [e], 1) == Written(log, 1) + [Entry(f.clientEventId, |log| + 1)]
    ensures var w := Write(wires[s].(upRead := wires[s].upRead + 1), RoomEvent(e));
            Reachable(Narrow, At(log + [e], OnlineOn(s), wires[s := w], n, g))
  {
    hide Reachable, Do, ReadUp, ValidText, Answer, Written, OnlineOn;
    XIsText(Narrow);
    e := Event(|log| + 1, Text(1, f.clientEventId, "x"));
    ReadsNew(Narrow, log, s, wires, f, g);
    ReadStep(Narrow, At(log, OnlineOn(s), wires, n, g), s);
    ReachStep(Narrow, At(log, OnlineOn(s), wires, n, g), HostRead(s));
  }

  lemma KeepsOne(log: seq<Event>, number: nat)
    requires number + 1 < |log|
    ensures After(Narrow, log, number) == None
  {
    AfterIsLog(Narrow, log, number);
  }

  /** The owner knows the text, but can no longer replay its event. */
  lemma Expires(log: seq<Event>, s: Id, wires: map<Id, Wire>, n: Node, g: nat, f: Submission, prior: nat)
    requires Reachable(Narrow, At(log, OnlineOn(s), wires, n, g)) && f.text == "x"
    requires s in wires && wires[s].peer == Some(1) && wires[s].upRead < |wires[s].up|
    requires wires[s].up[wires[s].upRead] == TextSubmit(f)
    requires Answer(Written(log, 1), 2, f.clientEventId) == Some(prior) && 1 <= prior < |log|
    ensures var w := Write(wires[s].(upRead := wires[s].upRead + 1), ActionRejected(f.clientEventId));
            Reachable(Narrow, At(log, OnlineOn(s), wires[s := w], n, g))
  {
    hide Reachable, Do, Answer, Written;
    ReadsKnown(log, s, wires, g, f, prior);
    ReadStep(Narrow, At(log, OnlineOn(s), wires, n, g), s);
    ReachStep(Narrow, At(log, OnlineOn(s), wires, n, g), HostRead(s));
  }

  lemma ReadsKnown(log: seq<Event>, s: Id, wires: map<Id, Wire>, g: nat, f: Submission, prior: nat)
    requires f.text == "x"
    requires s in wires && wires[s].peer == Some(1) && wires[s].upRead < |wires[s].up|
    requires wires[s].up[wires[s].upRead] == TextSubmit(f)
    requires Answer(Written(log, 1), 2, f.clientEventId) == Some(prior) && 1 <= prior < |log|
    ensures var w := Write(wires[s].(upRead := wires[s].upRead + 1), ActionRejected(f.clientEventId));
            ReadUp(HostWith(log, OnlineOn(s), wires, g), Narrow, s) == HostWith(log, OnlineOn(s), wires[s := w], g)
  {
    hide ValidText, Answer, Written, After;
    XIsText(Narrow);
    KeepsOne(log, prior - 1);
    var h := HostWith(log, OnlineOn(s), wires, g);
    assert Readable(h, s) && Voice(h.members[1], s);
    var read := wires[s].(upRead := wires[s].upRead + 1);
    assert wires[s := read][s := Write(read, ActionRejected(f.clientEventId))]
      == wires[s := Write(read, ActionRejected(f.clientEventId))];
  }

  /** Told to jump to the end of the log, with nothing replayed. */
  lemma Skipped(log: seq<Event>, t: Id, claim: nat, wires: map<Id, Wire>, g: nat)
    requires t in wires && !wires[t].closed && claim + 1 < |log|
    ensures var w := Write(wires[t], Resync(|log|, Roster4));
            ContinueResume(HostWith(log, Leaving(t, claim), wires, g), Narrow, 1, true)
              == HostWith(log, Leaving(t, |log|), wires[t := w], g)
  {
    hide After;
    KeepsOne(log, claim);
    var h := HostWith(log, Leaving(t, claim), wires, g);
    assert Faces(h.members) == Roster4;
    assert h.members[1 := Leaving(t, |log|)] == map[0 := Member(Owner, Online, None, 0, None), 1 := Leaving(t, |log|)];
  }

  /** The owner takes a resume from stream `s` to stream `t`, and brings the guest online again. */
  lemma TakesOverFully(log: seq<Event>, s: Id, t: Id, wires: map<Id, Wire>, n: Node, g: nat)
    returns (away: Event, back: Event, down: seq<Down>)
    requires Reachable(Narrow, At(log, OnlineOn(s), wires, n, g)) && s in wires && t in wires && s != t
    requires wires[t] == Wire(Some(1), wires[t].claim, Fresh, 0, [], false, [], 0) && wires[t].claim < |log|
    ensures away == Event(|log| + 1, State(1, Reconnecting)) && back == Event(|log| + 2, State(1, Online))
    ensures down == [ResumeAccept(|log| + 1), Resync(|log| + 1, Roster4), RoomEvent(back)]
    ensures Reachable(Narrow, At(log + [away] + [back], OnlineOn(t),
                                 wires[s := wires[s].(closed := true)]
                                      [t := Wire(Some(1), wires[t].claim, Accepted, |log| + 1, down, false, [], 0)],
                                 n, g))
  {
    hide Reachable, Do, AcceptResume, ContinueResume;
    var claim := wires[t].claim;
    away, back := Event(|log| + 1, State(1, Reconnecting)), Event(|log| + 2, State(1, Online));
    var r0 := At(log, OnlineOn(s), wires, n, g);
    AcceptsResume(log, s, t, wires, g);
    AcceptStep(Narrow, r0, t);
    ReachStep(Narrow, r0, HostAcceptResume(t, true));
    var later := log + [away];
    var m1 := wires[s := wires[s].(closed := true)]
                   [t := Wire(Some(1), claim, Accepted, |log| + 1, [ResumeAccept(|log| + 1)], false, [], 0)];
    var r1 := At(later, Leaving(t, claim), m1, n, g);
    Skipped(later, t, claim, m1, g);
    ContinueStep(Narrow, r1);
    ReachStep(Narrow, r1, HostContinueResume(1, true));
    var m2 := m1[t := Write(m1[t], Resync(|later|, Roster4))];
    var r2 := At(later, Leaving(t, |later|), m2, n, g);
    ComesOnline(Narrow, later, t, m2, g);
    ContinueStep(Narrow, r2);
    ReachStep(Narrow, r2, HostContinueResume(1, true));
    down := [ResumeAccept(|log| + 1), Resync(|log| + 1, Roster4), RoomEvent(back)];
    assert m2[t].down + [RoomEvent(back)] == down;
    assert m2[t := Write(m2[t], RoomEvent(back))]
      == wires[s := wires[s].(closed := true)]
              [t := Wire(Some(1), claim, Accepted, |log| + 1, down, false, [], 0)];
  }

  // ---- The run ----

  const T: Submission := Submission(0, "x")
  const X: Submission := Submission(1, "x")
  const U: Submission := Submission(2, "x")

  const E1: Event := Event(1, Joined(1, Self))

  const Both: Node := Node(0, 1, true, 0, Roster0[1 := Self], 0, 1, true, false, None, [T, X], 0, [], {0, 1})

  lemma Starts()
    ensures Reachable(Narrow, At([E1], OnlineOn(0),
                                 map[0 := Wire(Some(1), 0, Accepted, 0, [Admission, RoomEvent(E1)], false, [], 0)],
                                 Both.(pending := [], used := {}), 0))
  {
    hide Reachable;
    ReachJoined(Narrow);
    assert Log3[..1] == [E1];
  }

  /** Two texts are sent; the first is rejected in a pause, the second is committed. */
  lemma FirstStream() returns (e: Event, w0: Wire)
    ensures e == Event(2, Text(1, 1, "x")) && w0.peer == Some(1)
    ensures w0.down == [Admission, RoomEvent(E1), ActionRejected(0), RoomEvent(e)]
    ensures Written([E1] + [e], 1) == [Entry(1, 2)]
    ensures Reachable(Narrow, At([E1] + [e], OnlineOn(0), map[0 := w0], Both, 2))
  {
    hide Reachable, Written, Answer, OnlineOn;
    Starts();
    var a := Wire(Some(1), 0, Accepted, 0, [Admission, RoomEvent(E1)], false, [], 0);
    var n := Both.(pending := [], used := {});
    Submits([E1], OnlineOn(0), map[0 := a], n, 0, T);
    var b := a.(up := [] + [TextSubmit(T)]);
    assert [] + [T] == [T] && {} + {0} == {0};
    var n1 := n.(pending := [T], used := {0});
    Submits([E1], OnlineOn(0), map[0 := a][0 := b], n1, 0, X);
    assert [T] + [X] == [T, X] && {0} + {1} == {0, 1};
    var c := b.(up := b.up + [TextSubmit(X)]);
    var m := map[0 := a][0 := b][0 := c];
    Rejects([E1], 0, m, Both, 0, T);
    var d := Write(c.(upRead := 1), ActionRejected(0));
    WrittenNothing([E1], 1);
    UnknownIfNever([], 2, 1);
    e := Commits2([E1], 0, m[0 := d], Both, 2, X);
    w0 := Write(d.(upRead := 2), RoomEvent(e));
    assert m[0 := d][0 := w0] == map[0 := w0];
    assert [] + [Entry(1, 2)] == [Entry(1, 2)];
  }

  const OneLeft: Node :=
    Node(0, 1, true, 1, Roster0[1 := Self], 1, 1, true, false, None, [X], 0, [Applied(E1)], {0, 1})

  lemma TakesJoining(n: Node)
    requires n.lastSeq == 0 && n.members == Roster0[1 := Self] && n.heard == []
    ensures TakeFrame(Narrow, n, RoomEvent(E1)) == n.(lastSeq := 1, heard := [Applied(E1)])
  {
    assert [] + [Applied(E1)] == [Applied(E1)];
    assert Roster0[1 := Self][1 := Self] == Roster0[1 := Self];
  }

  lemma TakesRejection(n: Node)
    requires n.pending == [T, X]
    ensures TakeFrame(Narrow, n, ActionRejected(0)) == n.(pending := [X])
  {
    assert [T, X][1..] == [X] && [X][1..] == [];
    assert Drop([X], 0) == [X] + [];
    assert Drop([T, X], 0) == [] + [X];
  }

  /**
   * The guest recovers; it reads the rejection on the old stream after the new
   * one was granted, and sends both texts again.
   */
  lemma SecondStream(e: Event, w0: Wire) returns (log: seq<Event>, wires: map<Id, Wire>)
    requires w0.peer == Some(1) && w0.down == [Admission, RoomEvent(E1), ActionRejected(0), RoomEvent(e)]
    requires e.number == 2 && Reachable(Narrow, At([E1] + [e], OnlineOn(0), map[0 := w0], Both, 2))
    ensures |log| == 4 && log[1] == [E1, e][1] && Written(log, 1) == Written([E1] + [e], 1)
    ensures 1 in wires && 2 !in wires && wires[1].peer == Some(1) && wires[1].upRead == 0
    ensures wires[1].up == [TextSubmit(T), TextSubmit(X)]
    ensures Reachable(Narrow, At(log, OnlineOn(1), wires, OneLeft, 2))
  {
    hide Reachable, Written, TakeFrame, OnlineOn;
    var l2 := [E1] + [e];
    AsksOn(l2, OnlineOn(0), map[0 := w0], Both, 2, 1);
    var asked := map[0 := w0][1 := Wire(Some(1), 0, Fresh, 0, [], false, [], 0)];
    var n1 := Both.(recovering := true, attempt := Some(Asked(1)));
    var away, back, down := TakesOverFully(l2, 0, 1, asked, n1, 2);
    log := l2 + [away] + [back];
    WrittenGrows(l2, away, 1);
    WrittenGrows(l2 + [away], back, 1);
    var m := asked[0 := w0.(closed := true)][1 := Wire(Some(1), 0, Accepted, 3, down, false, [], 0)];
    HearsYes(log, OnlineOn(1), m, n1, 2, 1);
    var n2 := n1.(attempt := Some(Resubmitting(1, [T, X])));
    var n3 := n2.(delivered := 2, lastSeq := 1, heard := [Applied(E1)]);
    TakesJoining(n2.(delivered := 2));
    Takes(log, OnlineOn(1), m, n2, 2, RoomEvent(E1), n3);
    TakesRejection(n3.(delivered := 3));
    var n4 := n3.(delivered := 3, pending := [X]);
    Takes(log, OnlineOn(1), m, n3, 2, ActionRejected(0), n4);
    wires := SendsBoth(log, m, n4);
  }

  lemma SendsBoth(log: seq<Event>, m: map<Id, Wire>, n: Node) returns (wires: map<Id, Wire>)
    requires 1 in m && 2 !in m && m[1].up == [] && Reachable(Narrow, At(log, OnlineOn(1), m, n, 2))
    requires n.active && n.attempt == Some(Resubmitting(1, [T, X]))
    ensures wires == m[1 := m[1].(up := [TextSubmit(T), TextSubmit(X)])]
    ensures var a := n.(stream := 1, delivered := 1, reading := true, recovering := false, attempt := None);
            Reachable(Narrow, At(log, OnlineOn(1), wires, a, 2))
  {
    hide Reachable, OnlineOn;
    Resends(log, OnlineOn(1), m, n, 2, 1, [T, X]);
    var w := m[1].(up := [] + [TextSubmit(T)]);
    assert [T, X][1..] == [X] && [X][1..] == [];
    var n1 := n.(attempt := Some(Resubmitting(1, [X])));
    Resends(log, OnlineOn(1), m[1 := w], n1, 2, 1, [X]);
    var v := w.(up := w.up + [TextSubmit(X)]);
    assert v.up == [TextSubmit(T), TextSubmit(X)];
    wires := m[1 := w][1 := v];
    Adopts(log, OnlineOn(1), wires, n1.(attempt := Some(Resubmitting(1, []))), 2, 1);
  }

  const Full: Node := OneLeft.(pending := [X, U], used := {0, 1, 2})

  lemma StillKnown()
    ensures Answer([Entry(1, 2)] + [Entry(0, 5)], 2, 1) == Some(2)
  {
    var wr := [Entry(1, 2)] + [Entry(0, 5)];
    RecentOfFresh(wr);
    hide Answer, Recent;
    KnownIffRecent(wr, 2, 0);
  }

  lemma NowForgotten()
    ensures Answer([Entry(1, 2)] + [Entry(0, 5)] + [Entry(2, 6)], 2, 1) == None
  {
    var wr := [Entry(1, 2)] + [Entry(0, 5)] + [Entry(2, 6)];
    RecentOfFresh(wr);
    hide Answer, Recent;
    KnownIffRecent(wr, 2, 0);
  }

  /** There is room for one more text; the owner commits the first and the third of them. */
  lemma ThreeTexts(l4: seq<Event>, m: map<Id, Wire>) returns (log: seq<Event>, wires: map<Id, Wire>)
    requires |l4| == 4 && Written(l4, 1) == [Entry(1, 2)] && Reachable(Narrow, At(l4, OnlineOn(1), m, OneLeft, 2))
    requires 1 in m && 2 !in m && m[1].peer == Some(1) && m[1].upRead == 0 && m[1].up == [TextSubmit(T), TextSubmit(X)]
    ensures |log| == 6 && l4 <= log && 1 in wires && 2 !in wires
    ensures Written(log, 1) == [Entry(1, 2)] + [Entry(0, 5)] + [Entry(2, 6)]
    ensures Reachable(Narrow, At(log, OnlineOn(1), wires, Full, 2))
  {
    hide Reachable, Written, Answer, OnlineOn;
    Submits(l4, OnlineOn(1), m, OneLeft, 2, U);
    assert [X] + [U] == [X, U] && {0, 1} + {2} == {0, 1, 2};
    var w := m[1].(up := m[1].up + [TextSubmit(U)]);
    UnknownIfNever([Entry(1, 2)], 2, 0);
    var e5 := Commits2(l4, 1, m[1 := w], Full, 2, T);
    var w1 := Write(w.(upRead := 1), RoomEvent(e5));
    StillKnown();
    Expires(l4 + [e5], 1, m[1 := w][1 := w1], Full, 2, X, 2);
    var w2 := Write(w1.(upRead := 2), ActionRejected(1));
    UnknownIfNever([Entry(1, 2)] + [Entry(0, 5)], 2, 2);
    var e6 := Commits2(l4 + [e5], 1, m[1 := w][1 := w1][1 := w2], Full, 2, U);
    log := l4 + [e5] + [e6];
    wires := m[1 := w][1 := w1][1 := w2][1 := Write(w2.(upRead := 3), RoomEvent(e6))];
  }

  /** One more recovery, and the second text is committed again. */
  lemma ThirdStream(l6: seq<Event>, m: map<Id, Wire>) returns (room: Room)
    requires |l6| == 6 && Written(l6, 1) == [Entry(1, 2)] + [Entry(0, 5)] + [Entry(2, 6)]
    requires 1 in m && 2 !in m && Reachable(Narrow, At(l6, OnlineOn(1), m, Full, 2))
    ensures Reachable(Narrow, room) && 1 in room.guests && room.guests[1].heard == [Applied(E1)]
    ensures |room.host.log| == 9 && l6 <= room.host.log && room.host.log[8].body == Text(1, 1, "x")
  {
    hide Reachable, Written, Answer, OnlineOn;
    AsksOn(l6, OnlineOn(1), m, Full, 2, 2);
    var n1 := Full.(recovering := true, attempt := Some(Asked(2)));
    var asked := m[2 := Wire(Some(1), 1, Fresh, 0, [], false, [], 0)];
    var away, back, down := TakesOverFully(l6, 1, 2, asked, n1, 2);
    var l8 := l6 + [away] + [back];
    WrittenGrows(l6, away, 1);
    WrittenGrows(l6 + [away], back, 1);
    var m1 := asked[1 := asked[1].(closed := true)][2 := Wire(Some(1), 1, Accepted, 7, down, false, [], 0)];
    HearsYes(l8, OnlineOn(2), m1, n1, 2, 2);
    var n2 := n1.(attempt := Some(Resubmitting(2, [X, U])));
    Resends(l8, OnlineOn(2), m1, n2, 2, 2, [X, U]);
    var w := m1[2].(up := [] + [TextSubmit(X)]);
    var n3 := n2.(attempt := Some(Resubmitting(2, [X, U][1..])));
    NowForgotten();
    assert Written(l8, 1) == Written(l6, 1);
    var e9 := Commits2(l8, 2, m1[2 := w], n3, 2, X);
    room := At(l8 + [e9], OnlineOn(2), m1[2 := w][2 := Write(w.(upRead := 1), RoomEvent(e9))], n3, 2);
  }

  predicate NeverJumped(n: Node) {
    forall i :: 0 <= i < |n.heard| ==> n.heard[i].Applied?
  }

  /**
   * A window as large as the bound on pending texts does not suffice: there is
   * a run, with no jump at all, in which the owner commits one text twice.
   */
  lemma WindowOfTheBoundIsTooSmall()
    ensures Narrow.sendQueueMaxFrames == Narrow.dedupeMaxItems
    ensures exists room :: Reachable(Narrow, room) && 1 in room.guests && NeverJumped(room.guests[1])
                           && !NoTextTwice(room.host.log, 1)
  {
    hide Reachable, Written;
    var e, w0 := FirstStream();
    var l4, m4 := SecondStream(e, w0);
    var l6, m6 := ThreeTexts(l4, m4);
    var room := ThirdStream(l6, m6);
    assert room.host.log[1] == e;
    assert !NoTextTwice(room.host.log, 1);
  }
}
