/**
 * What a resync costs. A guest that is told to resync past a text of its own
 * keeps that text pending, because the owner's answer to it is an event the
 * guest is already past; so the text is sent again after every recovery, and
 * once enough other texts were committed the owner commits it again. However
 * large the window, there is a run in which that happens.
 */
module RoomResync {
  import opened Basics
  import opened RoomTypes
  import opened ReplayBuffer
  import opened EventDeduper
  import opened RoomHost
  import opened RoomNode
  import opened RoomSystem
  import opened RoomReplication
  import opened RoomTexts
  import opened RoomResends
  import opened RoomOnce
  import opened RoomStuck

  // ---- Other texts push it out of the window ----

  function Two(log: seq<Event>, w0: Wire, w1: Wire, n: Node): Room {
    Room(HostWith(log, Here, map[0 := w0, 1 := w1]), map[1 := n])
  }

  /** The guest is online and caught up, with text 0 pending although it is committed, and `count` texts after it. */
  ghost predicate Idle(cfg: Config, log: seq<Event>, w0: Wire, w1: Wire, n: Node, count: nat) {
    && Reachable(cfg, Two(log, w0, w1, n))
    && w1.peer == Some(1) && !w1.closed && w1.upRead == |w1.up|
    && n.active && n.id == 1 && n.lastSeq == |log| && 1 in n.members && n.stream == 1 && n.delivered == |w1.down|
    && n.reading && !n.recovering && n.attempt == None && n.pending == [A]
    && (forall u :: u in n.used ==> u <= count)
    && OnlyTexts(Written(log, 1), count + 1)
  }

  /** The guest wrote the texts 0, 1, 2, ... in that order. */
  ghost predicate OnlyTexts(wr: seq<Entry>, count: nat) {
    |wr| == count && forall i :: 0 <= i < |wr| ==> wr[i].id == i
  }

  lemma StuckIsIdle(frames: nat, window: nat) returns (w0: Wire)
    requires frames >= 2 && window >= 1
    ensures Idle(Small(frames, window), Log5, w0, Resuming1(Answered, [TextSubmit(A)], 1), Stuck, 0)
  {
    hide Reachable, Written;
    w0 := ReachStuck(frames, window);
    WrittenLog5();
    assert Two(Log5, w0, Resuming1(Answered, [TextSubmit(A)], 1), Stuck)
      == Later(w0, Answered, [TextSubmit(A)], 1, Stuck);
  }

  lemma TextsStep(cfg: Config, room: Room, f: Submission)
    requires 1 in room.guests && room.guests[1].active && !room.guests[1].recovering
      && room.guests[1].stream in room.host.wires
    requires |room.guests[1].pending| < cfg.sendQueueMaxFrames && f.clientEventId !in room.guests[1].used
      && ValidText(cfg, f.text)
    ensures var n := room.guests[1];
            var w := room.host.wires[n.stream];
            var m := n.(pending := n.pending + [f], used := n.used + {f.clientEventId});
            var k := room.host.(wires := room.host.wires[n.stream := w.(up := w.up + [TextSubmit(f)])]);
            Do(cfg, room, GuestTexts(1, f)) == Room(k, room.guests[1 := m])
  {
    hide ValidText;
  }

  /** The owner reads a text it does not know from the stream the guest is online on. */
  lemma {:induction false} ReadsNew(cfg: Config, log: seq<Event>, s: Id, wires: map<Id, Wire>, f: Submission,
                                    g: nat := 0)
    requires s in wires && wires[s].peer == Some(1) && wires[s].upRead < |wires[s].up|
      && wires[s].up[wires[s].upRead] == TextSubmit(f)
    requires ValidText(cfg, f.text) && Answer(Written(log, 1), cfg.dedupeMaxItems, f.clientEventId) == None
    ensures var e := Event(|log| + 1, Text(1, f.clientEventId, f.text));
            var w := Write(wires[s].(upRead := wires[s].upRead + 1), RoomEvent(e));
            ReadUp(HostWith(log, OnlineOn(s), wires, g), cfg, s) == HostWith(log + [e], OnlineOn(s), wires[s := w], g)
    ensures Written(log + [Event(|log| + 1, Text(1, f.clientEventId, f.text))], 1)
      == Written(log, 1) + [Entry(f.clientEventId, |log| + 1)]
  {
    var h := HostWith(log, OnlineOn(s), wires, g);
    assert NextText(h, s, 1, f);
    var e := Event(|log| + 1, Text(1, f.clientEventId, f.text));
    hide ReadUp, Commit, ValidText, Answer, Written, NextText;
    ReadsText(h, cfg, s, 1, f);
    WrittenGrows(log, e, 1);
    var read := wires[s := wires[s].(upRead := wires[s].upRead + 1)];
    CommitsOn(log, s, read, e, g);
    assert read[s := Write(read[s], RoomEvent(e))] == wires[s := Write(read[s], RoomEvent(e))];
  }

  /** The guest applies its own text, the second of two that are pending. */
  lemma TakesOwn(cfg: Config, n: Node, e: Event, f: Submission)
    requires e.body == Text(1, f.clientEventId, f.text) && ValidText(cfg, f.text)
    requires n.id == 1 && 1 in n.members && e.number == n.lastSeq + 1 && n.pending == [A, f] && f.clientEventId != 0
    ensures TakeFrame(cfg, n, RoomEvent(e)) == n.(lastSeq := e.number, heard := n.heard + [Applied(e)], pending := [A])
  {
    hide ValidText;
    assert [A, f][1..] == [f] && [f][1..] == [];
    assert Drop([f], f.clientEventId) == [];
    assert Drop([A, f], f.clientEventId) == [A] + [];
  }

  lemma UnknownText(wr: seq<Entry>, window: nat, count: nat)
    requires OnlyTexts(wr, count)
    ensures Answer(wr, window, count) == None
  {
    UnknownIfNever(wr, window, count);
  }

  lemma Round(cfg: Config, log: seq<Event>, w0: Wire, w1: Wire, n: Node, count: nat) 
    returns (e: Event, w: Wire, m: Node)
    requires cfg.textBytes == 1 && cfg.sendQueueMaxFrames >= 2 && Idle(cfg, log, w0, w1, n, count)
    ensures Idle(cfg, log + [e], w0, w, m, count + 1)
  {
    hide Reachable, Do, ReadUp, ValidText, Written, Answer, TakeFrame;
    XIsText(cfg);
    var f := Submission(count + 1, "x");
    e := Event(|log| + 1, Text(1, count + 1, "x"));
    var r0 := Two(log, w0, w1, n);
    var sent := w1.(up := w1.up + [TextSubmit(f)]);
    var n1 := n.(pending := [A, f], used := n.used + {count + 1});
    assert [A] + [f] == [A, f];
    TextsStep(cfg, r0, f);
    assert r0.host.wires[1 := sent] == map[0 := w0, 1 := sent];
    assert r0.guests[1 := n1] == map[1 := n1];
    var r1 := Two(log, w0, sent, n1);
    ReachStep(cfg, r0, GuestTexts(1, f));
    UnknownText(Written(log, 1), cfg.dedupeMaxItems, count + 1);
    ReadsNew(cfg, log, 1, r1.host.wires, f);
    w := Write(sent.(upRead := sent.upRead + 1), RoomEvent(e));
    assert r1.host.wires[1 := w] == map[0 := w0, 1 := w];
    ReadStep(cfg, r1, 1);
    ReachStep(cfg, r1, HostRead(1));
    var r2 := Two(log + [e], w0, w, n1);
    assert r1.(host := r2.host) == r2;
    m := n.(delivered := n.delivered + 1, lastSeq := |log| + 1, heard := n.heard + [Applied(e)], used := n1.used);
    TakesOwn(cfg, n1.(delivered := n.delivered + 1), e, f);
    ReadsOne(cfg, r2, RoomEvent(e), m);
    ReachStep(cfg, r2, GuestReads(1));
    assert r2.guests[1 := m] == map[1 := m];
  }

  lemma {:induction false} Rounds(frames: nat, window: nat, count: nat) returns (log: seq<Event>, w0: Wire, w1: Wire,
    n: Node)
    requires frames >= 2 && window >= 1
    ensures Idle(Small(frames, window), log, w0, w1, n, count)
  {
    hide Idle;
    if count == 0 {
      w0 := StuckIsIdle(frames, window);
      log, w1, n := Log5, Resuming1(Answered, [TextSubmit(A)], 1), Stuck;
    } else {
      var before, v, m, e;
      before, w0, v, m := Rounds(frames, window, count - 1);
      e, w1, n := Round(Small(frames, window), before, w0, v, m, count - 1);
      log := before + [e];
    }
  }

  // ---- One more recovery, and the text is committed again ----

  /** The room while the guest recovers on stream 2. */
  function Third(log: seq<Event>, guest: Member, w0: Wire, w1: Wire, w2: Wire, n: Node): Room {
    Room(HostWith(log, guest, map[0 := w0, 1 := w1, 2 := w2]), map[1 := n])
  }

  lemma LosesAgain(cfg: Config, log: seq<Event>, w0: Wire, w1: Wire, n: Node)
    requires n.active && n.id == 1 && n.attempt == None && n.lastSeq == |log|
    requires Reachable(cfg, Two(log, w0, w1, n))
    ensures Reachable(cfg, Third(log, Here, w0, w1, Wire(Some(1), |log|, Fresh, 0, [], false, [], 0),
                                 n.(recovering := true, attempt := Some(Asked(2)))))
  {
    hide Reachable;
    var r0 := Two(log, w0, w1, n);
    var n1 := n.(recovering := true);
    ReachStep(cfg, r0, GuestSendFails(1));
    assert r0.guests[1 := n1] == map[1 := n1];
    var r1 := Two(log, w0, w1, n1);
    ReachStep(cfg, r1, GuestDials(1, 2));
    var n2 := n1.(attempt := Some(Asked(2)));
    var w2 := Wire(Some(1), |log|, Fresh, 0, [], false, [], 0);
    assert r1.guests[1 := n2] == map[1 := n2];
    assert r1.host.wires[2 := w2] == map[0 := w0, 1 := w1, 2 := w2];
  }

  function OnTwo(claim: nat, down: seq<Down>, up: seq<Up>, upRead: nat): Wire {
    Wire(Some(1), claim, Accepted, claim + 1, down, false, up, upRead)
  }

  /** The guest is sent the one event it misses. */
  lemma SendsOne(frames: nat, window: nat, log: seq<Event>, e: Event, wires: map<Id, Wire>)
    requires e.number == |log| + 1 && 2 in wires
    ensures var guest := Member(Guest, Reconnecting, None, 0, Some(Resume(2, |log|, [])));
            var caught := Member(Guest, Reconnecting, None, 0, Some(Resume(2, |log| + 1, [])));
            !wires[2].closed ==>
              ContinueResume(HostWith(log + [e], guest, wires), Small(frames, window), 1, true)
              == HostWith(log + [e], caught, wires[2 := Write(wires[2], RoomEvent(e))])
  {
    hide After;
    KeepsThree(frames, window, log + [e], |log|);
    assert (log + [e])[|log|..] == [e] && [e][1..] == [];
    var guest := Member(Guest, Reconnecting, None, 0, Some(Resume(2, |log|, [])));
    var caught := Member(Guest, Reconnecting, None, 0, Some(Resume(2, |log| + 1, [])));
    assert HostWith(log, guest, wires).members[1 := caught]
      == map[0 := Member(Owner, Online, None, 0, None), 1 := caught];
  }

  lemma {:induction false} CatchesUp(frames: nat, window: nat, log: seq<Event>, w0: Wire, w1: Wire, n: Node)
    returns (away: Event, back: Event, w: Wire, down: seq<Down>)
    requires var w2 := Wire(Some(1), |log|, Fresh, 0, [], false, [], 0);
             Reachable(Small(frames, window), Third(log, Here, w0, w1, w2, n))
    ensures away == Event(|log| + 1, State(1, Reconnecting)) && back == Event(|log| + 2, State(1, Online))
    ensures down == [ResumeAccept(|log| + 1), RoomEvent(away), RoomEvent(back)]
    ensures Reachable(Small(frames, window), Third(log + [away] + [back], OnlineOn(2), w0, w,
                                                   OnTwo(|log|, down, [], 0), n))
  {
    var cfg := Small(frames, window);
    hide Reachable, Do, AcceptResume, ContinueResume;
    var r0 := Third(log, Here, w0, w1, Wire(Some(1), |log|, Fresh, 0, [], false, [], 0), n);
    away, back, w := Event(|log| + 1, State(1, Reconnecting)), Event(|log| + 2, State(1, Online)), w1.(closed := true);
    down := [ResumeAccept(|log| + 1), RoomEvent(away), RoomEvent(back)];
    AcceptsResume(log, 1, 2, r0.host.wires);
    AcceptStep(cfg, r0, 2);
    ReachStep(cfg, r0, HostAcceptResume(2, true));
    var d1 := [ResumeAccept(|log| + 1)];
    assert r0.host.wires[1 := w][2 := OnTwo(|log|, d1, [], 0)] == map[0 := w0, 1 := w, 2 := OnTwo(|log|, d1, [], 0)];
    var r1 := Third(log + [away], Member(Guest, Reconnecting, None, 0, Some(Resume(2, |log|, []))), w0, w,
                    OnTwo(|log|, d1, [], 0), n);
    SendsOne(frames, window, log, away, r1.host.wires);
    ContinueStep(cfg, r1);
    ReachStep(cfg, r1, HostContinueResume(1, true));
    var d2 := d1 + [RoomEvent(away)];
    assert r1.host.wires[2 := OnTwo(|log|, d2, [], 0)] == map[0 := w0, 1 := w, 2 := OnTwo(|log|, d2, [], 0)];
    var r2 := Third(log + [away], Member(Guest, Reconnecting, None, 0, Some(Resume(2, |log| + 1, []))), w0, w,
                    OnTwo(|log|, d2, [], 0), n);
    assert r1.(host := r2.host) == r2;
    ComesOnline(cfg, log + [away], 2, r2.host.wires);
    ContinueStep(cfg, r2);
    ReachStep(cfg, r2, HostContinueResume(1, true));
    assert d2 + [RoomEvent(back)] == down;
    assert r2.host.wires[2 := OnTwo(|log|, down, [], 0)] == map[0 := w0, 1 := w, 2 := OnTwo(|log|, down, [], 0)];
  }

  lemma HearsAgain(cfg: Config, room: Room, n: Node)
    requires room.guests == map[1 := n] && n.active && n.attempt == Some(Asked(2)) && n.pending == [A]
    requires 2 in room.host.wires && room.host.wires[2].down != [] && room.host.wires[2].down[0].ResumeAccept?
    requires room.host.wires[2].down[0].currentSeq >= room.host.wires[2].claim
    ensures Do(cfg, room, GuestAnswered(1)) == room.(guests := map[1 := n.(attempt := Some(Resubmitting(2, [A])))])
  {
    var n1 := n.(attempt := Some(Resubmitting(2, [A])));
    assert room.guests[1 := n1] == map[1 := n1];
  }

  lemma SendsOnceMore(cfg: Config, log: seq<Event>, w0: Wire, w1: Wire, claim: nat, down: seq<Down>, n: Node)
    requires n.active && n.attempt == Some(Asked(2)) && n.pending == [A]
    requires down != [] && down[0].ResumeAccept? && down[0].currentSeq >= claim
    requires Reachable(cfg, Third(log, OnlineOn(2), w0, w1, OnTwo(claim, down, [], 0), n))
    ensures Reachable(cfg, Third(log, OnlineOn(2), w0, w1, OnTwo(claim, down, [TextSubmit(A)], 0),
                                 n.(attempt := Some(Resubmitting(2, [])))))
  {
    hide Reachable;
    var r0 := Third(log, OnlineOn(2), w0, w1, OnTwo(claim, down, [], 0), n);
    var n1, n2 := n.(attempt := Some(Resubmitting(2, [A]))), n.(attempt := Some(Resubmitting(2, [])));
    HearsAgain(cfg, r0, n) by {
      hide Do;
    }
    ReachStep(cfg, r0, GuestAnswered(1));
    var r1 := Third(log, OnlineOn(2), w0, w1, OnTwo(claim, down, [], 0), n1);
    assert r0.(guests := map[1 := n1]) == r1;
    hide HostStep;
    ReachStep(cfg, r1, GuestResubmits(1));
    assert [A][1..] == [] && [] + [TextSubmit(A)] == [TextSubmit(A)];
    assert r1.guests[1 := n2] == map[1 := n2];
    var sent := OnTwo(claim, down, [TextSubmit(A)], 0);
    assert r1.host.wires[2 := sent] == map[0 := w0, 1 := w1, 2 := sent];
  }

  lemma Forgotten(wr: seq<Entry>, window: nat, count: nat)
    requires OnlyTexts(wr, count + 1) && count >= window
    ensures Answer(wr, window, 0) == None
  {
    RecentOfFresh(wr);
    hide Answer, Recent;
    KnownIffRecent(wr, window, 0);
  }

  lemma TwiceInLog(log: seq<Event>)
    requires log != [] && log[|log| - 1].body == Text(1, 0, "x")
    requires exists i :: 0 <= i < |log| - 1 && IsEntry(log[i].body, 1, 0)
    ensures !NoTextTwice(log, 1)
  {
  }

  lemma FirstIsThere(cfg: Config, room: Room, count: nat)
    requires GoodConfig(cfg) && Reachable(cfg, room) && OnlyTexts(Written(room.host.log, 1), count + 1)
    ensures exists i :: 0 <= i < |room.host.log| && IsEntry(room.host.log[i].body, 1, 0)
  {
    var rooms, steps :| Run(cfg, 0, 0, rooms, steps) && rooms[|steps|] == room;
    RunOk(cfg, 0, 0, rooms, steps, |steps|);
    LogIsNumbered(cfg, room.host);
    hide Run, RoomOk, Numbered, OnlyTexts, Written;
    FirstOf(room.host.log, count);
  }

  lemma {:induction false} FirstOf(log: seq<Event>, count: nat)
    requires Numbered(log) && OnlyTexts(Written(log, 1), count + 1)
    ensures exists i :: 0 <= i < |log| && IsEntry(log[i].body, 1, 0)
  {
    WrittenIsLog(log, 1);
    var e := Written(log, 1)[0];
    assert IsEntry(log[e.number - 1].body, 1, e.id);
  }

  /**
   * No window survives a resync: with room for two pending texts, and however
   * many ids the owner remembers, there is a run in which it commits one text
   * of a guest twice. So AtMostOnce does need that no text is ever stranded.
   */
  lemma NoWindowSurvivesResync(frames: nat, window: nat)
    requires frames >= 2 && window >= 1
    ensures exists room :: Reachable(Small(frames, window), room) && 1 in room.guests && !NoTextTwice(room.host.log, 1)
  {
    hide Reachable, Written, ReadUp, Do, NoTextTwice, Answer;
    var cfg := Small(frames, window);
    var log, w0, w1, n := Rounds(frames, window, window);
    FirstIsThere(cfg, Two(log, w0, w1, n), window);
    LosesAgain(cfg, log, w0, w1, n);
    var m := n.(recovering := true, attempt := Some(Asked(2)));
    var away, back, w, down := CatchesUp(frames, window, log, w0, w1, m);
    var later := log + [away] + [back];
    SendsOnceMore(cfg, later, w0, w, |log|, down, m);
    var r := Third(later, OnlineOn(2), w0, w, OnTwo(|log|, down, [TextSubmit(A)], 0),
                   m.(attempt := Some(Resubmitting(2, []))));
    WrittenGrows(log, away, 1);
    WrittenGrows(log + [away], back, 1);
    Forgotten(Written(later, 1), window, window);
    XIsText(cfg);
    ReadsNew(cfg, later, 2, r.host.wires, A);
    ReadStep(cfg, r, 2);
    ReachStep(cfg, r, HostRead(2));
    var last := Do(cfg, r, HostRead(2));
    var i :| 0 <= i < |log| && IsEntry(log[i].body, 1, 0);
    assert last.host.log[i] == log[i];
    TwiceInLog(last.host.log);
  }
}
