/**
 * What a guest reads: events, jumps and rejections keep the texts it may still
 * send again within the window, unless a jump strands one.
 */
module RoomReads {
  import opened Basics
  import opened RoomTypes
  import opened ReplayBuffer
  import opened EventDeduper
  import opened RoomHost
  import opened RoomHostSafety
  import opened RoomNode
  import opened RoomSystem
  import opened RoomGuarantee
  import opened RoomReplication
  import opened RoomCatchUp
  import opened RoomSeamless
  import opened RoomTexts
  import opened RoomRejections
  import opened RoomStranded
  import opened RoomResends

  // ---- What a guest reads ----

  lemma StreamsSettle(cfg: Config, h: Host, wr: seq<Entry>, n: Node, v: Note, a: Node, u: Note)
    requires StreamsOk(cfg, h, wr, n, v)
    requires a.id == n.id && a.used == n.used && a.stream == n.stream && u.held == v.held
    requires forall x :: x in Unsettled(n, v) && !Has(wr, x) ==> x in Unsettled(a, u)
    ensures StreamsOk(cfg, h, wr, a, u)
  {
    hide UpOk, UpDistinct, Live, ReadHere, Unsettled, Has, StreamsOk;
    forall s | s in h.wires && h.wires[s].peer == Some(a.id)
      ensures var w := h.wires[s];
              && UpDistinct(w, a.used) && w.upRead <= |w.up| && (w.phase != Accepted ==> w.up == [])
              && (Live(h, s) ==> UpOk(Span(cfg), wr, w, OnWay(a, u, s)) && ReadHere(wr, w))
    {
      StreamFacts(cfg, h, wr, n, v, s);
      if Live(h, s) {
        UpPendingShrinks(Span(cfg), wr, h.wires[s], OnWay(n, v, s), OnWay(a, u, s));
      }
    }
    StreamsFrom(cfg, h, wr, a, u);
  }

  lemma RestSettles(cfg: Config, h: Host, wr: seq<Entry>, n: Node, v: Note, a: Node, u: Note)
    requires RestOkay(cfg, h, wr, n, v)
    requires a.used == n.used && (a.attempt == n.attempt || a.attempt == None)
    requires forall x :: x in Unsettled(n, v) && !Has(wr, x) ==> x in Unsettled(a, u)
    ensures RestOkay(cfg, h, wr, a, u)
  {
    hide Live, Unsettled, Has, IdsIn, IdsOf, AfterIds, DistinctSubmissions;
  }

  lemma CurrentSettles(h: Host, wr: seq<Entry>, n: Node, a: Node)
    requires CurrentOk(h, wr, n)
    requires a.id == n.id && a.stream == n.stream && (a.attempt == n.attempt || a.attempt == None)
    requires n.recovering ==> a.recovering
    ensures CurrentOk(h, wr, a)
  {
    hide SettledFrom, Sole;
  }

  /** A step of the guest that writes nothing and keeps every uncommitted text in view. */
  lemma OnceSettles(cfg: Config, h: Host, n: Node, v: Note, a: Node, u: Note)
    requires Once(cfg, h, n, v)
    requires a.id == n.id && a.used == n.used && a.stream == n.stream && (a.attempt == n.attempt || a.attempt == None)
    requires (n.recovering ==> a.recovering) && u.held == v.held
    requires PendingOk(cfg, Written(h.log, n.id), a) && NoteOk(cfg, h, a, u) && n.stream in h.wires
    requires LaterOk(h, Written(h.log, n.id), a, u)
    requires forall x :: x in Unsettled(n, v) && !Has(Written(h.log, n.id), x) ==> x in Unsettled(a, u)
    ensures Once(cfg, h, a, u)
  {
    OnceParts(cfg, h, n, v);
    hide PendingOk, NoteOk, LaterOk, StreamsOk, RestOkay, CurrentOk, Distinct, Written, Has, Unsettled;
    var wr := Written(h.log, n.id);
    StreamsSettle(cfg, h, wr, n, v, a, u);
    RestSettles(cfg, h, wr, n, v, a, u);
    CurrentSettles(h, wr, n, a);
  }

  lemma OnceFlags(cfg: Config, h: Host, n: Node, v: Note, a: Node)
    requires Once(cfg, h, n, v)
    requires a.id == n.id && a.used == n.used && a.stream == n.stream && (a.attempt == n.attempt || a.attempt == None)
    requires (n.recovering ==> a.recovering) && a.lastSeq == n.lastSeq && IdsOf(a.pending) == IdsOf(n.pending)
    requires DistinctSubmissions(a.pending) && |a.pending| <= |n.pending|
    ensures Once(cfg, h, a, v)
  {
    OnceParts(cfg, h, n, v);
    var wr := Written(h.log, n.id);
    assert LaterOk(h, wr, a, v) by {
      hide Written, StreamsOk, RestOkay, CurrentOk, Has, Distinct, IdsOf, DistinctSubmissions, PendingOk, NoteOk;
      forall i | 0 <= i < |wr|
        ensures EntryLater(h, a, v, wr[i])
      {
        assert EntryLater(h, n, v, wr[i]);
      }
    }
    hide Written, StreamsOk, RestOkay, CurrentOk, Has, Distinct, IdsOf, DistinctSubmissions, LaterOk;
    OnceSettles(cfg, h, n, v, a, v);
  }

  lemma OnceDistinct(cfg: Config, h: Host, n: Node, v: Note)
    requires Once(cfg, h, n, v)
    ensures DistinctSubmissions(n.pending)
  {
    hide LaterOk, StreamsOk, RestOkay, CurrentOk, Distinct, Written, NoteOk;
  }

  lemma {:induction false} AppliedOwn(wr: seq<Entry>, e: nat, lastSeq: nat)
    requires Distinct(wr) && Increasing(wr) && e < |wr| && wr[e].number == lastSeq + 1
    ensures forall i :: 0 <= i < |wr| && wr[i].number > lastSeq + 1 ==> wr[i].id != wr[e].id
    ensures forall i :: 0 <= i < |wr| && wr[i].number > lastSeq && wr[i].id != wr[e].id ==> wr[i].number > lastSeq + 1
    ensures Has(wr, wr[e].id)
  {
    forall i | 0 <= i < |wr| && i != e
      ensures wr[i].id != wr[e].id && wr[i].number != lastSeq + 1
    {
      if i < e {
        assert wr[i].number < wr[e].number;
      } else {
        assert wr[e].number < wr[i].number && wr[e].id != wr[i].id;
      }
    }
  }

  /** The guest is past event number `lastSeq + 1`, which settled the texts `x`. */
  ghost predicate MovedOn(wr: seq<Entry>, n: Node, a: Node, x: set<Id>) {
    && (forall i :: 0 <= i < |wr| && wr[i].number > n.lastSeq + 1 ==> wr[i].id !in x)
    && (forall i :: 0 <= i < |wr| && wr[i].number > n.lastSeq && wr[i].id !in x ==> wr[i].number > n.lastSeq + 1)
    && a.lastSeq == n.lastSeq + 1 && a.used == n.used && a.id == n.id && a.stream == n.stream
    && a.attempt == n.attempt && a.recovering == n.recovering
    && IdsOf(a.pending) == IdsOf(n.pending) - x && DistinctSubmissions(a.pending) && |a.pending| <= |n.pending|
  }

  lemma MovesLater(h: Host, wr: seq<Entry>, n: Node, v: Note, a: Node, x: set<Id>)
    requires n.stream in h.wires && LaterOk(h, wr, n, v) && MovedOn(wr, n, a, x)
    ensures LaterOk(h, wr, a, v)
  {
    hide DistinctSubmissions, IdsOf, Floor, Opened, JoinedOn, Resumed;
    forall i | 0 <= i < |wr|
      ensures EntryLater(h, a, v, wr[i])
    {
      assert EntryLater(h, n, v, wr[i]);
    }
  }

  lemma MovesOn(cfg: Config, h: Host, wr: seq<Entry>, n: Node, v: Note, a: Node, x: set<Id>)
    requires n.stream in h.wires && PendingOk(cfg, wr, n) && NoteOk(cfg, h, n, v) && LaterOk(h, wr, n, v)
      && MovedOn(wr, n, a, x)
    ensures PendingOk(cfg, wr, a) && NoteOk(cfg, h, a, v) && LaterOk(h, wr, a, v)
  {
    hide DistinctSubmissions, IdsOf, NoteOk, LaterOk;
    MovesLater(h, wr, n, v, a, x);
    MovesNote(cfg, h, n, v, a);
  }

  lemma MovesNote(cfg: Config, h: Host, n: Node, v: Note, a: Node)
    requires NoteOk(cfg, h, n, v) && IdsOf(a.pending) <= IdsOf(n.pending)
    requires a.stream == n.stream && a.recovering == n.recovering && a.lastSeq >= n.lastSeq
    ensures NoteOk(cfg, h, a, v)
  {
    hide IdsOf, Floor, Opened, JoinedOn;
    CountSubset(Unsettled(a, v), Unsettled(n, v));
  }

  /** The ids that the next event of the log settles for its reader `id`: its own text, or nothing. */
  lemma {:induction false} SettledBy(log: seq<Event>, id: Id, event: Event) returns (x: set<Id>)
    requires Numbered(log) && 1 <= event.number <= |log| && log[event.number - 1] == event && Distinct(Written(log, id))
    ensures x == if event.body.Text? && event.body.senderId == id then {event.body.clientEventId} else {}
    ensures var wr := Written(log, id);
            && (forall i :: 0 <= i < |wr| && wr[i].number > event.number ==> wr[i].id !in x)
            && (forall i :: 0 <= i < |wr| && wr[i].number >= event.number && wr[i].id !in x ==>
                  wr[i].number > event.number)
            && (forall y :: y in x ==> Has(wr, y))
  {
    WrittenIsLog(log, id);
    var wr := Written(log, id);
    hide Written, Has, Distinct;
    if event.body.Text? && event.body.senderId == id {
      InWritten(log, id, event.number);
      var e :| 0 <= e < |wr| && wr[e] == Entry(event.body.clientEventId, event.number);
      AppliedOwn(wr, e, event.number - 1);
      x := {wr[e].id};
    } else {
      x := {};
      forall i | 0 <= i < |wr|
        ensures wr[i].number != event.number
      {
        assert IsEntry(log[wr[i].number - 1].body, id, wr[i].id);
      }
    }
  }

  /** Applying the next event of the log clears exactly the pending text it commits. */
  lemma AppliesOnce(cfg: Config, h: Host, n: Node, v: Note, event: Event)
    requires HostOk(cfg, h) && Once(cfg, h, n, v) && FrameOk(RoomEvent(event), Some(n.id), h.owner, h.log)
    requires Judge(cfg, n, event).InSequence?
    ensures Once(cfg, h, AcceptEvent(cfg, n, event), v)
  {
    OnceParts(cfg, h, n, v);
    LogIsNumbered(cfg, h);
    OnceDistinct(cfg, h, n, v);
    var wr := Written(h.log, n.id);
    var a := AcceptEvent(cfg, n, event);
    hide HostOk, PendingOk, NoteOk, LaterOk, StreamsOk, RestOkay, CurrentOk, Distinct, Written, Has, IdsOf,
      DistinctSubmissions,
      Once, AcceptEvent, Judge;
    AppliedPart(cfg, n, event);
    var x := SettledBy(h.log, n.id, event);
    MovesOn(cfg, h, wr, n, v, a, x);
    OnceSettles(cfg, h, n, v, a, v);
  }

  // ---- Rejections ----

  lemma DropMissing(pending: seq<Submission>, id: Id)
    requires DistinctSubmissions(pending)
    ensures id !in IdsOf(pending) ==> IdsOf(Drop(pending, id)) == IdsOf(pending)
    ensures DistinctSubmissions(Drop(pending, id))
  {
    DropIds(pending, id);
  }

  /** Rejected while recovering: the text may still be committed on another stream. */
  lemma ShedsOnce(cfg: Config, h: Host, n: Node, v: Note, id: Id)
    requires Once(cfg, h, n, v) && id in IdsOf(n.pending) && n.recovering
    requires n.stream in h.wires && (Resumed(h.wires[n.stream]) ==> Floor(h.wires[n.stream]) <= n.lastSeq)
    ensures Once(cfg, h, n.(pending := Drop(n.pending, id)), v.(shed := v.shed + {id}))
  {
    hide Once, PendingOk, NoteOk, LaterOk, StreamsOk, RestOkay, CurrentOk, Distinct, Written, Has, IdsOf,
      DistinctSubmissions, Unsettled,
      Resumed, Floor;
    OnceParts(cfg, h, n, v);
    var wr := Written(h.log, n.id);
    var a, u := n.(pending := Drop(n.pending, id)), v.(shed := v.shed + {id});
    RejectsPending(cfg, wr, n, a, id);
    ShedSame(n, v, a, u, id);
    ShedNote(cfg, h, n, v, a, u);
    SameLater(h, wr, n, v, a, u);
    OnceSettles(cfg, h, n, v, a, u);
  }

  lemma ShedSame(n: Node, v: Note, a: Node, u: Note, id: Id)
    requires id in IdsOf(n.pending) && IdsOf(a.pending) == IdsOf(n.pending) - {id} && u == v.(shed := v.shed + {id})
    ensures Unsettled(a, u) == Unsettled(n, v)
  {
    hide IdsOf;
  }

  lemma ShedNote(cfg: Config, h: Host, n: Node, v: Note, a: Node, u: Note)
    requires NoteOk(cfg, h, n, v) && n.recovering && a == n.(pending := a.pending) && u == v.(shed := u.shed)
    requires Unsettled(a, u) == Unsettled(n, v)
    requires Resumed(h.wires[n.stream]) ==> Floor(h.wires[n.stream]) <= n.lastSeq
    ensures NoteOk(cfg, h, a, u)
  {
    hide Unsettled, Resumed, Floor, JoinedOn;
  }

  lemma SameLater(h: Host, wr: seq<Entry>, n: Node, v: Note, a: Node, u: Note)
    requires n.stream in h.wires && LaterOk(h, wr, n, v)
    requires a == n.(pending := a.pending) && u == v.(shed := u.shed) && Unsettled(a, u) == Unsettled(n, v)
    ensures LaterOk(h, wr, a, u)
  {
    hide Unsettled, Resumed, Floor;
    forall i | 0 <= i < |wr|
      ensures EntryLater(h, a, u, wr[i])
    {
      assert EntryLater(h, n, v, wr[i]);
    }
  }

  /** Rejected on the stream in use: the text was never committed, and is not on its way. */
  lemma StreamsReject(cfg: Config, h: Host, wr: seq<Entry>, n: Node, v: Note, id: Id, a: Node)
    requires StreamsOk(cfg, h, wr, n, v) && n.stream in h.wires && h.wires[n.stream].peer == Some(n.id)
      && Sole(h, n.id, n.stream)
    requires id in IdsIn(h.wires[n.stream].up, 0, h.wires[n.stream].upRead)
    requires a == n.(pending := a.pending) && IdsOf(a.pending) == IdsOf(n.pending) - {id}
    ensures StreamsOk(cfg, h, wr, a, v)
  {
    hide UpOk, UpDistinct, Live, ReadHere, Has, StreamsOk, IdsOf, IdsIn;
    forall s | s in h.wires && h.wires[s].peer == Some(a.id)
      ensures var w := h.wires[s];
              && UpDistinct(w, a.used) && w.upRead <= |w.up| && (w.phase != Accepted ==> w.up == [])
              && (Live(h, s) ==> UpOk(Span(cfg), wr, w, OnWay(a, v, s)) && ReadHere(wr, w))
    {
      var w := h.wires[s];
      StreamFacts(cfg, h, wr, n, v, s);
      SilentStream(w, a.used, Span(cfg), wr, OnWay(a, v, s));
      if Live(h, s) && s == n.stream {
        ReadIsNotUnread(w, n.used, id);
        UpDrops(Span(cfg), wr, w, OnWay(n, v, s), id);
        UpPendingShrinks(Span(cfg), wr, w, OnWay(n, v, s) - {id}, OnWay(a, v, s));
      }
    }
    StreamsFrom(cfg, h, wr, a, v);
  }

  lemma RejectedNeverCommitted(cfg: Config, h: Host, wr: seq<Entry>, n: Node, p: nat, id: Id)
    requires PendingOk(cfg, wr, n) && n.stream in h.wires && SettledFrom(wr, h.wires[n.stream], 0)
    requires p < |h.wires[n.stream].down| && h.wires[n.stream].down[p] == ActionRejected(id) && id in IdsOf(n.pending)
    requires Floor(h.wires[n.stream]) <= n.lastSeq
    ensures !Has(wr, id)
  {
    hide Floor, IdsOf, DistinctSubmissions;
  }

  lemma RejectsLater(h: Host, wr: seq<Entry>, n: Node, v: Note, a: Node, id: Id)
    requires n.stream in h.wires && LaterOk(h, wr, n, v) && !Has(wr, id)
    requires a == n.(pending := a.pending) && IdsOf(a.pending) == IdsOf(n.pending) - {id}
    ensures LaterOk(h, wr, a, v)
  {
    hide IdsOf, Resumed, Floor;
    forall i | 0 <= i < |wr|
      ensures EntryLater(h, a, v, wr[i])
    {
      assert EntryLater(h, n, v, wr[i]);
    }
  }

  lemma RejectsNote(cfg: Config, h: Host, n: Node, v: Note, a: Node, id: Id)
    requires NoteOk(cfg, h, n, v)
    requires a == n.(pending := a.pending) && IdsOf(a.pending) == IdsOf(n.pending) - {id}
    ensures NoteOk(cfg, h, a, v)
  {
    hide Floor, Opened, JoinedOn, IdsOf;
    CountSubset(Unsettled(a, v), Unsettled(n, v));
  }

  lemma RejectsPending(cfg: Config, wr: seq<Entry>, n: Node, a: Node, id: Id)
    requires PendingOk(cfg, wr, n) && a == n.(pending := Drop(n.pending, id))
    ensures PendingOk(cfg, wr, a) && IdsOf(a.pending) == IdsOf(n.pending) - {id}
  {
    DropIds(n.pending, id);
    hide IdsOf, DistinctSubmissions;
  }

  lemma RejectsOnce(cfg: Config, h: Host, n: Node, v: Note, p: nat, id: Id)
    requires Once(cfg, h, n, v) && id in IdsOf(n.pending) && !n.recovering
    requires n.stream in h.wires && h.wires[n.stream].peer == Some(n.id) && h.wires[n.stream].phase == Accepted
    requires p < |h.wires[n.stream].down| && h.wires[n.stream].down[p] == ActionRejected(id)
    requires id in IdsIn(h.wires[n.stream].up, 0, h.wires[n.stream].upRead)
    requires Floor(h.wires[n.stream]) <= n.lastSeq
    ensures Once(cfg, h, n.(pending := Drop(n.pending, id)), v)
  {
    OnceParts(cfg, h, n, v);
    var wr := Written(h.log, n.id);
    var a := n.(pending := Drop(n.pending, id));
    hide StreamsOk, Distinct, Written, IdsOf, IdsIn, Floor, Sole, SettledFrom, Live, Has, PendingOk, LaterOk, NoteOk;
    RejectsPending(cfg, wr, n, a, id);
    RejectsNote(cfg, h, n, v, a, id);
    RejectedNeverCommitted(cfg, h, wr, n, p, id);
    RejectsLater(h, wr, n, v, a, id);
    StreamsReject(cfg, h, wr, n, v, id, a);
  }

  lemma FloorPassed(cfg: Config, h: Host, n: Node, v: Note)
    requires NoteOk(cfg, h, n, v) && (Resumed(h.wires[n.stream]) ==> Floor(h.wires[n.stream]) <= n.lastSeq)
    ensures Floor(h.wires[n.stream]) <= n.lastSeq
  {
    hide Resumed, JoinedOn;
  }

  lemma OnceNote(cfg: Config, h: Host, n: Node, v: Note)
    requires Once(cfg, h, n, v)
    ensures NoteOk(cfg, h, n, v)
  {
    hide LaterOk, StreamsOk, RestOkay, CurrentOk, Distinct, Written, PendingOk, Opened, JoinedOn, Floor;
  }

  lemma StreamPart(h: Host, n: Node)
    requires NodeOk(h, n)
    ensures n.stream in h.wires && h.wires[n.stream].peer == Some(n.id) && h.wires[n.stream].phase == Accepted
  {
    hide AttemptOk, RosterOf;
  }

  lemma ActionRejectedOnce(cfg: Config, h: Host, n: Node, v: Note) returns (u: Note)
    requires NodeOk(h, n) && Once(cfg, h, n, v) && InStep(h, n) && AllRejectionsOk(h.wires)
    requires n.delivered < |h.wires[n.stream].down| && h.wires[n.stream].down[n.delivered].ActionRejected?
    ensures Once(cfg, h, TakeFrame(cfg, n.(delivered := n.delivered + 1), h.wires[n.stream].down[n.delivered]), u)
  {
    hide InStep, Once, AllRejectionsOk, IdsOf, IdsIn, DistinctSubmissions, NoteOk, Resumed, Floor, NodeOk, AttemptOk,
      Drop;
    StreamPart(h, n);
    var id := h.wires[n.stream].down[n.delivered].requestId;
    var read := n.(delivered := n.delivered + 1);
    OnceDistinct(cfg, h, n, v);
    RejectedIsCaught(h, n);
    OnceNote(cfg, h, n, v);
    OnceFlags(cfg, h, n, v, read);
    FloorPassed(cfg, h, n, v);
    u := v;
    if id !in IdsOf(n.pending) {
      DropMissing(n.pending, id);
      OnceFlags(cfg, h, read, v, read.(pending := Drop(n.pending, id)));
    } else if n.recovering {
      u := v.(shed := v.shed + {id});
      ShedsOnce(cfg, h, read, v, id);
    } else {
      RejectsOnce(cfg, h, read, v, n.delivered, id);
    }
  }

  lemma EventOnce(cfg: Config, h: Host, n: Node, v: Note, event: Event)
    requires HostOk(cfg, h) && Once(cfg, h, n, v) && FrameOk(RoomEvent(event), Some(n.id), h.owner, h.log)
    ensures Once(cfg, h, TakeFrame(cfg, n, RoomEvent(event)), v)
  {
    OnceDistinct(cfg, h, n, v);
    hide HostOk, Once, IdsOf, DistinctSubmissions, FrameOk;
    OnceFlags(cfg, h, n, v, EndReading(n));
    if Judge(cfg, n, event).InSequence? {
      AppliesOnce(cfg, h, n, v, event);
    }
    hide Judge;
  }

  /** Other frames touch flags only. */
  lemma FlagFrame(cfg: Config, n: Node, f: Down)
    requires !f.RoomEvent? && !f.ActionRejected? && !f.Resync?
    ensures var a := TakeFrame(cfg, n, f);
            && a.id == n.id && a.used == n.used && a.stream == n.stream && (a.attempt == n.attempt || a.attempt == None)
            && (n.recovering ==> a.recovering) && a.lastSeq == n.lastSeq && a.pending == n.pending
  {
  }

  /** A jump that passes no pending text only leaves fewer events to come. */
  lemma JumpsOnce(cfg: Config, h: Host, n: Node, v: Note, a: Node, number: nat)
    requires Once(cfg, h, n, v) && Passed(Written(h.log, n.id), n, number) == {} && n.lastSeq <= number
    requires a == n.(lastSeq := number, heard := a.heard, members := a.members, reading := a.reading,
                     recovering := a.recovering)
    requires n.recovering ==> a.recovering
    ensures Once(cfg, h, a, v)
  {
    OnceParts(cfg, h, n, v);
    var wr := Written(h.log, n.id);
    hide Once, Written, StreamsOk, RestOkay, CurrentOk, Distinct, Has, IdsOf, DistinctSubmissions, Floor;
    assert PendingOk(cfg, wr, a) by {
      forall i | 0 <= i < |wr| && wr[i].id in IdsOf(n.pending)
        ensures wr[i].number > number
      {
        var e := wr[i];
        assert e.number <= number ==> CommittedIn(wr, e.id, n.lastSeq, number);
      }
    }
    assert LaterOk(h, wr, a, v) by {
      forall i | 0 <= i < |wr|
        ensures EntryLater(h, a, v, wr[i])
      {
        assert EntryLater(h, n, v, wr[i]);
      }
    }
    OnceSettles(cfg, h, n, v, a, v);
  }

  /** The step strands no text of the guest. */
  ghost predicate StaysClear(cfg: Config, h: Host, n: Node, step: Step) {
    Strand(cfg, h, n, step, {}) == {}
  }

  lemma ResyncOnce(cfg: Config, h: Host, n: Node, v: Note, step: Step)
    requires HostOk(cfg, h) && NodeOk(h, n) && Once(cfg, h, n, v)
    requires step.GuestReads? && StaysClear(cfg, h, n, step)
    requires n.reading && n.stream in h.wires && n.delivered < |h.wires[n.stream].down|
      && h.wires[n.stream].down[n.delivered].Resync?
    ensures Once(cfg, h, TakeFrame(cfg, n.(delivered := n.delivered + 1), h.wires[n.stream].down[n.delivered]), v)
  {
    var f := h.wires[n.stream].down[n.delivered];
    var read := n.(delivered := n.delivered + 1);
    JumpAhead(cfg, h, n);
    OnceDistinct(cfg, h, n, v);
    hide HostOk, NodeOk, Once, IdsOf, DistinctSubmissions, Written, CommittedIn;
    assert Passed(Written(h.log, n.id), n, f.number) == {};
    SamePassed(Written(h.log, n.id), n, read, f.number);
    OnceFlags(cfg, h, n, v, read);
    JumpsOnce(cfg, h, read, v, TakeFrame(cfg, read, f), f.number);
  }

  lemma ReadsOnce(cfg: Config, h: Host, n: Node, v: Note, step: Step) returns (u: Note)
    requires HostOk(cfg, h) && NodeOk(h, n) && Once(cfg, h, n, v) && InStep(h, n) && AllRejectionsOk(h.wires)
    requires step.GuestReads? && StaysClear(cfg, h, n, step)
    requires n.reading && n.stream in h.wires && n.delivered < |h.wires[n.stream].down|
    ensures Once(cfg, h, TakeFrame(cfg, n.(delivered := n.delivered + 1), h.wires[n.stream].down[n.delivered]), u)
  {
    FrameRead(cfg, h, n);
    OnceDistinct(cfg, h, n, v);
    hide HostOk, NodeOk, Once, InStep, AllRejectionsOk, IdsOf, DistinctSubmissions, TakeFrame, FrameOk, StaysClear;
    var f := h.wires[n.stream].down[n.delivered];
    var read := n.(delivered := n.delivered + 1);
    u := v;
    OnceFlags(cfg, h, n, v, read);
    if f.RoomEvent? {
      EventOnce(cfg, h, read, v, f.event);
    } else if f.ActionRejected? {
      u := ActionRejectedOnce(cfg, h, n, v);
    } else if f.Resync? {
      ResyncOnce(cfg, h, n, v, step);
    } else {
      FlagFrame(cfg, read, f);
      OnceFlags(cfg, h, read, v, TakeFrame(cfg, read, f));
    }
  }
}
