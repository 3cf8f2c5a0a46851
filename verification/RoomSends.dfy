/**
 * What a guest writes: new texts, texts sent again after a recovery, and the
 * adoption of a new stream keep what the owner may still commit within the window.
 */
module RoomSends {
  import opened Basics
  import opened RoomTypes
  import opened EventDeduper
  import opened RoomHost
  import opened RoomHostSafety
  import opened RoomNode
  import opened RoomSystem
  import opened RoomGuarantee
  import opened RoomReplication
  import opened RoomCatchUp
  import opened RoomTexts
  import opened RoomRejections
  import opened RoomResends
  import opened RoomReads

  // ---- What a guest writes ----

  lemma PostedWire(h: Host, s: Id, frame: Up)
    requires s in h.wires
    ensures var k := Post(h, s, frame);
            && k.log == h.log && k.wires == h.wires[s := h.wires[s].(up := h.wires[s].up + [frame])]
            && (forall t :: Live(k, t) <==> Live(h, t))
  {
  }

  lemma PostedReads(wr: seq<Entry>, w: Wire, frame: Up)
    requires ReadHere(wr, w) && w.upRead <= |w.up|
    ensures ReadHere(wr, w.(up := w.up + [frame]))
  {
    IdsInPrefix(w.up, frame, 0, w.upRead);
    hide IdsIn;
  }

  /** The streams of a guest that posts a frame on one of them. */
  lemma StreamsPost(cfg: Config, h: Host, wr: seq<Entry>, n: Node, v: Note, a: Node, s: Id, frame: Up)
    requires StreamsOk(cfg, h, wr, n, v) && s in h.wires && h.wires[s].peer == Some(n.id)
      && h.wires[s].phase == Accepted
    requires a.id == n.id && a.stream == n.stream && n.used <= a.used && Unsettled(n, v) <= Unsettled(a, v)
    requires frame.TextSubmit? ==>
      frame.submission.clientEventId in a.used
        && frame.submission.clientEventId !in IdsIn(h.wires[s].up, 0, |h.wires[s].up|)
    requires Live(h, s) ==> UpOk(Span(cfg), wr, h.wires[s].(up := h.wires[s].up + [frame]), OnWay(a, v, s))
    ensures StreamsOk(cfg, Post(h, s, frame), wr, a, v)
  {
    hide UpOk, UpDistinct, Live, Unsettled, IdsIn, Post, ReadHere, StreamsOk;
    PostedWire(h, s, frame);
    var k := Post(h, s, frame);
    StreamFacts(cfg, h, wr, n, v, s);
    DistinctSnoc(h.wires[s], frame, n.used, a.used);
    forall t | t in k.wires && k.wires[t].peer == Some(a.id)
      ensures var w := k.wires[t];
              && UpDistinct(w, a.used) && w.upRead <= |w.up| && (w.phase != Accepted ==> w.up == [])
              && (Live(k, t) ==> UpOk(Span(cfg), wr, w, OnWay(a, v, t)) && ReadHere(wr, w))
    {
      StreamFacts(cfg, h, wr, n, v, t);
      if t != s {
        MoreUsed(h.wires[t], n.used, a.used);
        if Live(h, t) {
          UpPendingGrows(Span(cfg), wr, h.wires[t], OnWay(n, v, t), OnWay(a, v, t));
        }
      } else if Live(h, s) {
        PostedReads(wr, h.wires[s], frame);
      }
    }
    StreamsFrom(cfg, k, wr, a, v);
  }

  lemma CurrentPost(h: Host, wr: seq<Entry>, n: Node, a: Node, s: Id, frame: Up)
    requires CurrentOk(h, wr, n) && Current(n) == Some(s) && Current(a) == Some(s) && a.id == n.id
    requires a.attempt.Some? ==> a.recovering
    ensures CurrentOk(Post(h, s, frame), wr, a)
  {
    hide Live, Post;
    PostedWire(h, s, frame);
  }

  /** Posting changes no floor. */
  lemma PartsPost(cfg: Config, h: Host, wr: seq<Entry>, n: Node, v: Note, s: Id, frame: Up)
    requires NoteOk(cfg, h, n, v) && LaterOk(h, wr, n, v) && s in h.wires
    ensures var k := Post(h, s, frame);
            n.stream in k.wires && NoteOk(cfg, k, n, v) && LaterOk(k, wr, n, v)
  {
    hide Live, Unsettled;
    forall i | 0 <= i < |wr|
      ensures EntryLater(Post(h, s, frame), n, v, wr[i])
    {
      assert EntryLater(h, n, v, wr[i]);
    }
  }

  lemma NewPending(cfg: Config, wr: seq<Entry>, n: Node, submission: Submission)
    requires PendingOk(cfg, wr, n) && submission.clientEventId !in n.used && |n.pending| < cfg.sendQueueMaxFrames
    ensures PendingOk(cfg, wr, n.(pending := n.pending + [submission], used := n.used + {submission.clientEventId}))
    ensures IdsOf(n.pending + [submission]) == IdsOf(n.pending) + {submission.clientEventId}
    ensures !Has(wr, submission.clientEventId)
  {
    IdsSnoc(n.pending, submission);
    forall i | 0 <= i < |n.pending|
      ensures n.pending[i].clientEventId != submission.clientEventId
    {
      assert n.pending[i].clientEventId in IdsOf(n.pending);
    }
    hide IdsOf;
  }

  lemma NewPart(cfg: Config, h: Host, wr: seq<Entry>, n: Node, v: Note, submission: Submission, a: Node)
    requires NoteOk(cfg, h, n, v) && LaterOk(h, wr, n, v) && !n.recovering
    requires a == n.(pending := n.pending + [submission], used := a.used)
    requires DistinctSubmissions(a.pending) && |a.pending| <= cfg.sendQueueMaxFrames
    requires IdsOf(a.pending) == IdsOf(n.pending) + {submission.clientEventId}
    ensures NoteOk(cfg, h, a, v) && LaterOk(h, wr, a, v)
  {
    hide IdsOf, Opened, Floor, JoinedOn, Resumed;
    CountPending(a.pending);
    assert Unsettled(a, v) == IdsOf(a.pending);
    forall i | 0 <= i < |wr|
      ensures EntryLater(h, a, v, wr[i])
    {
      assert EntryLater(h, n, v, wr[i]);
    }
  }

  lemma TextsOnce(cfg: Config, h: Host, n: Node, v: Note, submission: Submission)
    requires NodeOk(h, n) && Once(cfg, h, n, v) && !n.recovering
    requires submission.clientEventId !in n.used && |n.pending| < cfg.sendQueueMaxFrames
    ensures Once(cfg, Post(h, n.stream, TextSubmit(submission)),
                 n.(pending := n.pending + [submission], used := n.used + {submission.clientEventId}), v)
  {
    hide NodeOk, RestOkay, Once, PendingOk, StreamsOk, NoteOk, LaterOk, CurrentOk, Live, Distinct, UpOk, UpDistinct,
      IdsOf, IdsIn,
      Post, Has, Written, ReadHere, DistinctSubmissions, ValidText;
    OnceParts(cfg, h, n, v);
    StreamPart(h, n);
    var wr := Written(h.log, n.id);
    var frame := TextSubmit(submission);
    var a := n.(pending := n.pending + [submission], used := n.used + {submission.clientEventId});
    NewPending(cfg, wr, n, submission);
    PendingDistinct(cfg, wr, a);
    OnlineCurrent(h, wr, n);
    CurrentPost(h, wr, n, a, n.stream, frame);
    StreamFacts(cfg, h, wr, n, v, n.stream);
    NewPart(cfg, h, wr, n, v, submission, a);
    if Live(h, n.stream) {
      NewTextUnread(Span(cfg), wr, h.wires[n.stream], OnWay(n, v, n.stream), submission);
      assert OnWay(n, v, n.stream) + {submission.clientEventId} == OnWay(a, v, n.stream);
    }
    assert submission.clientEventId !in IdsIn(h.wires[n.stream].up, 0, |h.wires[n.stream].up|) by {
      UsedIds(h.wires[n.stream], n.used);
    }
    PostedWire(h, n.stream, frame);
    StreamsPost(cfg, h, wr, n, v, a, n.stream, frame);
    PartsPost(cfg, h, wr, a, v, n.stream, frame);
    OnlineRest(cfg, Post(h, n.stream, frame), wr, a, v);
    OnceFrom(cfg, Post(h, n.stream, frame), a, v);
  }

  lemma PendingDistinct(cfg: Config, wr: seq<Entry>, n: Node)
    requires PendingOk(cfg, wr, n)
    ensures DistinctSubmissions(n.pending) && |n.pending| <= cfg.sendQueueMaxFrames
  {
    hide IdsOf;
  }

  lemma OnlineCurrent(h: Host, wr: seq<Entry>, n: Node)
    requires CurrentOk(h, wr, n) && !n.recovering
    ensures n.attempt.None? && Current(n) == Some(n.stream)
  {
    hide SettledFrom, Sole;
  }

  lemma OnlineRest(cfg: Config, h: Host, wr: seq<Entry>, n: Node, v: Note)
    requires n.attempt.None?
    ensures RestOkay(cfg, h, wr, n, v)
  {
  }

  lemma OnceFrom(cfg: Config, h: Host, n: Node, v: Note)
    requires var wr := Written(h.log, n.id);
            && Distinct(wr) && PendingOk(cfg, wr, n) && NoteOk(cfg, h, n, v) && n.stream in h.wires
            && LaterOk(h, wr, n, v)
            && StreamsOk(cfg, h, wr, n, v) && RestOkay(cfg, h, wr, n, v) && CurrentOk(h, wr, n)
    ensures Once(cfg, h, n, v)
  {
    hide PendingOk, LaterOk, StreamsOk, RestOkay, CurrentOk, Distinct, Written, NoteOk;
  }

  lemma UsedIds(w: Wire, used: set<Id>)
    requires UpDistinct(w, used)
    ensures IdsIn(w.up, 0, |w.up|) <= used
  {
  }

  lemma LeavesOnce(cfg: Config, h: Host, n: Node, v: Note)
    requires NodeOk(h, n) && Once(cfg, h, n, v) && !n.recovering
    ensures Once(cfg, Post(h, n.stream, Leave), n, v)
  {
    OnceParts(cfg, h, n, v);
    StreamPart(h, n);
    var wr := Written(h.log, n.id);
    OnlineCurrent(h, wr, n);
    CurrentPost(h, wr, n, n, n.stream, Leave);
    hide NodeOk, RestOkay, Once, PendingOk, StreamsOk, NoteOk, LaterOk, CurrentOk, Live, Distinct, UpOk, UpDistinct,
      OnWay, IdsIn, Post, Written, ReadHere;
    StreamFacts(cfg, h, wr, n, v, n.stream);
    if Live(h, n.stream) {
      assert OnWay(n, v, n.stream) + {} == OnWay(n, v, n.stream);
      UpGrows(Span(cfg), wr, h.wires[n.stream], OnWay(n, v, n.stream), {}, Leave);
    }
    PostedWire(h, n.stream, Leave);
    StreamsPost(cfg, h, wr, n, v, n, n.stream, Leave);
    PartsPost(cfg, h, wr, n, v, n.stream, Leave);
    OnlineRest(cfg, Post(h, n.stream, Leave), wr, n, v);
    OnceFrom(cfg, Post(h, n.stream, Leave), n, v);
  }

  // ---- Recovering ----

  /** Only the attempt changed. */
  lemma AttemptOnly(cfg: Config, h: Host, wr: seq<Entry>, n: Node, v: Note, a: Node)
    requires a == n.(attempt := a.attempt) && n.stream in h.wires
    requires StreamsOk(cfg, h, wr, n, v) && PendingOk(cfg, wr, n) && NoteOk(cfg, h, n, v)
    ensures StreamsOk(cfg, h, wr, a, v) && PendingOk(cfg, wr, a) && NoteOk(cfg, h, a, v)
  {
    hide UpOk, UpDistinct, Live, IdsOf, ReadHere, DistinctSubmissions, Opened, Floor, JoinedOn;
    assert forall s :: OnWay(a, v, s) == OnWay(n, v, s);
  }

  /** What was committed behind a pending text can be counted. */
  lemma AfterPending(cfg: Config, h: Host, wr: seq<Entry>, n: Node, v: Note, i: nat)
    requires PendingOk(cfg, wr, n) && NoteOk(cfg, h, n, v) && LaterOk(h, wr, n, v) && Increasing(wr)
    requires i < |wr| && wr[i].id in IdsOf(n.pending)
    ensures |AfterIds(wr, i) + IdsOf(n.pending)| <= Span(cfg)
  {
    var all := Unsettled(n, v) + (v.held + v.past);
    hide IdsOf, DistinctSubmissions, Floor, Resumed, Opened, JoinedOn;
    forall x | x in AfterIds(wr, i)
      ensures x in all
    {
      var j :| i < j < |wr| && wr[j].id == x;
      assert wr[i].number < wr[j].number;
      assert EntryLater(h, n, v, wr[j]);
    }
    CountSubset(AfterIds(wr, i) + IdsOf(n.pending), all);
    CountUnion(Unsettled(n, v), v.held + v.past);
  }

  lemma CountUnion(a: set<Id>, b: set<Id>)
    ensures |a + b| <= |a| + |b|
  {
    assert a + b == a + (b - a);
    CountSubset(b - a, b);
  }

  /** The same attempt, further on. */
  lemma AttemptLater(h: Host, wr: seq<Entry>, n: Node, v: Note, a: Node)
    requires n.stream in h.wires && LaterOk(h, wr, n, v)
    requires a == n.(attempt := a.attempt) && n.attempt.Some? && a.attempt.Some?
    requires a.attempt.value.stream == n.attempt.value.stream
    ensures LaterOk(h, wr, a, v)
  {
    hide Floor, Resumed, IdsOf;
    forall i | 0 <= i < |wr|
      ensures EntryLater(h, a, v, wr[i])
    {
      assert EntryLater(h, n, v, wr[i]);
    }
  }

  lemma AttemptCurrent(h: Host, wr: seq<Entry>, n: Node, a: Node)
    requires CurrentOk(h, wr, n)
    requires a == n.(attempt := a.attempt) && n.attempt.Some? && a.attempt.Some?
    requires a.attempt.value.stream == n.attempt.value.stream
    ensures CurrentOk(h, wr, a)
  {
    hide SettledFrom, Sole;
  }

  lemma AnsweredRest(cfg: Config, h: Host, wr: seq<Entry>, n: Node, v: Note, a: Node)
    requires PendingOk(cfg, wr, n) && NoteOk(cfg, h, n, v) && LaterOk(h, wr, n, v) && RestOkay(cfg, h, wr, n, v)
      && Increasing(wr)
    requires n.attempt.Some? && n.attempt.value.Asked?
    requires a == n.(attempt := Some(Resubmitting(n.attempt.value.stream, n.pending)))
    ensures RestOkay(cfg, h, wr, a, v)
  {
    hide NoteOk, LaterOk, Live, IdsOf, Has, DistinctSubmissions, AfterIds, Span, Increasing;
    var up := h.wires[n.attempt.value.stream].up;
    assert IdsIn(up, 0, |up|) == {};
    forall i | 0 <= i < |wr| && wr[i].id in IdsOf(n.pending)
      ensures |AfterIds(wr, i) + IdsIn(up, 0, |up|) + IdsOf(n.pending)| <= Span(cfg)
    {
      AfterPending(cfg, h, wr, n, v, i);
      assert AfterIds(wr, i) + IdsIn(up, 0, |up|) + IdsOf(n.pending) == AfterIds(wr, i) + IdsOf(n.pending);
    }
  }

  lemma AnsweredOnce(cfg: Config, h: Host, n: Node, v: Note)
    requires HostOk(cfg, h) && Once(cfg, h, n, v) && n.attempt.Some? && n.attempt.value.Asked?
    ensures Once(cfg, h, n.(attempt := Some(Resubmitting(n.attempt.value.stream, n.pending))), v)
  {
    OnceParts(cfg, h, n, v);
    LogIsNumbered(cfg, h);
    WrittenIsLog(h.log, n.id);
    var wr := Written(h.log, n.id);
    var a := n.(attempt := Some(Resubmitting(n.attempt.value.stream, n.pending)));
    hide HostOk, PendingOk, NoteOk, StreamsOk, LaterOk, RestOkay, CurrentOk, Distinct, Written, Increasing;
    AttemptOnly(cfg, h, wr, n, v, a);
    AnsweredRest(cfg, h, wr, n, v, a);
    AttemptLater(h, wr, n, v, a);
    AttemptCurrent(h, wr, n, a);
  }

  lemma AttemptPart(h: Host, n: Node)
    requires NodeOk(h, n) && n.attempt.Some? && n.attempt.value.Resubmitting?
    ensures var a := n.attempt.value.stream;
            a in h.wires && a != n.stream && h.wires[a].peer == Some(n.id) && h.wires[a].phase == Accepted
  {
    hide StreamOk, RosterOf;
  }

  lemma RestPost(cfg: Config, h: Host, wr: seq<Entry>, n: Node, v: Note, a: Node)
    requires RestOkay(cfg, h, wr, n, v) && n.attempt.Some? && n.attempt.value.Resubmitting?
      && n.attempt.value.rest != []
    requires var r := n.attempt.value; a == n.(attempt := Some(Resubmitting(r.stream, r.rest[1..])))
    ensures var r := n.attempt.value;
            && RestOkay(cfg, Post(h, r.stream, TextSubmit(r.rest[0])), wr, a, v)
            && r.rest[0].clientEventId in n.used
            && r.rest[0].clientEventId !in IdsIn(h.wires[r.stream].up, 0, |h.wires[r.stream].up|)
  {
    hide Live, IdsOf, IdsIn, Post, Has, AfterIds, DistinctSubmissions, Unsettled, Span;
    var r := n.attempt.value;
    var w := h.wires[r.stream];
    var frame := TextSubmit(r.rest[0]);
    PostedWire(h, r.stream, frame);
    IdsCons(r.rest);
    RestDistinct(r.rest);
    IdsInSnoc(w.up, frame, 0);
    var k := Post(h, r.stream, frame);
    forall i | 0 <= i < |wr|
      ensures AfterIds(wr, i) + IdsIn(k.wires[r.stream].up, 0, |w.up| + 1) + IdsOf(r.rest[1..])
        == AfterIds(wr, i) + IdsIn(w.up, 0, |w.up|) + IdsOf(r.rest)
    {
    }
    assert Unsettled(a, v) == Unsettled(n, v) by { SameUnsettled(n, a, v); }
  }

  lemma SameUnsettled(n: Node, a: Node, v: Note)
    requires a.pending == n.pending
    ensures Unsettled(a, v) == Unsettled(n, v)
  {
  }

  lemma ResubmitsUp(cfg: Config, h: Host, wr: seq<Entry>, n: Node, v: Note)
    requires StreamsOk(cfg, h, wr, n, v) && RestOkay(cfg, h, wr, n, v)
    requires n.attempt.Some? && n.attempt.value.Resubmitting? && n.attempt.value.rest != []
    requires h.wires[n.attempt.value.stream].peer == Some(n.id)
    ensures var r := n.attempt.value;
            var w := h.wires[r.stream];
            Live(h, r.stream) ==> UpOk(Span(cfg), wr, w.(up := w.up + [TextSubmit(r.rest[0])]), OnWay(n, v, r.stream))
  {
    hide Live, IdsOf, IdsIn, Has, AfterIds, DistinctSubmissions, Unsettled, Span, StreamsOk, UpOk, UpDistinct, ReadHere;
    var r := n.attempt.value;
    var w := h.wires[r.stream];
    StreamFacts(cfg, h, wr, n, v, r.stream);
    if Live(h, r.stream) {
      IdsCons(r.rest);
      var sent := IdsIn(w.up, 0, |w.up|);
      forall i | 0 <= i < |wr| && wr[i].id == r.rest[0].clientEventId
        ensures |AfterIds(wr, i) + (sent + IdsOf(r.rest))| <= Span(cfg)
      {
        assert AfterIds(wr, i) + (sent + IdsOf(r.rest)) == AfterIds(wr, i) + sent + IdsOf(r.rest);
      }
      ResentUnread(Span(cfg), wr, w, OnWay(n, v, r.stream), r.rest[0], sent + IdsOf(r.rest));
    }
  }

  lemma ResubmitsOnce(cfg: Config, h: Host, n: Node, v: Note)
    requires NodeOk(h, n) && Once(cfg, h, n, v)
    requires n.attempt.Some? && n.attempt.value.Resubmitting? && n.attempt.value.rest != []
    ensures var r := n.attempt.value;
            Once(cfg, Post(h, r.stream, TextSubmit(r.rest[0])),
                 n.(attempt := Some(Resubmitting(r.stream, r.rest[1..]))), v)
  {
    OnceParts(cfg, h, n, v);
    AttemptPart(h, n);
    var wr := Written(h.log, n.id);
    var r := n.attempt.value;
    var frame := TextSubmit(r.rest[0]);
    var k := Post(h, r.stream, frame);
    var a := n.(attempt := Some(Resubmitting(r.stream, r.rest[1..])));
    assert n.recovering;
    CurrentPost(h, wr, n, a, r.stream, frame);
    hide NodeOk, PendingOk, StreamsOk, NoteOk, CurrentOk, Live, Distinct, UpOk, Post, Written, IdsIn, RestOkay,
      Unsettled,
      Resumed, Floor;
    ResubmitsUp(cfg, h, wr, n, v);
    RestPost(cfg, h, wr, n, v, a);
    assert Unsettled(a, v) == Unsettled(n, v) by { SameUnsettled(n, a, v); }
    StreamsPost(cfg, h, wr, n, v, a, r.stream, frame);
    AttemptOnly(cfg, h, wr, n, v, a);
    assert LaterOk(h, wr, a, v) by {
      forall i | 0 <= i < |wr|
        ensures EntryLater(h, a, v, wr[i])
      {
        assert EntryLater(h, n, v, wr[i]);
      }
    }
    PartsPost(cfg, h, wr, a, v, r.stream, frame);
    PostedWire(h, r.stream, frame);
  }

  lemma DialsOnce(cfg: Config, h: Host, n: Node, v: Note, s: Id)
    requires HostOk(cfg, h) && Once(cfg, h, n, v) && NodeOk(h, n) && Attributed(h.wires)
    requires n.attempt.None? && n.recovering && s !in h.wires
    ensures Once(cfg, h.(wires := h.wires[s := Wire(Some(n.id), n.lastSeq, Fresh, 0, [], false, [], 0)]),
                 n.(attempt := Some(Asked(s))), v)
  {
    NodeFacts(h, n);
    var w := Wire(Some(n.id), n.lastSeq, Fresh, 0, [], false, [], 0);
    var k := h.(wires := h.wires[s := w]);
    var a := n.(attempt := Some(Asked(s)));
    NewStreamCarried(h, k, n.id, s, w);
    hide HostOk, NodeOk, Once, Attributed, Carried, AttemptOk, StreamOk;
    OnceCarried(cfg, h, k, n, v);
    AsksOnce(cfg, k, n, v, s);
  }

  lemma NewStreamCarried(h: Host, k: Host, id: Id, s: Id, w: Wire)
    requires s !in h.wires && k == h.(wires := h.wires[s := w]) && w.up == [] && w.upRead == 0 && w.down == []
    ensures Carried(h, k, id)
  {
    assert forall t :: Live(k, t) <==> Live(h, t);
    hide Live, Written;
  }

  lemma AsksOnce(cfg: Config, h: Host, n: Node, v: Note, s: Id)
    requires Once(cfg, h, n, v) && n.recovering && s in h.wires
    requires h.wires[s] == Wire(Some(n.id), h.wires[s].claim, Fresh, 0, [], false, [], 0)
    ensures Once(cfg, h, n.(attempt := Some(Asked(s))), v)
  {
    OnceParts(cfg, h, n, v);
    var wr := Written(h.log, n.id);
    var a := n.(attempt := Some(Asked(s)));
    AttemptOnly(cfg, h, wr, n, v, a);
    assert LaterOk(h, wr, a, v) by {
      hide StreamsOk, PendingOk, NoteOk, RestOkay, CurrentOk, Written, Unsettled, Distinct;
      forall i | 0 <= i < |wr|
        ensures EntryLater(h, a, v, wr[i])
      {
        assert EntryLater(h, n, v, wr[i]);
      }
    }
    hide StreamsOk, PendingOk, NoteOk, LaterOk, Written, Distinct;
  }

  /** What was shed on the way to a stream is held while it is used; what was held before is past. */
  function Adopted(h: Host, n: Node, v: Note): Note
    requires n.stream in h.wires
  {
    Note({}, v.shed, if Floor(h.wires[n.stream]) <= n.lastSeq then v.held else v.held + v.past)
  }

  lemma AdoptsNote(cfg: Config, h: Host, n: Node, v: Note, a: Node)
    requires NoteOk(cfg, h, n, v) && a.pending == n.pending && a.lastSeq == n.lastSeq && !a.recovering
    requires a.stream in h.wires && Resumed(h.wires[a.stream])
    ensures NoteOk(cfg, h, a, Adopted(h, n, v))
  {
    var u := Adopted(h, n, v);
    hide IdsOf, Floor;
    CountSubset(v.shed, Unsettled(n, v));
    CountSubset(Unsettled(a, u), Unsettled(n, v));
    CountUnion(v.shed, v.held);
    assert v.shed + v.held == u.held + u.past || v.shed == {};
    assert v.shed == {} && !(Floor(h.wires[n.stream]) <= n.lastSeq) ==> u.held + u.past == v.held + v.past;
  }

  lemma AdoptsLater(cfg: Config, h: Host, wr: seq<Entry>, n: Node, v: Note, a: Node)
    requires NoteOk(cfg, h, n, v) && LaterOk(h, wr, n, v) && n.attempt.Some? && a.stream == n.attempt.value.stream
    requires a.pending == n.pending && a.lastSeq == n.lastSeq && a.attempt == None
    requires a.stream in h.wires && Resumed(h.wires[a.stream])
    ensures LaterOk(h, wr, a, Adopted(h, n, v))
  {
    hide IdsOf, Floor, Resumed, Opened;
    forall i | 0 <= i < |wr|
      ensures EntryLater(h, a, Adopted(h, n, v), wr[i])
    {
      assert EntryLater(h, n, v, wr[i]);
    }
  }

  lemma AdoptsStreams(cfg: Config, h: Host, wr: seq<Entry>, n: Node, v: Note, a: Node)
    requires StreamsOk(cfg, h, wr, n, v) && n.stream in h.wires && Sole(h, n.id, a.stream) && a.stream != n.stream
    requires a.id == n.id && a.used == n.used && a.pending == n.pending
    ensures StreamsOk(cfg, h, wr, a, Adopted(h, n, v))
  {
    var u := Adopted(h, n, v);
    hide UpOk, UpDistinct, Live, ReadHere, IdsOf, StreamsOk, Floor;
    forall s | s in h.wires && h.wires[s].peer == Some(a.id)
      ensures var w := h.wires[s];
              && UpDistinct(w, a.used) && w.upRead <= |w.up| && (w.phase != Accepted ==> w.up == [])
              && (Live(h, s) ==> UpOk(Span(cfg), wr, w, OnWay(a, u, s)) && ReadHere(wr, w))
    {
      StreamFacts(cfg, h, wr, n, v, s);
      SilentStream(h.wires[s], a.used, Span(cfg), wr, OnWay(a, u, s));
      if s == a.stream {
        assert OnWay(a, u, s) == OnWay(n, v, s);
      }
    }
    StreamsFrom(cfg, h, wr, a, u);
  }

  lemma AdoptsOnce(cfg: Config, h: Host, n: Node, v: Note)
    requires NodeOk(h, n) && Once(cfg, h, n, v) && n.attempt.Some? && n.attempt.value.Resubmitting?
    requires n.attempt.value.stream in h.wires && Resumed(h.wires[n.attempt.value.stream])
    ensures n.stream in h.wires
    ensures Once(cfg, h, n.(stream := n.attempt.value.stream, delivered := 1, reading := true, recovering := false,
                            attempt := None),
                 Adopted(h, n, v))
  {
    OnceParts(cfg, h, n, v);
    AttemptPart(h, n);
    var wr := Written(h.log, n.id);
    var a := n.(stream := n.attempt.value.stream, delivered := 1, reading := true, recovering := false,
                attempt := None);
    assert Sole(h, n.id, a.stream) && CurrentOk(h, wr, a) by {
      hide Written, Sole, SettledFrom;
    }
    assert PendingOk(cfg, wr, a) by {
      hide Written, IdsOf;
    }
    hide NodeOk, PendingOk, StreamsOk, NoteOk, CurrentOk, LaterOk, Distinct, Written, Sole, Resumed, Adopted;
    AdoptsNote(cfg, h, n, v, a);
    AdoptsLater(cfg, h, wr, n, v, a);
    AdoptsStreams(cfg, h, wr, n, v, a);
  }
}
