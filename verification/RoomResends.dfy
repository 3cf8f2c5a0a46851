/**
 * Resending: what keeps a text that a guest sends again after a recovery from
 * being committed again. Whatever was committed behind a text that is sent
 * again belongs to a few bounded sets of texts, so the owner still remembers it.
 */
module RoomResends {
  import opened Basics
  import opened RoomTypes
  import opened ReplayBuffer
  import opened EventDeduper
  import opened RoomHost
  import opened RoomHostSafety
  import opened RoomNode
  import opened RoomGuarantee
  import opened RoomReplication
  import opened RoomCatchUp
  import opened RoomTexts
  import opened RoomUps
  import opened RoomRejections

  /**
   * Texts that are no longer pending because of a rejection, although a stream
   * may still commit them: those rejected during the recovery under way, those
   * rejected during the recovery that led to the current stream, and earlier ones.
   */
  datatype Note = Note(shed: set<Id>, held: set<Id>, past: set<Id>)

  /** How many ids the owner must remember. */
  function Span(cfg: Config): nat {
    3 * cfg.sendQueueMaxFrames
  }

  function Unsettled(n: Node, v: Note): set<Id> {
    IdsOf(n.pending) + v.shed
  }

  /** The texts that stream `s` may still commit. */
  function OnWay(n: Node, v: Note, s: Id): set<Id> {
    Unsettled(n, v) + if s == n.stream then v.held else {}
  }

  ghost predicate PendingOk(cfg: Config, wr: seq<Entry>, n: Node) {
    && DistinctSubmissions(n.pending) && |n.pending| <= cfg.sendQueueMaxFrames && IdsOf(n.pending) <= n.used
    && (forall i :: 0 <= i < |wr| ==> wr[i].id in n.used)
    && (forall i :: 0 <= i < |wr| && wr[i].id in IdsOf(n.pending) ==> wr[i].number > n.lastSeq)
  }

  ghost predicate NoteOk(cfg: Config, h: Host, n: Node, v: Note) {
    && |Unsettled(n, v)| <= cfg.sendQueueMaxFrames
    && |v.held| <= cfg.sendQueueMaxFrames
    && |v.held + v.past| <= 2 * cfg.sendQueueMaxFrames
    && (!n.recovering ==> v.shed == {})
    && n.stream in h.wires && Opened(h.wires[n.stream])
    && (v.shed != {} || JoinedOn(h.wires[n.stream]) ==> Floor(h.wires[n.stream]) <= n.lastSeq)
  }

  /** An entry the guest has not applied was pending, or rejected, when it was committed. */
  ghost predicate EntryLater(h: Host, n: Node, v: Note, e: Entry)
    requires n.stream in h.wires
  {
    e.number > n.lastSeq ==>
      && e.id in Unsettled(n, v) + v.held + v.past
      && (e.number > Floor(h.wires[n.stream]) ==> e.id in Unsettled(n, v) + v.held)
      && (n.attempt.Some? && n.attempt.value.stream in h.wires ==>
            var w := h.wires[n.attempt.value.stream];
            Resumed(w) && e.number > Floor(w) ==> e.id in Unsettled(n, v))
  }

  ghost predicate LaterOk(h: Host, wr: seq<Entry>, n: Node, v: Note)
    requires n.stream in h.wires
  {
    forall i :: 0 <= i < |wr| ==> EntryLater(h, n, v, wr[i])
  }

  /** What was committed since the stream was opened was read from it. */
  ghost predicate ReadHere(wr: seq<Entry>, w: Wire) {
    Opened(w) ==> forall i :: 0 <= i < |wr| && wr[i].number > Floor(w) ==> wr[i].id in IdsIn(w.up, 0, w.upRead)
  }

  ghost predicate StreamsOk(cfg: Config, h: Host, wr: seq<Entry>, n: Node, v: Note) {
    forall s :: s in h.wires && h.wires[s].peer == Some(n.id) ==>
      && UpDistinct(h.wires[s], n.used)
      && h.wires[s].upRead <= |h.wires[s].up|
      && (h.wires[s].phase != Accepted ==> h.wires[s].up == [])
      && (Live(h, s) ==> UpOk(Span(cfg), wr, h.wires[s], OnWay(n, v, s)) && ReadHere(wr, h.wires[s]))
  }

  /** What is still to be resubmitted on an attempt's stream, with what already was, is one batch. */
  ghost predicate RestOkay(cfg: Config, h: Host, wr: seq<Entry>, n: Node, v: Note) {
    n.attempt.Some? ==>
      var a := n.attempt.value;
      && a.stream in h.wires
      && (a.Asked? ==> h.wires[a.stream].up == [])
      && (a.Resubmitting? ==>
            var sent := IdsIn(h.wires[a.stream].up, 0, |h.wires[a.stream].up|);
            && DistinctSubmissions(a.rest) && sent !! IdsOf(a.rest) && IdsOf(a.rest) <= n.used
            && (Live(h, a.stream) ==>
                  && (forall x :: x in IdsOf(a.rest) && !Has(wr, x) ==> x in Unsettled(n, v))
                  && (forall i :: 0 <= i < |wr| && wr[i].id in IdsOf(a.rest) ==>
                        |AfterIds(wr, i) + sent + IdsOf(a.rest)| <= Span(cfg))))
  }

  /** The only stream the guest may write texts to. */
  function Current(n: Node): Option<Id> {
    if n.attempt.Some? then Some(n.attempt.value.stream)
    else if n.recovering then None
    else Some(n.stream)
  }

  /** A text rejected by one of the frames from `lo` on was committed before the stream was opened, if at all. */
  ghost predicate SettledFrom(wr: seq<Entry>, w: Wire, lo: nat) {
    forall p, i ::
      lo <= p < |w.down| && w.down[p].ActionRejected? && 0 <= i < |wr| && wr[i].id == w.down[p].requestId ==>
        wr[i].number <= Floor(w)
  }

  /** No other stream of guest `id` that the owner still holds carries anything. */
  ghost predicate Sole(h: Host, id: Id, c: Id) {
    forall t :: t in h.wires && t != c && h.wires[t].peer == Some(id) && Live(h, t) ==> h.wires[t].up == []
  }

  ghost predicate CurrentOk(h: Host, wr: seq<Entry>, n: Node) {
    && (n.attempt.Some? ==> n.recovering)
    && (Current(n).Some? ==>
          var c := Current(n).value;
          && c in h.wires && h.wires[c].peer == Some(n.id)
          && SettledFrom(wr, h.wires[c], 0)
          && (h.wires[c].phase == Accepted ==> Sole(h, n.id, c)))
  }

  ghost predicate Once(cfg: Config, h: Host, n: Node, v: Note) {
    var wr := Written(h.log, n.id);
    && Distinct(wr)
    && PendingOk(cfg, wr, n)
    && NoteOk(cfg, h, n, v)
    && LaterOk(h, wr, n, v)
    && StreamsOk(cfg, h, wr, n, v)
    && RestOkay(cfg, h, wr, n, v)
    && CurrentOk(h, wr, n)
  }

  lemma OnceParts(cfg: Config, h: Host, n: Node, v: Note)
    requires Once(cfg, h, n, v)
    ensures var wr := Written(h.log, n.id);
            && Distinct(wr) && PendingOk(cfg, wr, n) && NoteOk(cfg, h, n, v) && n.stream in h.wires
            && LaterOk(h, wr, n, v)
            && StreamsOk(cfg, h, wr, n, v) && RestOkay(cfg, h, wr, n, v) && CurrentOk(h, wr, n)
  {
    hide PendingOk, LaterOk, StreamsOk, RestOkay, CurrentOk, Distinct, Written, Opened, Floor;
  }

  lemma LogIsNumbered(cfg: Config, h: Host)
    requires HostOk(cfg, h)
    ensures Numbered(h.log)
  {
  }

  // ---- The owner's segments keep it ----

  /** What a segment does to the stream of a guest that wrote `wr`, unless it commits one of its texts. */
  ghost predicate WireCarried(a: Wire, b: Wire, id: Id, wr: seq<Entry>, logLength: nat) {
    && PeerKept(a, b) && FloorKept(a, b, logLength)
    && (a.peer == Some(id) || a.peer == None ==> WireAhead(a, b) && SettledFrom(wr, b, |a.down|))
  }

  ghost predicate Carried(h: Host, k: Host, id: Id) {
    && Written(k.log, id) == Written(h.log, id)
    && (forall s :: s in h.wires ==>
          s in k.wires && WireCarried(h.wires[s], k.wires[s], id, Written(h.log, id), |h.log|))
    && (forall s :: s in k.wires && s !in h.wires ==>
          k.wires[s].up == [] && k.wires[s].upRead == 0 && !Opened(k.wires[s]))
    && (forall s :: s in h.wires && Live(k, s) ==> Live(h, s) || h.wires[s].phase == Fresh)
    && (forall s ::
          (s in h.wires && h.wires[s].phase != Accepted && h.wires[s].peer == Some(id)
           && k.wires[s].phase == Accepted) ==> Sole(k, id, s))
  }

  /** Numbers written in a log are numbers of the log. */
  ghost predicate Within(wr: seq<Entry>, bound: nat) {
    forall i :: 0 <= i < |wr| ==> wr[i].number <= bound
  }

  lemma WrittenWithin(cfg: Config, h: Host, id: Id)
    requires HostOk(cfg, h)
    ensures Within(Written(h.log, id), |h.log|)
  {
    LogIsNumbered(cfg, h);
    WrittenIsLog(h.log, id);
    hide Written, HostOk;
  }

  lemma ReadHereCarried(a: Wire, b: Wire, wr: seq<Entry>, logLength: nat)
    requires Within(wr, logLength) && FloorKept(a, b, logLength) && WireAhead(a, b)
    requires ReadHere(wr, a) || a.down == []
    ensures ReadHere(wr, b)
  {
    hide IdsIn;
    IdsInMore(a.up, 0, a.upRead, b.upRead);
  }

  lemma StreamCarried(cfg: Config, h: Host, k: Host, wr: seq<Entry>, n: Node, v: Note, s: Id)
    requires HostOk(cfg, h) && StreamsOk(cfg, h, wr, n, v) && Attributed(h.wires) && Within(wr, |h.log|)
    requires s in h.wires && s in k.wires && k.wires[s].peer == Some(n.id)
    requires WireCarried(h.wires[s], k.wires[s], n.id, wr, |h.log|)
    requires Live(k, s) ==> Live(h, s) || h.wires[s].phase == Fresh
    ensures var w := k.wires[s];
            && UpDistinct(w, n.used) && w.upRead <= |w.up| && (w.phase != Accepted ==> w.up == [])
            && (Live(k, s) ==> UpOk(Span(cfg), wr, w, OnWay(n, v, s)) && ReadHere(wr, w))
  {
    hide HostOk, UpOk, UpDistinct, Live, OnWay, ReadHere, Opened, Floor, FloorKept, SettledFrom;
    var a, w := h.wires[s], k.wires[s];
    SilentStream(w, n.used, Span(cfg), wr, OnWay(n, v, s));
    OpenedFacts(cfg, h, s);
    if a.peer == None {
      assert w.up == [];
      UnopenedWire(a, w, wr, |h.log|);
    } else {
      SameDistinct(a, w, n.used);
      if Live(k, s) {
        ReadHereCarried(a, w, wr, |h.log|);
        if Live(h, s) {
          ReadShrinks(Span(cfg), wr, a, w, OnWay(n, v, s));
        }
      }
    }
  }

  lemma UnopenedWire(a: Wire, b: Wire, wr: seq<Entry>, logLength: nat)
    requires !Opened(a) && FloorKept(a, b, logLength) && Within(wr, logLength)
    ensures ReadHere(wr, b)
  {
    if a.down != [] {
      FloorStays(a, b);
    }
  }

  lemma StreamsCarried(cfg: Config, h: Host, k: Host, wr: seq<Entry>, n: Node, v: Note)
    requires HostOk(cfg, h) && StreamsOk(cfg, h, wr, n, v) && Attributed(h.wires) && Within(wr, |h.log|)
    requires Carried(h, k, n.id) && wr == Written(h.log, n.id)
    ensures StreamsOk(cfg, k, wr, n, v)
  {
    hide HostOk, UpOk, UpDistinct, Live, Written, OnWay, ReadHere, WireCarried, Opened, Sole, StreamsOk;
    forall s | s in k.wires && k.wires[s].peer == Some(n.id)
      ensures var w := k.wires[s];
              && UpDistinct(w, n.used) && w.upRead <= |w.up| && (w.phase != Accepted ==> w.up == [])
              && (Live(k, s) ==> UpOk(Span(cfg), wr, w, OnWay(n, v, s)) && ReadHere(wr, w))
    {
      if s in h.wires {
        StreamCarried(cfg, h, k, wr, n, v, s);
      } else {
        SilentStream(k.wires[s], n.used, Span(cfg), wr, OnWay(n, v, s));
        assert ReadHere(wr, k.wires[s]) by { UnopenedReads(wr, k.wires[s]); }
      }
    }
    assert StreamsOk(cfg, k, wr, n, v) by { StreamsFrom(cfg, k, wr, n, v); }
  }

  lemma UnopenedReads(wr: seq<Entry>, w: Wire)
    requires !Opened(w)
    ensures ReadHere(wr, w)
  {
  }

  lemma StreamsFrom(cfg: Config, h: Host, wr: seq<Entry>, n: Node, v: Note)
    requires forall s :: s in h.wires && h.wires[s].peer == Some(n.id) ==>
      var w := h.wires[s];
      && UpDistinct(w, n.used) && w.upRead <= |w.up| && (w.phase != Accepted ==> w.up == [])
      && (Live(h, s) ==> UpOk(Span(cfg), wr, w, OnWay(n, v, s)) && ReadHere(wr, w))
    ensures StreamsOk(cfg, h, wr, n, v)
  {
    hide UpOk, UpDistinct, Live, OnWay, ReadHere;
  }

  lemma RestCarried(cfg: Config, h: Host, k: Host, wr: seq<Entry>, n: Node, v: Note)
    requires RestOkay(cfg, h, wr, n, v) && AttemptOk(h, n) && Carried(h, k, n.id)
    ensures RestOkay(cfg, k, wr, n, v)
  {
    hide Live, Written, IdsIn, AfterIds, Has, Unsettled, IdsOf, FloorKept, SettledFrom, Sole, Opened, Span,
      DistinctSubmissions;
    if n.attempt.Some? {
      var a := n.attempt.value.stream;
      assert WireCarried(h.wires[a], k.wires[a], n.id, Written(h.log, n.id), |h.log|);
    }
  }

  /** Floors of the streams a guest uses: kept, or set where nothing was committed beyond. */
  lemma LaterCarried(cfg: Config, h: Host, k: Host, wr: seq<Entry>, n: Node, v: Note)
    requires NoteOk(cfg, h, n, v) && LaterOk(h, wr, n, v) && AttemptOk(h, n)
    requires Carried(h, k, n.id) && Within(wr, |h.log|)
    ensures n.stream in k.wires && LaterOk(k, wr, n, v) && NoteOk(cfg, k, n, v)
  {
    hide Live, Written, Unsettled, SettledFrom, Sole, Resumed, JoinedOn, Floor;
    var s := n.stream;
    assert WireCarried(h.wires[s], k.wires[s], n.id, Written(h.log, n.id), |h.log|);
    assert h.wires[s].down != [] by { OpenedDown(h.wires[s]); }
    FloorStays(h.wires[s], k.wires[s]);
    if n.attempt.Some? {
      var a := n.attempt.value.stream;
      assert WireCarried(h.wires[a], k.wires[a], n.id, Written(h.log, n.id), |h.log|);
      if h.wires[a].down != [] {
        FloorStays(h.wires[a], k.wires[a]);
      }
    }
    forall i | 0 <= i < |wr|
      ensures EntryLater(k, n, v, wr[i])
    {
      assert EntryLater(h, n, v, wr[i]);
    }
  }

  lemma OpenedDown(w: Wire)
    requires Opened(w)
    ensures w.down != []
  {
  }

  lemma SettledCarried(a: Wire, b: Wire, wr: seq<Entry>, logLength: nat)
    requires SettledFrom(wr, a, 0) && SettledFrom(wr, b, |a.down|) && FloorKept(a, b, logLength)
    ensures SettledFrom(wr, b, 0)
  {
    if a.down != [] {
      FloorStays(a, b);
    }
    hide Floor, Opened;
    forall p, i | 0 <= p < |b.down| && b.down[p].ActionRejected? && 0 <= i < |wr| && wr[i].id == b.down[p].requestId
      ensures wr[i].number <= Floor(b)
    {
      if p < |a.down| {
        assert a.down[p] == b.down[p];
      }
    }
  }

  lemma SoleCarried(h: Host, k: Host, id: Id, c: Id)
    requires Sole(h, id, c) && Carried(h, k, id) && Attributed(h.wires)
    requires forall s :: s in h.wires && h.wires[s].peer == Some(id) && h.wires[s].phase != Accepted ==>
      h.wires[s].up == []
    ensures Sole(k, id, c)
  {
    hide Live, Written, FloorKept, SettledFrom, Opened;
    forall t | t in k.wires && t != c && k.wires[t].peer == Some(id) && Live(k, t)
      ensures k.wires[t].up == []
    {
      if t in h.wires {
        assert WireCarried(h.wires[t], k.wires[t], id, Written(h.log, id), |h.log|);
      }
    }
  }

  lemma CurrentCarried(cfg: Config, h: Host, k: Host, wr: seq<Entry>, n: Node, v: Note)
    requires CurrentOk(h, wr, n) && StreamsOk(cfg, h, wr, n, v) && Attributed(h.wires)
    requires Carried(h, k, n.id) && wr == Written(h.log, n.id)
    ensures CurrentOk(k, wr, n)
  {
    hide Written, Live, UpOk, UpDistinct, OnWay, ReadHere, Sole, FloorKept, Opened, SettledFrom, Attributed;
    if Current(n).Some? {
      var c := Current(n).value;
      assert WireCarried(h.wires[c], k.wires[c], n.id, wr, |h.log|);
      SettledCarried(h.wires[c], k.wires[c], wr, |h.log|);
      if h.wires[c].phase == Accepted {
        SoleCarried(h, k, n.id, c);
      }
    }
  }

  lemma OnceCarried(cfg: Config, h: Host, k: Host, n: Node, v: Note)
    requires HostOk(cfg, h) && Once(cfg, h, n, v) && AttemptOk(h, n) && Carried(h, k, n.id) && Attributed(h.wires)
    ensures Once(cfg, k, n, v)
  {
    OnceParts(cfg, h, n, v);
    var wr := Written(h.log, n.id);
    hide HostOk, StreamsOk, RestOkay, PendingOk, NoteOk, LaterOk, CurrentOk, Distinct, AttemptOk, Attributed;
    WrittenWithin(cfg, h, n.id);
    StreamsCarried(cfg, h, k, wr, n, v);
    RestCarried(cfg, h, k, wr, n, v);
    LaterCarried(cfg, h, k, wr, n, v);
    CurrentCarried(cfg, h, k, wr, n, v);
  }

  // ---- Committing a text ----

  /** An online member has no other stream the owner still holds. */
  lemma OneVoice(cfg: Config, h: Host, id: Id, s: Id, t: Id)
    requires HostOk(cfg, h) && id in h.members && Voice(h.members[id], s)
    requires t in h.wires && h.wires[t].peer == Some(id) && Live(h, t)
    ensures t == s
  {
    assert MemberOk(h, id, h.members[id]);
    if HeldByMember(h.members, t) {
      var x :| x in h.members && Owns(h.members[x], t);
      assert MemberOk(h, x, h.members[x]);
    }
  }

  /** A stream over which a commit passed: nothing but the event was written. */
  predicate PassedOver(w: Wire, v: Wire, frames: nat) {
    && v.up == w.up && v.peer == w.peer && v.phase == w.phase && v.upRead == w.upRead + frames
    && (v.down == w.down || (w.down <= v.down && |v.down| == |w.down| + 1 && v.down[|w.down|].RoomEvent?))
  }

  lemma PassedFloor(w: Wire, v: Wire, frames: nat)
    requires PassedOver(w, v, frames)
    ensures Opened(v) == Opened(w) && Floor(v) == Floor(w) && Resumed(v) == Resumed(w) && JoinedOn(v) == JoinedOn(w)
  {
    if w.down != [] {
      FloorStays(w, v);
    }
  }

  lemma CommittedUps(h: Host, s: Id, body: Body)
    requires s in h.wires
    ensures var k := Commit(Counted(h, s), body);
            && k.wires.Keys == h.wires.Keys
            && (forall t :: t in h.wires ==> PassedOver(h.wires[t], k.wires[t], if t == s then 1 else 0))
            && (forall t :: Live(k, t) <==> Live(h, t))
            && k.log == h.log + [Event(|h.log| + 1, body)] && k.owner == h.owner
  {
    hide Listening;
  }

  /** The owner is about to commit the text of guest `n` that is next on stream `s`. */
  ghost predicate Committing(cfg: Config, h: Host, n: Node, s: Id, entry: Entry) {
    && HostOk(cfg, h) && n.id in h.members && Voice(h.members[n.id], s) && s in h.wires && h.wires[s].peer == Some(n.id)
    && h.wires[s].upRead < |h.wires[s].up|
    && h.wires[s].up[h.wires[s].upRead].TextSubmit?
    && h.wires[s].up[h.wires[s].upRead].submission.clientEventId == entry.id
    && entry.number == |h.log| + 1
  }

  lemma ReadHereCommits(w: Wire, v: Wire, wr: seq<Entry>, entry: Entry)
    requires ReadHere(wr, w) && PassedOver(w, v, 1)
    requires w.upRead < |w.up| && w.up[w.upRead].TextSubmit? && w.up[w.upRead].submission.clientEventId == entry.id
    ensures ReadHere(wr + [entry], v)
  {
    PassedFloor(w, v, 1);
    TextInFirst(w.up, w.upRead);
    IdsInMore(w.up, 0, w.upRead, w.upRead + 1);
    hide IdsIn, Opened, Floor;
  }

  lemma StreamsCommit(cfg: Config, h: Host, s: Id, n: Node, v: Note, entry: Entry, body: Body)
    requires Committing(cfg, h, n, s, entry) && StreamsOk(cfg, h, Written(h.log, n.id), n, v)
    ensures StreamsOk(cfg, Commit(Counted(h, s), body), Written(h.log, n.id) + [entry], n, v)
  {
    hide HostOk, Written, UpOk, UpDistinct, Live, Commit, OnWay, ReadHere, Opened, StreamsOk;
    var k := Commit(Counted(h, s), body);
    var wr := Written(h.log, n.id);
    CommittedUps(h, s, body);
    VoiceLive(h, n.id, s);
    StreamFacts(cfg, h, wr, n, v, s);
    ReadCommits(Span(cfg), wr, h.wires[s], k.wires[s], OnWay(n, v, s), n.used, entry);
    ReadHereCommits(h.wires[s], k.wires[s], wr, entry);
    forall t | t in k.wires && k.wires[t].peer == Some(n.id)
      ensures var w := k.wires[t];
              && UpDistinct(w, n.used) && w.upRead <= |w.up| && (w.phase != Accepted ==> w.up == [])
              && (Live(k, t) ==> t == s)
    {
      assert PassedOver(h.wires[t], k.wires[t], if t == s then 1 else 0);
      StreamFacts(cfg, h, wr, n, v, t);
      SameDistinct(h.wires[t], k.wires[t], n.used);
      if Live(h, t) {
        OneVoice(cfg, h, n.id, s, t);
      }
    }
    StreamsFrom(cfg, k, wr + [entry], n, v);
  }

  lemma StreamFacts(cfg: Config, h: Host, wr: seq<Entry>, n: Node, v: Note, s: Id)
    requires StreamsOk(cfg, h, wr, n, v) && s in h.wires && h.wires[s].peer == Some(n.id)
    ensures var w := h.wires[s];
            && UpDistinct(w, n.used) && w.upRead <= |w.up| && (w.phase != Accepted ==> w.up == [])
            && (Live(h, s) ==> UpOk(Span(cfg), wr, w, OnWay(n, v, s)) && ReadHere(wr, w))
  {
    hide Live, UpDistinct, UpOk, OnWay, ReadHere;
  }

  lemma RestCommit(cfg: Config, h: Host, s: Id, n: Node, v: Note, entry: Entry, body: Body)
    requires Committing(cfg, h, n, s, entry) && AttemptOk(h, n) && RestOkay(cfg, h, Written(h.log, n.id), n, v)
    ensures RestOkay(cfg, Commit(Counted(h, s), body), Written(h.log, n.id) + [entry], n, v)
  {
    hide HostOk, Written, Live, Commit, IdsIn, AfterIds, Has, IdsOf, Unsettled, Span, DistinctSubmissions;
    CommittedUps(h, s, body);
    if n.attempt.Some? {
      var a := n.attempt.value;
      if Live(h, a.stream) && a.Resubmitting? {
        OneVoice(cfg, h, n.id, s, a.stream);
        var up := h.wires[s].up;
        assert entry.id in IdsIn(up, 0, |up|) by { TextIn(up, h.wires[s].upRead); }
        RestWindow(Span(cfg), Written(h.log, n.id), entry, IdsIn(up, 0, |up|), IdsOf(a.rest));
      }
    }
  }

  /** A guest has at most one accepted stream that it writes to, so that is the one the owner reads. */
  lemma CommitsOnCurrent(cfg: Config, h: Host, wr: seq<Entry>, n: Node, s: Id, entry: Entry)
    requires Committing(cfg, h, n, s, entry) && CurrentOk(h, wr, n)
    ensures Current(n).Some? && h.wires[Current(n).value].phase == Accepted ==> Current(n).value == s
  {
    hide HostOk, SettledFrom, Live;
    VoiceLive(h, n.id, s);
  }

  lemma LaterCommit(cfg: Config, h: Host, s: Id, n: Node, v: Note, entry: Entry, body: Body)
    requires Committing(cfg, h, n, s, entry) && AttemptOk(h, n) && n.lastSeq <= |h.log|
    requires NoteOk(cfg, h, n, v) && LaterOk(h, Written(h.log, n.id), n, v) && CurrentOk(h, Written(h.log, n.id), n)
    requires entry.id in OnWay(n, v, s)
    ensures var k := Commit(Counted(h, s), body);
            n.stream in k.wires && NoteOk(cfg, k, n, v) && LaterOk(k, Written(h.log, n.id) + [entry], n, v)
  {
    hide HostOk, Written, Live, Commit, Unsettled, Resumed, JoinedOn, Floor, CurrentOk, Voice;
    var k := Commit(Counted(h, s), body);
    var wr := Written(h.log, n.id);
    CommittedUps(h, s, body);
    CommitsOnCurrent(cfg, h, wr, n, s, entry);
    PassedFloor(h.wires[n.stream], k.wires[n.stream], if n.stream == s then 1 else 0);
    if n.attempt.Some? {
      var a := n.attempt.value.stream;
      OpenedFacts(cfg, h, a);
      PassedFloor(h.wires[a], k.wires[a], if a == s then 1 else 0);
    }
    forall i | 0 <= i < |wr + [entry]|
      ensures EntryLater(k, n, v, (wr + [entry])[i])
    {
      if i < |wr| {
        assert EntryLater(h, n, v, wr[i]);
      }
    }
  }

  lemma SettledCommit(w: Wire, v: Wire, frames: nat, wr: seq<Entry>, entry: Entry)
    requires SettledFrom(wr, w, 0) && PassedOver(w, v, frames)
    requires forall p :: 0 <= p < |w.down| && w.down[p].ActionRejected? ==> w.down[p].requestId != entry.id
    ensures SettledFrom(wr + [entry], v, 0)
  {
    PassedFloor(w, v, frames);
    hide Floor, Opened;
    forall p, i | 0 <= p < |v.down| && v.down[p].ActionRejected? && 0 <= i < |wr + [entry]|
                  && (wr + [entry])[i].id == v.down[p].requestId
      ensures (wr + [entry])[i].number <= Floor(v)
    {
      assert v.down[p] == w.down[p];
    }
  }

  /** The text that is next on its stream was not rejected on it, nor on a stream nothing was read from. */
  lemma NotRejected(w: Wire, used: set<Id>, id: Id)
    requires RejectionsOk(w) && UpDistinct(w, used) && w.upRead <= |w.up|
    requires w.up == [] || (w.upRead < |w.up| && w.up[w.upRead].TextSubmit?
                            && w.up[w.upRead].submission.clientEventId == id)
    ensures forall p :: 0 <= p < |w.down| && w.down[p].ActionRejected? ==> w.down[p].requestId != id
  {
    hide Caught;
    if w.up != [] {
      NextIsNotRead(w, used);
    }
  }

  lemma CurrentCommit(cfg: Config, h: Host, s: Id, n: Node, v: Note, entry: Entry, body: Body)
    requires Committing(cfg, h, n, s, entry) && AllRejectionsOk(h.wires)
    requires CurrentOk(h, Written(h.log, n.id), n) && StreamsOk(cfg, h, Written(h.log, n.id), n, v)
    ensures CurrentOk(Commit(Counted(h, s), body), Written(h.log, n.id) + [entry], n)
  {
    var k := Commit(Counted(h, s), body);
    var wr := Written(h.log, n.id);
    hide HostOk, Written, Live, Commit, SettledFrom, Voice, RejectionsOk, StreamsOk, UpDistinct, UpOk, ReadHere, OnWay;
    CommittedUps(h, s, body);
    CommitsOnCurrent(cfg, h, wr, n, s, entry);
    if Current(n).Some? {
      var c := Current(n).value;
      StreamFacts(cfg, h, wr, n, v, c);
      NotRejected(h.wires[c], n.used, entry.id);
      SettledCommit(h.wires[c], k.wires[c], if c == s then 1 else 0, wr, entry);
      if h.wires[c].phase == Accepted {
        assert Sole(k, n.id, c) by {
          forall t | t in k.wires && t != c && k.wires[t].peer == Some(n.id) && Live(k, t)
            ensures k.wires[t].up == []
          {
            assert PassedOver(h.wires[t], k.wires[t], 0);
          }
        }
      }
    }
  }

  lemma PendingCommit(cfg: Config, wr: seq<Entry>, n: Node, entry: Entry)
    requires Distinct(wr) && PendingOk(cfg, wr, n) && !Has(wr, entry.id)
    requires entry.id in n.used && entry.number > n.lastSeq
    ensures Distinct(wr + [entry]) && PendingOk(cfg, wr + [entry], n)
  {
    hide IdsOf, DistinctSubmissions;
    forall i | 0 <= i < |wr|
      ensures wr[i].id != entry.id
    {
    }
  }

  /** The owner commits a text of guest `n`, which was never committed before. */
  lemma OnceCommits(cfg: Config, h: Host, s: Id, n: Node, v: Note)
    requires Span(cfg) <= cfg.dedupeMaxItems
    requires HostOk(cfg, h) && NodeOk(h, n) && Once(cfg, h, n, v) && AllRejectionsOk(h.wires)
    requires s in h.wires && h.wires[s].peer == Some(n.id) && n.id in h.members && Voice(h.members[n.id], s)
    requires h.wires[s].upRead < |h.wires[s].up| && h.wires[s].up[h.wires[s].upRead].TextSubmit?
    requires var f := h.wires[s].up[h.wires[s].upRead].submission;
             Answer(Written(h.log, n.id), cfg.dedupeMaxItems, f.clientEventId) == None
    ensures var f := h.wires[s].up[h.wires[s].upRead].submission;
            Once(cfg, Commit(Counted(h, s), Text(n.id, f.clientEventId, f.text)), n, v)
  {
    OnceParts(cfg, h, n, v);
    hide HostOk, StreamsOk, RestOkay, PendingOk, NoteOk, LaterOk, CurrentOk, Distinct, Live, NodeOk, UpOk, UpDistinct,
      Has, Answer,
      OnWay, ReadHere, AllRejectionsOk, Commit, Voice, Written;
    var w := h.wires[s];
    var f := w.up[w.upRead].submission;
    var body := Text(n.id, f.clientEventId, f.text);
    var wr := Written(h.log, n.id);
    var entry := Entry(f.clientEventId, |h.log| + 1);
    WrittenGrows(h.log, Event(|h.log| + 1, body), n.id);
    VoiceLive(h, n.id, s);
    StreamFacts(cfg, h, wr, n, v, s);
    WindowSuffices(Span(cfg), cfg.dedupeMaxItems, wr, w, OnWay(n, v, s));
    FirstUnread(Span(cfg), wr, w, OnWay(n, v, s), n.used);
    NodeFacts(h, n);
    assert Committing(cfg, h, n, s, entry);
    CommittedUps(h, s, body);
    hide Committing, AttemptOk, StreamOk;
    PendingCommit(cfg, wr, n, entry);
    StreamsCommit(cfg, h, s, n, v, entry, body);
    RestCommit(cfg, h, s, n, v, entry, body);
    LaterCommit(cfg, h, s, n, v, entry, body);
    CurrentCommit(cfg, h, s, n, v, entry, body);
  }

  /**
   * The owner rejects the text that is next on the stream of guest `n`: no text
   * committed on that stream is the same.
   */
  lemma RejectionSettled(cfg: Config, h: Host, wr: seq<Entry>, n: Node, v: Note, s: Id)
    requires HostOk(cfg, h) && CatchUpOk(h) && StreamsOk(cfg, h, wr, n, v) && s in h.wires
      && h.wires[s].peer == Some(n.id)
    requires n.id in h.members && Voice(h.members[n.id], s)
    requires h.wires[s].upRead < |h.wires[s].up| && h.wires[s].up[h.wires[s].upRead].TextSubmit?
    ensures var w := h.wires[s];
            SettledFrom(wr, Write(w, ActionRejected(w.up[w.upRead].submission.clientEventId)), |w.down|)
  {
    hide HostOk, CatchUpOk, Live, UpOk, UpDistinct, OnWay, StreamsOk, Caught, Opened;
    var w := h.wires[s];
    var id := w.up[w.upRead].submission.clientEventId;
    var after := Write(w, ActionRejected(id));
    VoiceLive(h, n.id, s);
    StreamFacts(cfg, h, wr, n, v, s);
    if !w.closed {
      VoiceCaught(cfg, h, n.id, s);
      OpenedDown(w);
      FloorStays(w, after);
      NextIsNotRead(w, n.used);
    }
  }
}
