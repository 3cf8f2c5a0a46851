/**
 * Seamless catch-up. The frames on a resumed stream carry its reader from the
 * number it claimed to the end of the log without a gap, however many events
 * are committed while the owner is catching up; a reader of a join stream can
 * meet a gap only if something was committed while its acceptance was written.
 */
module RoomCatchUp {
  import opened Basics
  import opened RoomTypes
  import opened ReplayBuffer
  import opened EventDeduper
  import opened RoomHost
  import opened RoomHostSafety

  /**
   * Where a frame takes a reader at `at`; None is a gap, or an acceptance frame
   * that is not the first. A strict reader refuses repeats too.
   */
  function Advance(at: nat, f: Down, strict: bool, first: bool := false): Option<nat> {
    match f
    case RoomEvent(event) =>
      if event.number == at + 1 then Some(event.number)
      else if event.number <= at && !strict then Some(at)
      else None
    case Resync(number, _) => if number >= at then Some(number) else None
    case JoinAccept(_, number, _) => if first then Some(number) else None
    case _ => Some(at)
  }

  function Reached(down: seq<Down>, from: nat, strict: bool): Option<nat> {
    if down == [] then Some(from)
    else
      var before := Reached(down[..|down| - 1], from, strict);
      if before.None? then None else Advance(before.value, down[|down| - 1], strict, |down| == 1)
  }

  lemma ReachedStep(down: seq<Down>, f: Down, from: nat, strict: bool)
    ensures Reached(down + [f], from, strict)
      == if Reached(down, from, strict).None? then None else Advance(Reached(down, from, strict).value, f, strict,
                                                                     down == [])
  {
    assert (down + [f])[..|down|] == down;
  }

  lemma {:induction false} StrictIsReached(down: seq<Down>, from: nat)
    requires Reached(down, from, true).Some?
    ensures Reached(down, from, false) == Reached(down, from, true)
  {
    if down != [] {
      StrictIsReached(down[..|down| - 1], from);
    }
  }

  predicate Resumed(w: Wire) {
    w.down != [] && w.down[0].ResumeAccept?
  }

  predicate JoinedOn(w: Wire) {
    w.down != [] && w.down[0].JoinAccept?
  }

  /** No reader of a resumed stream meets a gap, whether or not the stream is still in use. */
  ghost predicate NoGaps(wires: map<Id, Wire>) {
    forall s :: s in wires && Resumed(wires[s]) ==> Reached(wires[s].down, wires[s].claim, false).Some?
  }

  /** A resume in progress has carried exactly the events up to its cursor. */
  ghost predicate CarriesResume(h: Host, r: Resume) {
    r.stream in h.wires && (!h.wires[r.stream].closed ==>
      Resumed(h.wires[r.stream]) && Reached(h.wires[r.stream].down, h.wires[r.stream].claim, true) == Some(r.cursor))
  }

  /** The stream of an online member ends where the log ends. */
  ghost predicate CarriesVoice(h: Host, s: Id) {
    s in h.wires && (!h.wires[s].closed ==>
      var reached := Reached(h.wires[s].down, h.wires[s].claim, false);
      || (Resumed(h.wires[s]) && reached == Some(|h.log|))
      || (JoinedOn(h.wires[s]) && (reached == None || reached == Some(|h.log|))))
  }

  ghost predicate CarriesMember(h: Host, m: Member) {
    && (m.resume.Some? ==> CarriesResume(h, m.resume.value))
    && (m.stream.Some? ==> CarriesVoice(h, m.stream.value))
  }

  /** A request's stream carries nothing before its acceptance frame, and only that until it is admitted. */
  ghost predicate CarriesPending(h: Host, p: Pending) {
    p.stream in h.wires && (!h.wires[p.stream].closed ==>
      if p.state.Committing?
      then |h.wires[p.stream].down| == 1 && JoinedOn(h.wires[p.stream])
        && h.wires[p.stream].down[0].number == p.state.admissionSeq
      else h.wires[p.stream].down == [])
  }

  ghost predicate CatchUpOk(h: Host) {
    && NoGaps(h.wires)
    && (forall id :: id in h.members ==> CarriesMember(h, h.members[id]))
    && (forall r :: r in h.pending ==> CarriesPending(h, h.pending[r]))
  }

  // ---- Changes that carry nothing ----

  predicate Neutral(f: Down) {
    f.JoinReject? || f.ResumeReject? || f.ActionRejected? || f.Terminal?
  }

  ghost predicate WireQuiet(a: Wire, b: Wire) {
    && b.claim == a.claim && (a.closed ==> b.closed)
    && (b.down == a.down || (b.down != [] && b.down == a.down + [b.down[|b.down| - 1]]
                             && Neutral(b.down[|b.down| - 1])))
  }

  lemma QuietReached(a: Wire, b: Wire, strict: bool)
    requires WireQuiet(a, b)
    ensures Reached(b.down, b.claim, strict) == Reached(a.down, a.claim, strict)
    ensures a.down != [] ==> b.down != [] && b.down[0] == a.down[0]
    ensures a.down == [] && b.down != [] ==> Neutral(b.down[0])
  {
    if b.down != a.down {
      ReachedStep(a.down, b.down[|b.down| - 1], a.claim, strict);
    }
  }

  predicate LessHeld(m: Member, before: Member) {
    (m.stream == before.stream || m.stream == None) && (m.resume == before.resume || m.resume == None)
  }

  ghost predicate Quiet(h: Host, k: Host) {
    && k.log == h.log
    && (forall s :: s in h.wires ==> s in k.wires && WireQuiet(h.wires[s], k.wires[s]))
    && (forall s :: s in k.wires && s !in h.wires ==> !Resumed(k.wires[s]))
    && (forall id :: id in k.members ==> id in h.members && LessHeld(k.members[id], h.members[id]))
    && (forall r :: r in k.pending ==>
          && r in h.pending && k.pending[r].stream == h.pending[r].stream
          && (k.pending[r].state == h.pending[r].state
              || (!k.pending[r].state.Committing? && !h.pending[r].state.Committing?))
          && (k.pending[r].stream in k.wires && k.pending[r].stream in h.wires ==>
                k.wires[k.pending[r].stream].closed
                    || k.wires[k.pending[r].stream].down == h.wires[h.pending[r].stream].down))
  }

  lemma QuietOk(h: Host, k: Host)
    requires CatchUpOk(h) && Quiet(h, k)
    ensures CatchUpOk(k)
  {
    hide Reached;
    forall s | s in h.wires
      ensures Reached(k.wires[s].down, k.wires[s].claim, false) == Reached(h.wires[s].down, h.wires[s].claim, false)
      ensures Reached(k.wires[s].down, k.wires[s].claim, true) == Reached(h.wires[s].down, h.wires[s].claim, true)
      ensures h.wires[s].down != [] ==> k.wires[s].down != [] && k.wires[s].down[0] == h.wires[s].down[0]
      ensures h.wires[s].down == [] && k.wires[s].down != [] ==> Neutral(k.wires[s].down[0])
    {
      QuietReached(h.wires[s], k.wires[s], false);
      QuietReached(h.wires[s], k.wires[s], true);
    }
    forall id | id in k.members
      ensures CarriesMember(k, k.members[id])
    {
      assert CarriesMember(h, h.members[id]);
    }
    forall r | r in k.pending
      ensures CarriesPending(k, k.pending[r])
    {
      assert CarriesPending(h, h.pending[r]);
    }
  }

  // ---- A commit ----

  /** The state a commit starts from: one member may have been seated on its join stream just now. */
  ghost predicate ReadyToCarry(h: Host, newcomer: Option<Id>) {
    && NoGaps(h.wires)
    && (forall id :: id in h.members && newcomer != Some(id) ==> CarriesMember(h, h.members[id]))
    && (forall r :: r in h.pending ==> CarriesPending(h, h.pending[r]))
    && (newcomer.Some? && newcomer.value in h.members ==>
          var m := h.members[newcomer.value];
          m.resume == None && m.stream.Some? && m.stream.value in h.wires && (!h.wires[m.stream.value].closed ==>
            JoinedOn(h.wires[m.stream.value])
            && Reached(h.wires[m.stream.value].down, h.wires[m.stream.value].claim, false) == Some(m.admissionSeq)
            && m.admissionSeq <= |h.log|))
  }

  lemma ListenerIsPeer(h: Host, s: Id)
    requires VoicesOk(h) && Listening(h.members, s)
    ensures s in h.wires && h.wires[s].peer.Some? && h.wires[s].peer.value in h.members
    ensures Voice(h.members[h.wires[s].peer.value], s)
  {
    var id :| id in h.members && Voice(h.members[id], s);
    assert MemberOk(h, id, h.members[id]);
  }

  lemma NotListening(h: Host, s: Id)
    requires VoicesOk(h)
    ensures (exists r :: r in h.pending && h.pending[r].stream == s && !h.pending[r].state.Committing?) ==>
      !Listening(h.members, s)
    ensures (exists id :: id in h.members && h.members[id].resume.Some? && h.members[id].resume.value.stream == s)
      ==> !Listening(h.members, s)
  {
    if Listening(h.members, s) {
      ListenerIsPeer(h, s);
      forall id | id in h.members && h.members[id].resume.Some?
        ensures h.members[id].resume.value.stream != s
      {
        assert MemberOk(h, id, h.members[id]);
      }
    }
  }

  lemma BroadcastReaches(w: Wire, event: Event)
    requires !w.closed
    ensures var k := Write(w, RoomEvent(event));
            && Reached(k.down, w.claim, false) == (
                 var before := Reached(w.down, w.claim, false);
                 if before.None? then None else Advance(before.value, RoomEvent(event), false))
            && (w.down != [] ==> k.down != [] && k.down[0] == w.down[0])
            && !k.closed
  {
    ReachedStep(w.down, RoomEvent(event), w.claim, false);
  }

  lemma CommittedWire(h: Host, body: Body, s: Id, newcomer: Option<Id>)
    requires VoicesOk(h) && ReadyToCarry(h, newcomer) && Listening(h.members, s)
    ensures CarriesVoice(Commit(h, body), s)
    ensures s in h.wires && (Resumed(Commit(h, body).wires[s]) ==>
      Reached(Commit(h, body).wires[s].down, h.wires[s].claim, false).Some?)
  {
    hide VoicesOk, Reached, ReadyToCarry, Commit, Voice;
    ListenerIsPeer(h, s);
    CommitWrites(h, body, s);
    var w := h.wires[s];
    if w.closed {
      ReadyNoGaps(h, newcomer);
    } else {
      BroadcastReaches(w, Event(|h.log| + 1, body));
      ListenerReached(h, w.peer.value, s, newcomer);
    }
  }

  lemma CommitWrites(h: Host, body: Body, s: Id)
    requires Listening(h.members, s) && s in h.wires
    ensures s in Commit(h, body).wires && Commit(h, body).wires[s]
      == Write(h.wires[s], RoomEvent(Event(|h.log| + 1, body)))
    ensures |Commit(h, body).log| == |h.log| + 1
  {
    hide Listening;
  }

  lemma ReadyNoGaps(h: Host, newcomer: Option<Id>)
    requires ReadyToCarry(h, newcomer)
    ensures NoGaps(h.wires)
  {
    hide Reached, CarriesMember, CarriesPending;
  }

  lemma ListenerReached(h: Host, id: Id, s: Id, newcomer: Option<Id>)
    requires ReadyToCarry(h, newcomer) && id in h.members && Voice(h.members[id], s) && s in h.wires
      && !h.wires[s].closed
    ensures var w := h.wires[s];
            var reached := Reached(w.down, w.claim, false);
            || (Resumed(w) && reached == Some(|h.log|))
            || (JoinedOn(w) && (reached.None? || reached.value <= |h.log|))
  {
    hide Reached, CarriesPending, CarriesResume, Resumed, JoinedOn;
    if newcomer != Some(id) {
      assert CarriesMember(h, h.members[id]);
    }
  }

  lemma CommitCarries(h: Host, body: Body, newcomer: Option<Id>)
    requires VoicesOk(h) && ReadyToCarry(h, newcomer)
    requires forall r, id :: r in h.pending && h.pending[r].state.Committing? && id in h.members ==>
      h.pending[r].state.memberId != id
    ensures CatchUpOk(Commit(h, body))
  {
    hide Reached;
    var k := Commit(h, body);
    forall s | s in k.wires && Resumed(k.wires[s])
      ensures Reached(k.wires[s].down, k.wires[s].claim, false).Some?
    {
      if Listening(h.members, s) {
        CommittedWire(h, body, s, newcomer);
      }
    }
    forall id | id in k.members
      ensures CarriesMember(k, k.members[id])
    {
      var m := k.members[id];
      assert MemberOk(h, id, m);
      if m.stream.Some? {
        assert Voice(m, m.stream.value);
        CommittedWire(h, body, m.stream.value, newcomer);
      }
      if m.resume.Some? {
        NotListening(h, m.resume.value.stream);
        assert CarriesMember(h, m);
      }
    }
    forall r | r in k.pending
      ensures CarriesPending(k, k.pending[r])
    {
      var s := h.pending[r].stream;
      assert CarriesPending(h, h.pending[r]);
      if Listening(h.members, s) {
        ListenerIsPeer(h, s);
      }
    }
  }

  // ---- Segments that carry nothing ----

  lemma RejectQuiet(cfg: Config, h: Host, requestId: Id)
    requires HostOk(cfg, h)
    ensures Quiet(h, RejectPending(h, requestId)) && Quiet(h, DropPending(h, requestId))
  {
    hide HostOk, Quiet;
    PendingApart(cfg, h);
    if requestId in h.pending {
      var s := h.pending[requestId].stream;
      EndPendingQuiet(h, requestId, Write(h.wires[s], JoinReject).(closed := true));
      EndPendingQuiet(h, requestId, h.wires[s].(closed := true));
      assert RejectPending(h, requestId) == h.(
        wires := h.wires[s := Write(h.wires[s], JoinReject).(closed := true)], pending := h.pending - {requestId});
    } else {
      NothingQuiet(h);
    }
  }

  lemma NothingQuiet(h: Host)
    ensures Quiet(h, h)
  {
  }

  lemma EndPendingQuiet(h: Host, requestId: Id, w: Wire)
    requires requestId in h.pending && h.pending[requestId].stream in h.wires
    requires WireQuiet(h.wires[h.pending[requestId].stream], w)
    requires forall r, q :: r in h.pending && q in h.pending && r != q ==> h.pending[r].stream != h.pending[q].stream
    ensures Quiet(h, h.(wires := h.wires[h.pending[requestId].stream := w], pending := h.pending - {requestId}))
  {
  }

  lemma PendingApart(cfg: Config, h: Host)
    requires HostOk(cfg, h)
    ensures forall r, q :: r in h.pending && q in h.pending && r != q ==> h.pending[r].stream != h.pending[q].stream
    ensures forall r :: r in h.pending ==> h.pending[r].stream in h.wires
  {
  }

  lemma CancelQuiet(h: Host, everyone: bool)
    ensures Quiet(h, CancelPendingApprovals(h, everyone))
  {
  }

  lemma PauseQuiet(h: Host, paused: bool)
    ensures Quiet(h, SetJoinsPaused(h, paused)) && Quiet(h, SetRoomPaused(h, paused))
  {
    CancelQuiet(h.(joinsPaused := paused), false);
    CancelQuiet(h.(roomPaused := paused), false);
  }

  lemma RotateQuiet(h: Host, token: Id)
    ensures Quiet(h, RotateInvitation(h, token))
  {
    var k := RotateInvitation(h, token);
    forall s | s in h.wires
      ensures s in k.wires && WireQuiet(h.wires[s], k.wires[s])
    {
    }
  }

  lemma CloseQuiet(h: Host)
    ensures Quiet(h, CloseRoom(h))
  {
    var k := CloseRoom(h);
    forall s | s in h.wires
      ensures s in k.wires && WireQuiet(h.wires[s], k.wires[s])
    {
      CloseWireQuiet(h, s);
    }
    hide WireQuiet;
    if !h.closing {
      assert forall r :: r !in k.pending;
      assert k.wires.Keys == h.wires.Keys;
    }
  }

  lemma CloseWireQuiet(h: Host, s: Id)
    requires s in h.wires
    ensures s in CloseRoom(h).wires && WireQuiet(h.wires[s], CloseRoom(h).wires[s])
  {
    if !h.closing {
      var cancelled := CancelPendingApprovals(
        h.(closing := true, roomPaused := true, joinsPaused := true, generation := h.generation + 1), true);
      assert cancelled.wires[s].down == h.wires[s].down && cancelled.wires[s].claim == h.wires[s].claim;
      var after := CloseRoom(h).wires[s];
      assert after.down == h.wires[s].down || after.down == h.wires[s].down + [Terminal];
    }
  }

  // ---- Segments that write to one member's stream ----

  /** Changing one member and a stream of its own leaves everyone else's as it was. */
  lemma OneMember(cfg: Config, h: Host, id: Id, s: Id, w: Wire, m: Member)
    requires HostOk(cfg, h) && CatchUpOk(h) && id in h.members
    requires s in h.wires && h.wires[s].peer == Some(id)
    requires Resumed(w) ==> Reached(w.down, w.claim, false).Some?
    requires CarriesMember(h.(wires := h.wires[s := w], members := h.members[id := m]), m)
    ensures CatchUpOk(h.(wires := h.wires[s := w], members := h.members[id := m]))
  {
    hide Reached, IdsOk, WiresOk, LogOk, HasLeft;
    var k := h.(wires := h.wires[s := w], members := h.members[id := m]);
    forall x | x in k.members
      ensures CarriesMember(k, k.members[x])
    {
      if x != id {
        assert CarriesMember(h, h.members[x]) && MemberOk(h, x, h.members[x]);
      }
    }
    forall r | r in k.pending
      ensures CarriesPending(k, k.pending[r])
    {
      assert CarriesPending(h, h.pending[r]);
      PeerNotPending(cfg, h, id, r);
    }
  }

  lemma PeerNotPending(cfg: Config, h: Host, id: Id, r: Id)
    requires HostOk(cfg, h) && id in h.members && r in h.pending
    ensures h.pending[r].stream in h.wires && h.wires[h.pending[r].stream].peer != Some(id)
  {
  }

  lemma ResumeCarried(cfg: Config, h: Host, id: Id)
    requires HostOk(cfg, h) && CatchUpOk(h) && id in h.members && h.members[id].resume.Some?
    ensures var r := h.members[id].resume.value;
            AttachedTo(h, r.stream, id) && CarriesResume(h, r) && h.members[id].stream == None
            && h.members[id].role == Guest && BatchOk(h.log, r)
  {
    assert MemberOk(h, id, h.members[id]) && CarriesMember(h, h.members[id]);
  }

  lemma ResumeWrites(cfg: Config, h: Host, id: Id, f: Down, cursor: nat, rest: seq<Event>)
    requires HostOk(cfg, h) && CatchUpOk(h) && id in h.members && h.members[id].resume.Some?
    requires var r := h.members[id].resume.value; Advance(r.cursor, f, true) == Some(cursor)
    ensures var m := h.members[id];
            var r := m.resume.value;
            CatchUpOk(Send(h, r.stream, f).(members := h.members[id := m.(resume := Some(Resume(r.stream, cursor,
                rest)))]))
  {
    hide HostOk, CatchUpOk, Reached;
    ResumeCarried(cfg, h, id);
    var m := h.members[id];
    var r := m.resume.value;
    var w := h.wires[r.stream];
    var written := Write(w, f);
    ReachedStep(w.down, f, w.claim, true);
    StrictBoth(h, w, f);
    OneMember(cfg, h, id, r.stream, written, m.(resume := Some(Resume(r.stream, cursor, rest))));
  }

  lemma StrictBoth(h: Host, w: Wire, f: Down)
    requires CatchUpOk(h) && exists s :: s in h.wires && h.wires[s] == w
    requires !w.closed ==> Reached(w.down + [f], w.claim, true).Some?
    ensures Resumed(Write(w, f)) && (w.closed || w.down != []) ==> Reached(Write(w, f).down, w.claim, false).Some?
  {
    if !w.closed {
      StrictIsReached(w.down + [f], w.claim);
    }
  }

  lemma ContinueCarries(cfg: Config, h: Host, id: Id, ok: bool)
    requires GoodConfig(cfg) && HostOk(cfg, h) && CatchUpOk(h)
    ensures CatchUpOk(ContinueResume(h, cfg, id, ok))
  {
    hide HostOk, CatchUpOk, Reached;
    if id in h.members && h.members[id].resume.Some? {
      ResumeCarried(cfg, h, id);
      var r := h.members[id].resume.value;
      if !ok || h.closing || h.wires[r.stream].closed {
        AbortQuiet(h, id);
        QuietOk(h, AbortResume(h, id));
      } else if r.rest != [] {
        NextNumber(cfg, h, r.cursor);
        ResumeWrites(cfg, h, id, RoomEvent(r.rest[0]), r.cursor + 1, r.rest[1..]);
      } else if r.cursor < |h.log| {
        AfterIsLog(cfg, h.log, r.cursor);
        NextNumber(cfg, h, r.cursor);
        var events := After(cfg, h.log, r.cursor);
        if events.Some? {
          ResumeWrites(cfg, h, id, RoomEvent(events.value[0]), r.cursor + 1, events.value[1..]);
        } else {
          ResumeWrites(cfg, h, id, Resync(|h.log|, Faces(h.members)), |h.log|, []);
        }
      } else {
        ActivateCarries(cfg, h, id);
      }
    }
  }

  lemma NextNumber(cfg: Config, h: Host, cursor: nat)
    requires HostOk(cfg, h) && cursor < |h.log|
    ensures h.log[cursor].number == cursor + 1
  {
  }

  lemma AbortQuiet(h: Host, id: Id)
    requires id in h.members
    ensures Quiet(h, AbortResume(h, id))
  {
    var m := h.members[id];
    if m.resume.None? {
      NothingQuiet(h);
    } else {
      var s := m.resume.value.stream;
      var members := h.members[id := m.(resume := None)];
      if s in h.wires {
        ChangedQuiet(h, s, h.wires[s].(closed := true), members);
      } else {
        LessQuiet(h, members);
      }
    }
  }

  /** Some members hold less. */
  lemma LessQuiet(h: Host, members: map<Id, Member>)
    requires forall id :: id in members ==> id in h.members && LessHeld(members[id], h.members[id])
    ensures Quiet(h, h.(members := members))
  {
    hide LessHeld;
  }

  /** One stream is closed, or told something neutral, and some members hold less. */
  lemma ChangedQuiet(h: Host, s: Id, w: Wire, members: map<Id, Member>)
    requires s in h.wires && WireQuiet(h.wires[s], w)
    requires w.closed || w.down == h.wires[s].down
    requires forall id :: id in members ==> id in h.members && LessHeld(members[id], h.members[id])
    ensures Quiet(h, h.(members := members, wires := h.wires[s := w]))
  {
    assert forall t :: t in h.wires ==> WireQuiet(h.wires[t], h.wires[t]);
    hide LessHeld, WireQuiet, Resumed;
  }

  /**
   * Going online: at that moment the stream has carried exactly the log from
   * the claimed number to its end (or a resync over a prefix), and the member
   * then hears every event from the next number on.
   */
  lemma ActivationIsSeamless(cfg: Config, h: Host, id: Id)
    requires HostOk(cfg, h) && CatchUpOk(h) && id in h.members && h.members[id].resume.Some?
    requires var r := h.members[id].resume.value;
             r.rest == [] && r.cursor >= |h.log| && r.stream in h.wires && !h.wires[r.stream].closed && !h.closing
    ensures var s := h.members[id].resume.value.stream;
            var k := ContinueResume(h, cfg, id, true);
            && Reached(h.wires[s].down, h.wires[s].claim, true) == Some(|h.log|)
            && id in k.members && Voice(k.members[id], s) && s in k.wires
            && k.wires[s].down == h.wires[s].down + [RoomEvent(Event(|h.log| + 1, State(id, Online)))]
  {
    hide Reached;
    ResumeCarried(cfg, h, id);
    var m := h.members[id];
    var s := m.resume.value.stream;
    var online := h.members[id := m.(status := Online, stream := Some(s), resume := None)];
    assert Voice(online[id], s);
    assert Listening(online, s);
  }

  lemma ActivateCarries(cfg: Config, h: Host, id: Id)
    requires HostOk(cfg, h) && CatchUpOk(h) && id in h.members && h.members[id].resume.Some?
    requires h.members[id].resume.value.cursor >= |h.log|
    ensures var m := h.members[id];
            CatchUpOk(Commit(h.(members := h.members[id := m.(status := Online,
                                                              stream := Some(m.resume.value.stream), resume := None)]),
                             State(id, Online)))
  {
    hide Reached, WiresOk, LogOk, HasLeft;
    ResumeCarried(cfg, h, id);
    var m := h.members[id];
    var s := m.resume.value.stream;
    var on := m.(status := Online, stream := Some(s), resume := None);
    var online := h.(members := h.members[id := on]);
    StrictVoice(h, m.resume.value);
    assert MemberOk(h, id, m) && MemberOk(h, id, on);
    MemberChangeOk(cfg, h, id, on);
    forall x | x in online.members
      ensures CarriesMember(online, online.members[x])
    {
      assert CarriesMember(h, h.members[x]);
    }
    CommitCarries(online, State(id, Online), None);
  }

  lemma StrictVoice(h: Host, r: Resume)
    requires CarriesResume(h, r) && r.cursor == |h.log|
    ensures CarriesVoice(h, r.stream)
  {
    if !h.wires[r.stream].closed {
      StrictIsReached(h.wires[r.stream].down, h.wires[r.stream].claim);
    }
  }

  // ---- Admission ----

  lemma NewWireQuiet(h: Host, s: Id, w: Wire)
    requires s !in h.wires && !Resumed(w)
    ensures Quiet(h, h.(wires := h.wires[s := w]))
  {
  }

  lemma NewRequestCarries(h: Host, requestId: Id, p: Pending)
    requires CatchUpOk(h) && CarriesPending(h, p)
    ensures CatchUpOk(h.(pending := h.pending[requestId := p]))
  {
    hide Reached, Resumed, JoinedOn;
    var k := h.(pending := h.pending[requestId := p]);
    forall r | r in k.pending
      ensures CarriesPending(k, k.pending[r])
    {
      assert r != requestId ==> CarriesPending(h, h.pending[r]);
    }
    forall id | id in k.members
      ensures CarriesMember(k, k.members[id])
    {
      assert CarriesMember(h, h.members[id]);
    }
  }

  lemma JoinRequestCarries(cfg: Config, h: Host, s: Id, requestId: Id, token: Id, wellFormed: bool)
    requires CatchUpOk(h)
    ensures CatchUpOk(AcceptJoinRequest(h, cfg, s, requestId, token, wellFormed))
  {
    hide CatchUpOk, Quiet;
    var k := AcceptJoinRequest(h, cfg, s, requestId, token, wellFormed);
    if s !in h.wires {
      NewWireQuiet(h, s, k.wires[s]);
      QuietOk(h, h.(wires := k.wires));
      if k.pending != h.pending {
        NewRequestCarries(h.(wires := k.wires), requestId, Pending(s, token, Waiting));
      }
    }
  }

  lemma ReserveQuiet(h: Host, requestId: Id)
    requires requestId in h.pending && h.pending[requestId].state.Waiting?
    ensures Quiet(h, h.(pending := h.pending[requestId := h.pending[requestId].(state := Approving(h.generation))]))
  {
  }

  lemma ApproveBeginCarries(cfg: Config, h: Host, requestId: Id, expired: bool)
    requires HostOk(cfg, h) && CatchUpOk(h)
    ensures CatchUpOk(ApproveBegin(h, cfg, requestId, expired))
  {
    hide CatchUpOk, HostOk, Quiet;
    RejectQuiet(cfg, h, requestId);
    QuietOk(h, RejectPending(h, requestId));
    if requestId in h.pending && h.pending[requestId].state.Waiting? {
      ReserveQuiet(h, requestId);
      QuietOk(h, h.(pending := h.pending[requestId := h.pending[requestId].(state := Approving(h.generation))]));
    }
  }

  lemma ApproveVerifiedCarries(cfg: Config, h: Host, requestId: Id, verified: bool, expired: bool, memberId: Id)
    requires HostOk(cfg, h) && CatchUpOk(h)
    ensures CatchUpOk(ApproveVerified(h, requestId, verified, expired, memberId))
  {
    hide CatchUpOk, HostOk;
    RejectQuiet(cfg, h, requestId);
    QuietOk(h, RejectPending(h, requestId));
    if requestId in h.pending && h.pending[requestId].state.Approving? && h.pending[requestId].stream in h.wires {
      StartCommittingCarries(cfg, h, requestId, memberId);
    }
  }

  lemma StartCommittingCarries(cfg: Config, h: Host, requestId: Id, memberId: Id)
    requires HostOk(cfg, h) && CatchUpOk(h)
    requires requestId in h.pending && h.pending[requestId].state.Approving? && h.pending[requestId].stream in h.wires
    ensures CatchUpOk(StartCommitting(h, requestId, memberId))
  {
    hide IdsOk, WiresOk, LogOk, HasLeft, Reached;
    var k := StartCommitting(h, requestId, memberId);
    var s := h.pending[requestId].stream;
    assert CarriesPending(h, h.pending[requestId]);
    assert h.wires[s].peer == None;
    forall id | id in k.members
      ensures CarriesMember(k, k.members[id])
    {
      assert CarriesMember(h, h.members[id]) && MemberOk(h, id, h.members[id]);
    }
    forall r | r in k.pending
      ensures CarriesPending(k, k.pending[r])
    {
      assert CarriesPending(h, h.pending[r]);
    }
  }

  lemma ApproveCommitCarries(cfg: Config, h: Host, requestId: Id, written: bool)
    requires HostOk(cfg, h) && CatchUpOk(h)
    ensures CatchUpOk(ApproveCommit(h, requestId, written))
  {
    hide CatchUpOk, HostOk;
    RejectQuiet(cfg, h, requestId);
    QuietOk(h, RejectPending(h, requestId));
    if requestId in h.pending && h.pending[requestId].state.Committing? {
      SeatCarries(cfg, h, requestId);
    }
  }

  function Seated(h: Host, requestId: Id): Host
    requires requestId in h.pending && h.pending[requestId].state.Committing?
  {
    var p := h.pending[requestId];
    h.(members := h.members[p.state.memberId := Member(Guest, Online, Some(p.stream), p.state.admissionSeq, None)],
       pending := h.pending - {requestId})
  }

  lemma AcceptedReaches(h: Host, requestId: Id)
    requires CatchUpOk(h) && requestId in h.pending && h.pending[requestId].state.Committing?
    requires var s := h.pending[requestId].stream; s in h.wires ==> !h.wires[s].closed
    ensures h.pending[requestId].stream in h.wires
    ensures var p := h.pending[requestId];
            JoinedOn(h.wires[p.stream])
            && Reached(h.wires[p.stream].down, h.wires[p.stream].claim, false) == Some(p.state.admissionSeq)
  {
    var p := h.pending[requestId];
    assert CarriesPending(h, p);
    var w := h.wires[p.stream];
    assert w.down == [] + [w.down[0]];
    ReachedStep([], w.down[0], w.claim, false);
  }

  lemma SeatCarries(cfg: Config, h: Host, requestId: Id)
    requires HostOk(cfg, h) && CatchUpOk(h) && requestId in h.pending && h.pending[requestId].state.Committing?
    ensures CatchUpOk(Commit(Seated(h, requestId), Joined(h.pending[requestId].state.memberId, Face(Guest, Online))))
  {
    hide WiresOk, LogOk, HasLeft, Reached;
    var seated := Seated(h, requestId);
    var p := h.pending[requestId];
    var id := p.state.memberId;
    assert MemberOk(seated, id, seated.members[id]);
    if !h.wires[p.stream].closed {
      AcceptedReaches(h, requestId);
    }
    forall x | x in seated.members && x != id
      ensures CarriesMember(seated, seated.members[x]) && MemberOk(seated, x, seated.members[x])
    {
      assert CarriesMember(h, h.members[x]) && MemberOk(h, x, h.members[x]);
    }
    forall r | r in seated.pending
      ensures CarriesPending(seated, seated.pending[r])
    {
      assert CarriesPending(h, h.pending[r]);
    }
    CommitCarries(seated, Joined(id, Face(Guest, Online)), Some(id));
  }

  /**
   * A newcomer meets a gap on its join stream iff something was committed
   * between reading the number put into its acceptance frame and its admission.
   */
  lemma JoinGapExactly(cfg: Config, h: Host, requestId: Id)
    requires HostOk(cfg, h) && CatchUpOk(h)
    requires requestId in h.pending && h.pending[requestId].state.Committing?
    requires ApproveCommit(h, requestId, true) != RejectPending(h, requestId)
    requires var s := h.pending[requestId].stream; s in h.wires ==> !h.wires[s].closed
    ensures var k := ApproveCommit(h, requestId, true);
            h.pending[requestId].stream in k.wires &&
            var w := k.wires[h.pending[requestId].stream];
            Reached(w.down, w.claim, false) == if h.pending[requestId].state.admissionSeq == |h.log|
                then Some(|k.log|) else None
  {
    hide HostOk, CatchUpOk, Reached;
    var p := h.pending[requestId];
    AcceptedReaches(h, requestId);
    AdmissionNumber(cfg, h, requestId);
    var seated := Seated(h, requestId);
    assert Voice(seated.members[p.state.memberId], p.stream);
    assert Listening(seated.members, p.stream);
    var w := h.wires[p.stream];
    ReachedStep(w.down, RoomEvent(Event(|h.log| + 1, Joined(p.state.memberId, Face(Guest, Online)))), w.claim, false);
  }

  lemma AdmissionNumber(cfg: Config, h: Host, requestId: Id)
    requires HostOk(cfg, h) && requestId in h.pending && h.pending[requestId].state.Committing?
    ensures h.pending[requestId].state.admissionSeq <= |h.log|
  {
  }

  // ---- Members ----

  lemma MarkCarries(cfg: Config, h: Host, id: Id)
    requires HostOk(cfg, h) && CatchUpOk(h)
    ensures CatchUpOk(MarkReconnecting(h, id))
  {
    hide Reached, WiresOk, LogOk, HasLeft, CatchUpOk;
    if !h.closing && id in h.members && h.members[id].role == Guest && h.members[id].status == Online {
      var m := h.members[id];
      assert MemberOk(h, id, m);
      var shut := Shut(h, m.stream.value);
      var gone := shut.(members := h.members[id := m.(status := Reconnecting, stream := None)]);
      PeerPendings(cfg, h, id, m.stream.value);
      assert Quiet(h, gone);
      QuietOk(h, gone);
      GoneVoices(cfg, h, id);
      CommitQuietly(gone, State(id, Reconnecting));
    }
  }

  lemma PeerPendings(cfg: Config, h: Host, id: Id, s: Id)
    requires HostOk(cfg, h) && id in h.members && s in h.wires && h.wires[s].peer == Some(id)
    ensures forall r :: r in h.pending ==> h.pending[r].stream != s
  {
  }

  lemma GoneVoices(cfg: Config, h: Host, id: Id)
    requires HostOk(cfg, h) && id in h.members && h.members[id].role == Guest && h.members[id].stream.Some?
    ensures var m := h.members[id];
            var gone := Shut(h, m.stream.value).(members := h.members[id := m.(status := Reconnecting,
                                                                               stream := None)]);
            VoicesOk(gone) && IdsOk(gone)
  {
    hide HostOk;
    var m := h.members[id];
    ShutOk(cfg, h, m.stream.value);
    var shut := Shut(h, m.stream.value);
    DetachedOk(cfg, shut, id);
    MemberChangeOk(cfg, shut, id, m.(status := Reconnecting, stream := None));
  }

  lemma CommitQuietly(h: Host, body: Body)
    requires CatchUpOk(h) && VoicesOk(h) && IdsOk(h)
    ensures CatchUpOk(Commit(h, body))
  {
    hide Reached;
    CommitCarries(h, body, None);
  }

  lemma RemoveCarries(cfg: Config, h: Host, id: Id, notify: bool)
    requires HostOk(cfg, h) && CatchUpOk(h)
    ensures CatchUpOk(RemoveMember(h, id, notify))
  {
    hide HostOk, CatchUpOk, Quiet, Commit, AbortResume, Told;
    if !h.closing && id != h.owner && id in h.members {
      RemovedInSteps(h, id, notify);
      var aborted := AbortResume(h, id);
      AbortQuiet(h, id);
      QuietOk(h, aborted);
      AbortResumeOk(cfg, h, id);
      var told := Told(aborted, id, notify);
      TellQuiet(cfg, aborted, id, notify);
      var gone := told.(members := aborted.members - {id});
      QuietOk(aborted, gone);
      TellOk(cfg, aborted, id, notify);
      DeleteVoices(cfg, told, id);
      DeletedIds(cfg, told, id);
      CommitQuietly(gone, Left(id));
    }
  }

  lemma RemovedInSteps(h: Host, id: Id, notify: bool)
    requires !h.closing && id != h.owner && id in h.members
    ensures var aborted := AbortResume(h, id);
            && id in aborted.members && aborted.owner == h.owner
            && var told := Told(aborted, id, notify);
               && told.owner == h.owner && told.members == aborted.members
               && RemoveMember(h, id, notify) == Commit(told.(members := aborted.members - {id}), Left(id))
  {
    hide Commit;
    var aborted := AbortResume(h, id);
    assert aborted.members - {id} == h.members - {id};
  }

  function Told(h: Host, id: Id, notify: bool): Host
    requires id in h.members
  {
    var m := h.members[id];
    if m.stream.None? then h
    else Shut(if notify then Send(h, m.stream.value, Terminal) else h, m.stream.value)
  }

  lemma TellQuiet(cfg: Config, h: Host, id: Id, notify: bool)
    requires HostOk(cfg, h) && id in h.members
    ensures Quiet(h, Told(h, id, notify).(members := h.members - {id}))
  {
    hide HostOk, Quiet;
    var m := h.members[id];
    if m.stream.Some? {
      StreamWire(cfg, h, id);
      var s := m.stream.value;
      var w := if notify then Write(h.wires[s], Terminal) else h.wires[s];
      ChangedQuiet(h, s, w.(closed := true), h.members - {id});
      assert Told(h, id, notify).wires == h.wires[s := w.(closed := true)];
    } else {
      LessQuiet(h, h.members - {id});
    }
  }

  lemma TellOk(cfg: Config, h: Host, id: Id, notify: bool)
    requires HostOk(cfg, h) && id in h.members
    ensures HostOk(cfg, Told(h, id, notify))
  {
    hide HostOk;
    var m := h.members[id];
    if m.stream.Some? {
      StreamWire(cfg, h, id);
      SendOk(cfg, h, m.stream.value, Terminal);
      ShutOk(cfg, if notify then Send(h, m.stream.value, Terminal) else h, m.stream.value);
    }
  }

  lemma DeletedIds(cfg: Config, h: Host, id: Id)
    requires HostOk(cfg, h) && id != h.owner
    ensures IdsOk(h.(members := h.members - {id}))
  {
    hide HasLeft, VoicesOk, WiresOk, LogOk;
  }

  // ---- Resumes, frames from guests, the owner's texts ----

  lemma AcceptResumeCarries(cfg: Config, h: Host, s: Id, inTime: bool)
    requires HostOk(cfg, h) && CatchUpOk(h)
    ensures CatchUpOk(AcceptResume(h, s, inTime))
  {
    hide HostOk, CatchUpOk, Quiet;
    if s in h.wires && h.wires[s].phase == Fresh {
      FreshEmptyUnheld(cfg, h, s);
      var w := h.wires[s];
      if w.peer.None? || !Resumable(h, w.peer.value, w.claim, inTime) {
        RefusalQuiet(h, s);
        QuietOk(h, AcceptResume(h, s, inTime));
      } else {
        var id := w.peer.value;
        MarkKeeps(cfg, h, id, s);
        MarkReconnectingOk(cfg, h, id);
        MarkCarries(cfg, h, id);
        StartCarries(cfg, MarkReconnecting(h, id), s);
      }
    }
  }

  lemma FreshEmptyUnheld(cfg: Config, h: Host, s: Id)
    requires HostOk(cfg, h) && s in h.wires && h.wires[s].phase == Fresh
    ensures h.wires[s].down == []
    ensures forall r :: r in h.pending ==> h.pending[r].stream != s
  {
  }

  lemma RefusalQuiet(h: Host, s: Id)
    requires s in h.wires && h.wires[s].down == []
    requires forall r :: r in h.pending ==> h.pending[r].stream != s
    ensures Quiet(h, h.(wires := h.wires[s := h.wires[s].(phase := Refused, down := h.wires[s].down + [ResumeReject],
                                                          closed := true)]))
  {
  }

  lemma StartCarries(cfg: Config, h: Host, s: Id)
    requires HostOk(cfg, h) && CatchUpOk(h)
    requires s in h.wires && h.wires[s].phase == Fresh && h.wires[s].down == []
    requires h.wires[s].peer.Some? && h.wires[s].peer.value in h.members
    requires h.members[h.wires[s].peer.value].stream == None
    ensures var w := h.wires[s];
            var id := w.peer.value;
            CatchUpOk(h.(
              members := h.members[id := h.members[id].(resume := Some(Resume(s, w.claim, [])))],
              wires := h.wires[s := Write(w.(phase := Accepted, base := |h.log|), ResumeAccept(|h.log|))]))
  {
    hide HostOk, CatchUpOk, Reached;
    var w := h.wires[s];
    var id := w.peer.value;
    var written := Write(w.(phase := Accepted, base := |h.log|), ResumeAccept(|h.log|));
    ReachedStep([], ResumeAccept(|h.log|), w.claim, true);
    ReachedStep([], ResumeAccept(|h.log|), w.claim, false);
    assert [] + [ResumeAccept(|h.log|)] == [ResumeAccept(|h.log|)];
    EmptyReaches(w.claim);
    OneMember(cfg, h, id, s, written, h.members[id].(resume := Some(Resume(s, w.claim, []))));
  }

  lemma EmptyReaches(from: nat)
    ensures Reached([], from, true) == Reached([], from, false) == Some(from)
  {
  }

  lemma ReplyCarries(cfg: Config, h: Host, id: Id, s: Id, f: Down)
    requires HostOk(cfg, h) && CatchUpOk(h) && id in h.members && Voice(h.members[id], s)
    requires f.ActionRejected? || (f.RoomEvent? && f.event.number <= |h.log|)
    ensures CatchUpOk(Send(h, s, f))
  {
    hide HostOk, CatchUpOk, Reached;
    VoiceWire(cfg, h, id, s);
    VoiceCarried(cfg, h, id, s);
    var w := h.wires[s];
    ReachedStep(w.down, f, w.claim, false);
    var k := Send(h, s, f);
    assert k == k.(members := h.members[id := h.members[id]]);
    OneMember(cfg, h, id, s, Write(w, f), h.members[id]);
  }

  lemma VoiceCarried(cfg: Config, h: Host, id: Id, s: Id)
    requires HostOk(cfg, h) && CatchUpOk(h) && id in h.members && Voice(h.members[id], s)
    ensures CarriesVoice(h, s) && h.members[id].resume == None
    ensures Resumed(h.wires[s]) ==> Reached(h.wires[s].down, h.wires[s].claim, false).Some?
  {
    assert CarriesMember(h, h.members[id]) && MemberOk(h, id, h.members[id]);
  }

  lemma SubmitCarries(cfg: Config, h: Host, id: Id, s: Id, submission: Submission)
    requires HostOk(cfg, h) && CatchUpOk(h) && id in h.members && Voice(h.members[id], s)
    ensures CatchUpOk(SubmitText(h, cfg, id, s, submission))
  {
    hide CatchUpOk, Reached, LogOk, WiresOk, RosterMatches;
    if h.roomPaused {
      ReplyCarries(cfg, h, id, s, ActionRejected(submission.clientEventId));
    } else if !ValidText(cfg, submission.text) {
      MarkCarries(cfg, h, id);
    } else {
      var prior := Answer(Written(h.log, id), cfg.dedupeMaxItems, submission.clientEventId);
      if prior.None? {
        CommitQuietly(h, Text(id, submission.clientEventId, submission.text));
      } else if 1 <= prior.value <= |h.log| && After(cfg, h.log, prior.value - 1).Some? {
        NextNumber(cfg, h, prior.value - 1);
        ReplyCarries(cfg, h, id, s, RoomEvent(h.log[prior.value - 1]));
      } else {
        ReplyCarries(cfg, h, id, s, ActionRejected(submission.clientEventId));
      }
    }
  }

  lemma CountQuiet(h: Host, s: Id)
    requires s in h.wires
    ensures Quiet(h, h.(wires := h.wires[s := h.wires[s].(upRead := h.wires[s].upRead + 1)]))
  {
  }

  lemma ReadCarries(cfg: Config, h: Host, s: Id)
    requires HostOk(cfg, h) && CatchUpOk(h)
    ensures CatchUpOk(ReadUp(h, cfg, s))
  {
    hide HostOk, CatchUpOk, Quiet;
    if Readable(h, s) {
      var w := h.wires[s];
      var read := h.(wires := h.wires[s := w.(upRead := w.upRead + 1)]);
      CountedOk(cfg, h, s);
      CountQuiet(h, s);
      QuietOk(h, read);
      if w.peer.Some? && w.peer.value in h.members && Voice(h.members[w.peer.value], s) {
        if w.up[w.upRead].TextSubmit? {
          SubmitCarries(cfg, read, w.peer.value, s, w.up[w.upRead].submission);
        } else {
          RemoveCarries(cfg, read, w.peer.value, false);
        }
      } else if PendingOn(h, s) != {} {
        var r :| r in PendingOn(h, s) && ReadUp(h, cfg, s) == DropPending(read, r);
        RejectQuiet(cfg, read, r);
        QuietOk(read, DropPending(read, r));
      }
    }
  }

  lemma OwnerTextCarries(cfg: Config, h: Host, submission: Submission)
    requires HostOk(cfg, h) && CatchUpOk(h)
    ensures CatchUpOk(OwnerText(h, cfg, submission))
  {
    hide CatchUpOk, LogOk, WiresOk, RosterMatches;
    CommitQuietly(h, Text(h.owner, submission.clientEventId, submission.text));
  }

  lemma ShutQuiet(h: Host, s: Id)
    ensures Quiet(h, Shut(h, s))
  {
    if s in h.wires {
      ChangedQuiet(h, s, h.wires[s].(closed := true), h.members);
    } else {
      NothingQuiet(h);
    }
  }
}
