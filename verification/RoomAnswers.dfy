/**
 * What the owner answers. For each of its segments, when it grants what it was
 * asked, what exactly is then written, to whom, and what becomes of it
 * otherwise, said of the members, requests, log and streams alone.
 */
module RoomAnswers {
  import opened Basics
  import opened RoomTypes
  import opened ReplayBuffer
  import opened EventDeduper
  import opened RoomHost
  import opened RoomHostSafety
  import opened RoomTexts
  import opened RoomTextRules

  /** The owner wrote `frames` to a stream if it could, and closed it if `closes`. */
  predicate Gets(a: Wire, b: Wire, frames: seq<Down>, closes: bool) {
    b == a.(down := if a.closed then a.down else a.down + frames, closed := a.closed || closes)
  }

  /** Some guest is online on stream `s`. */
  predicate Hears(members: map<Id, Member>, s: Id) {
    exists id :: id in members && members[id].role == Guest && members[id].status == Online
                 && members[id].stream == Some(s)
  }

  /** Event `e` was appended, and written to every guest that is online afterwards, and to nobody else. */
  ghost predicate Announces(h: Host, k: Host, e: Event) {
    && k.log == h.log + [e] && e.number == |h.log| + 1 && k.wires.Keys == h.wires.Keys
    && forall s :: s in h.wires ==>
         Gets(h.wires[s], k.wires[s], if Hears(k.members, s) then [RoomEvent(e)] else [], false)
  }

  lemma CommitAnnounces(h: Host, body: Body)
    ensures var k := Commit(h, body);
            Announces(h, k, Event(|h.log| + 1, body)) && k == h.(log := k.log, wires := k.wires)
  {
    assert forall s :: Hears(h.members, s) <==> Listening(h.members, s);
    hide Hears, Listening;
  }

  // ---- Asking to join ----

  /** A request that is taken. */
  predicate MayAsk(h: Host, cfg: Config, requestId: Id, token: Id, wellFormed: bool) {
    && wellFormed && token == h.joinToken && !h.roomPaused && !h.joinsPaused
    && |h.members| < cfg.maxMembers && |h.pending| < cfg.maxPendingJoins && requestId !in h.pending
  }

  /** A new stream asks to join: the request becomes pending on it, or the stream is told no and closed. */
  lemma JoinAnswer(h: Host, cfg: Config, s: Id, requestId: Id, token: Id, wellFormed: bool)
    requires s !in h.wires
    ensures var k := AcceptJoinRequest(h, cfg, s, requestId, token, wellFormed);
            && s in k.wires && k.wires[s].up == [] && k.wires[s].peer == None && k.wires[s].upRead == 0
            && if MayAsk(h, cfg, requestId, token, wellFormed) then
                 && k == h.(wires := h.wires[s := k.wires[s]],
                            pending := h.pending[requestId := Pending(s, token, Waiting)])
                 && k.wires[s].down == [] && !k.wires[s].closed && k.wires[s].phase == Accepted
               else
                 && k == h.(wires := h.wires[s := k.wires[s]])
                 && k.wires[s].down == [JoinReject] && k.wires[s].closed
  {
  }

  /** The reason given is the first that holds, in this order. */
  lemma JoinReasons(h: Host, cfg: Config, requestId: Id, token: Id, wellFormed: bool)
    ensures var refusal := JoinRefusal(h, cfg, requestId, token, wellFormed);
            var named := token == h.joinToken && wellFormed;
            var open := named && !h.roomPaused && !h.joinsPaused;
            && (refusal == Some(InviteInvalid) <==> token != h.joinToken)
            && (refusal == Some(Invalid) <==> token == h.joinToken && !wellFormed)
            && (refusal == Some(Paused) <==> named && (h.roomPaused || h.joinsPaused))
            && (refusal == Some(Full) <==> open && |h.members| >= cfg.maxMembers)
            && (refusal == Some(Busy) <==> open && |h.members| < cfg.maxMembers && |h.pending| >= cfg.maxPendingJoins)
            && (refusal == Some(Refusal.Duplicate) <==>
                  && open && |h.members| < cfg.maxMembers && |h.pending| < cfg.maxPendingJoins
                  && requestId in h.pending)
            && (refusal == None <==> MayAsk(h, cfg, requestId, token, wellFormed))
  {
  }

  /** Request `r` is gone and its stream closed, having been told if `told`; nothing else changed. */
  ghost predicate Turned(h: Host, k: Host, r: Id, told: bool) {
    && r in h.pending
    && k == h.(pending := h.pending - {r}, wires := k.wires) && k.wires.Keys == h.wires.Keys
    && forall s :: s in h.wires ==>
         var own := s == h.pending[r].stream;
         Gets(h.wires[s], k.wires[s], if own && told then [JoinReject] else [], own)
  }

  lemma TurnAway(h: Host, r: Id)
    requires r in h.pending
    ensures Turned(h, RejectPending(h, r), r, true) && Turned(h, DropPending(h, r), r, false)
  {
    TurnAwayTold(h, r);
    TurnAwaySilently(h, r);
    hide RejectPending, DropPending, Turned;
  }

  lemma TurnAwayTold(h: Host, r: Id)
    requires r in h.pending
    ensures Turned(h, RejectPending(h, r), r, true)
  {
  }

  lemma TurnAwaySilently(h: Host, r: Id)
    requires r in h.pending
    ensures Turned(h, DropPending(h, r), r, false)
  {
  }

  lemma RejectAnswer(h: Host, r: Id)
    ensures var k := RejectByChoice(h, r);
            if r in h.pending && !h.pending[r].state.Committing? then Turned(h, k, r, true) else k == h
    ensures var k := DropPending(h, r);
            if r in h.pending then Turned(h, k, r, false) else k == h
  {
    hide Turned, RejectPending, DropPending;
    if r in h.pending {
      TurnAway(h, r);
    } else {
      NoRequest(h, r);
    }
  }

  lemma NoRequest(h: Host, r: Id)
    requires r !in h.pending
    ensures RejectPending(h, r) == h && DropPending(h, r) == h
  {
  }

  /** Requests that hold a seat. */
  function Holding(pending: map<Id, Pending>): set<Id> {
    set r | r in pending && pending[r].state != Waiting
  }

  /** An approval begins: the seat is held, or the request is turned away. */
  lemma BeginAnswer(h: Host, cfg: Config, r: Id, expired: bool)
    ensures var k := ApproveBegin(h, cfg, r, expired);
            if r !in h.pending || h.pending[r].state != Waiting then k == h
            else if !expired && !h.roomPaused && !h.joinsPaused && |h.members| + |Holding(h.pending)| < cfg.maxMembers
            then k == h.(pending := h.pending[r := h.pending[r].(state := Approving(h.generation))])
            else Turned(h, k, r, true)
  {
    hide Turned, RejectPending;
    if r in h.pending && h.pending[r].state == Waiting {
      TurnAway(h, r);
      var taken := h.pending[r := h.pending[r].(state := Approving(h.generation))];
      assert Reserved(taken) == Holding(h.pending) + {r};
      assert r !in Holding(h.pending);
    }
  }

  /** Nothing that forbids an admission happened since its approval began in generation `g`. */
  predicate Unchanged(h: Host, g: nat) {
    !h.closing && !h.roomPaused && !h.joinsPaused && h.generation == g
  }

  /** What the newcomer is told about the members: all of them, and itself as an online guest. */
  ghost predicate TellsRoster(roster: Roster, members: map<Id, Member>, id: Id) {
    && roster.Keys == members.Keys + {id} && roster[id] == Face(Guest, Online)
    && forall m :: m in members && m != id ==> roster[m] == Face(members[m].role, members[m].status)
  }

  /**
   * The address was checked: the stream becomes the newcomer's and carries its
   * acceptance, or the request is turned away.
   */
  lemma VerifiedAnswer(h: Host, r: Id, verified: bool, expired: bool, id: Id)
    requires r in h.pending && h.pending[r].state.Approving? && h.pending[r].stream in h.wires && id !in h.issued
    ensures var k := ApproveVerified(h, r, verified, expired, id);
            var s := h.pending[r].stream;
            if verified && !expired && Unchanged(h, h.pending[r].state.generation) then
              && k == h.(issued := h.issued + {id}, wires := h.wires[s := k.wires[s]],
                         pending := h.pending[r := h.pending[r].(
                           state := Committing(h.pending[r].state.generation, id, |h.log|))])
              && exists roster: Roster ::
                   && TellsRoster(roster, h.members, id)
                   && Gets(h.wires[s].(peer := Some(id)), k.wires[s], [JoinAccept(id, |h.log|, roster)], false)
            else Turned(h, k, r, true)
  {
    hide Turned, RejectPending;
    TurnAway(h, r);
    var roster := Faces(h.members)[id := Face(Guest, Online)];
    assert TellsRoster(roster, h.members, id);
  }

  /** The acceptance was written, or was not: the guest is a member and announced, or the request is turned away. */
  lemma AdmitAnswer(h: Host, r: Id, written: bool)
    requires r in h.pending && h.pending[r].state.Committing?
    ensures var k := ApproveCommit(h, r, written);
            var p := h.pending[r];
            var id := p.state.memberId;
            if written && Unchanged(h, p.state.generation) then
              && k == h.(members := k.members, pending := h.pending - {r}, log := k.log, wires := k.wires)
              && k.members == h.members[id := Member(Guest, Online, Some(p.stream), p.state.admissionSeq, None)]
              && Announces(h, k, Event(|h.log| + 1, Joined(id, Face(Guest, Online))))
            else Turned(h, k, r, true)
  {
    hide Turned, RejectPending, Commit, Announces;
    TurnAway(h, r);
    var p := h.pending[r];
    var newcomer := Member(Guest, Online, Some(p.stream), p.state.admissionSeq, None);
    var seated := h.(members := h.members[p.state.memberId := newcomer], pending := h.pending - {r});
    var body := Joined(p.state.memberId, Face(Guest, Online));
    CommitAnnounces(seated, body);
    AnnouncedSame(seated, h, Commit(seated, body), Event(|h.log| + 1, body));
  }

  /** Who the members were before does not matter to an announcement. */
  lemma AnnouncedSame(a: Host, h: Host, k: Host, e: Event)
    requires Announces(a, k, e) && a.log == h.log && a.wires == h.wires
    ensures Announces(h, k, e)
  {
    hide Hears;
  }

  // ---- Policy ----

  /** Exactly the requests in `gone` are revoked, and their streams closed without a word. */
  ghost predicate Revoked(h: Host, k: Host, gone: set<Id>) {
    && k.pending == h.pending - gone && k.wires.Keys == h.wires.Keys
    && forall s :: s in h.wires ==>
         Gets(h.wires[s], k.wires[s], [], exists r :: r in gone && r in h.pending && h.pending[r].stream == s)
  }

  lemma CancelAnswer(h: Host, everyone: bool)
    ensures var k := CancelPendingApprovals(h, everyone);
            && k == h.(pending := k.pending, wires := k.wires)
            && Revoked(h, k, if everyone then h.pending.Keys else Holding(h.pending))
  {
    assert Cancelled(h.pending, everyone) == if everyone then h.pending.Keys else Holding(h.pending);
  }

  /** Pausing joins: the flag, a new generation if it changed, and no seat held for anyone any more. */
  lemma PauseJoinsAnswer(h: Host, paused: bool)
    ensures var k := SetJoinsPaused(h, paused);
            && k == h.(joinsPaused := paused, generation := k.generation, pending := k.pending, wires := k.wires)
            && k.generation == h.generation + (if paused == h.joinsPaused then 0 else 1)
            && if paused then Revoked(h, k, Holding(h.pending)) else k.pending == h.pending && k.wires == h.wires
  {
    var next := h.generation + if paused == h.joinsPaused then 0 else 1;
    CancelAnswer(h.(joinsPaused := paused, generation := next), false);
    hide CancelPendingApprovals, Gets;
  }

  lemma PauseRoomAnswer(h: Host, paused: bool)
    ensures var k := SetRoomPaused(h, paused);
            && k == h.(roomPaused := paused, generation := k.generation, pending := k.pending, wires := k.wires)
            && k.generation == h.generation + (if paused == h.roomPaused then 0 else 1)
            && if paused then Revoked(h, k, Holding(h.pending)) else k.pending == h.pending && k.wires == h.wires
  {
    var next := h.generation + if paused == h.roomPaused then 0 else 1;
    CancelAnswer(h.(roomPaused := paused, generation := next), false);
    hide CancelPendingApprovals, Gets;
  }

  /** A new token: every request is revoked, and told so unless its acceptance is being written. */
  lemma RotateAnswer(cfg: Config, h: Host, token: Id)
    requires HostOk(cfg, h)
    ensures var k := RotateInvitation(h, token);
            && k == h.(joinToken := token, generation := h.generation + 1, pending := map[], wires := k.wires)
            && k.wires.Keys == h.wires.Keys
            && (forall r :: r in h.pending ==>
                  var s := h.pending[r].stream;
                  && s in h.wires
                  && Gets(h.wires[s], k.wires[s], if h.pending[r].state.Committing? then [] else [JoinReject], true))
            && (forall s :: s in h.wires && (forall r :: r in h.pending ==> h.pending[r].stream != s) ==>
                  k.wires[s] == h.wires[s])
  {
    hide LogOk, IdsOk, WiresOk, RosterMatches;
    forall r | r in h.pending
      ensures var s := h.pending[r].stream;
              && s in h.wires && StreamOf(h.pending, h.pending.Keys, s)
              && (StreamOf(h.pending, NotCommitting(h.pending), s) <==> !h.pending[r].state.Committing?)
    {
    }
    hide VoicesOk;
  }

  // ---- Members ----

  /** A guest that is online is marked away: its stream is closed, and everyone else is told. */
  lemma MarkAnswer(h: Host, id: Id)
    ensures var k := MarkReconnecting(h, id);
            if h.closing || id !in h.members || h.members[id].role != Guest || h.members[id].status != Online
            then k == h
            else
              var m := h.members[id];
              var e := Event(|h.log| + 1, State(id, Reconnecting));
              && k == h.(members := h.members[id := m.(status := Reconnecting, stream := None)], log := h.log + [e],
                         wires := k.wires)
              && k.wires.Keys == h.wires.Keys
              && forall s :: s in h.wires ==>
                   if m.stream == Some(s) then Gets(h.wires[s], k.wires[s], [], true)
                   else Gets(h.wires[s], k.wires[s], if Hears(k.members, s) then [RoomEvent(e)] else [], false)
  {
    hide Commit;
    if !h.closing && id in h.members && h.members[id].role == Guest && h.members[id].status == Online {
      var m := h.members[id];
      var shut := if m.stream.Some? then Shut(h, m.stream.value) else h;
      var gone := shut.(members := h.members[id := m.(status := Reconnecting, stream := None)]);
      CommitAnnounces(gone, State(id, Reconnecting));
    }
  }

  /** The streams of a member that is about to be removed. */
  lemma LetGo(h: Host, id: Id, notify: bool)
    requires id in h.members && (h.members[id].stream.None? || h.members[id].resume.None?)
    ensures var aborted := AbortResume(h, id);
            var m := h.members[id];
            var told := if m.stream.None? then aborted
              else Shut(if notify then Send(aborted, m.stream.value, Terminal) else aborted, m.stream.value);
            && told == h.(members := told.members, wires := told.wires) && told.wires.Keys == h.wires.Keys
            && forall s :: s in h.wires ==>
                 if m.stream == Some(s) then Gets(h.wires[s], told.wires[s], if notify then [Terminal] else [], true)
                 else if m.resume.Some? && m.resume.value.stream == s then Gets(h.wires[s], told.wires[s], [], true)
                 else told.wires[s] == h.wires[s]
  {
  }

  /** A member other than the owner is removed; its streams are closed, and everyone else is told. */
  lemma RemoveAnswer(cfg: Config, h: Host, id: Id, notify: bool)
    requires HostOk(cfg, h)
    ensures var k := RemoveMember(h, id, notify);
            if h.closing || id == h.owner || id !in h.members then k == h
            else
              var m := h.members[id];
              var e := Event(|h.log| + 1, Left(id));
              && k == h.(members := h.members - {id}, log := h.log + [e], wires := k.wires)
              && k.wires.Keys == h.wires.Keys
              && forall s :: s in h.wires ==>
                   if m.stream == Some(s) then Gets(h.wires[s], k.wires[s], if notify then [Terminal] else [], true)
                   else if m.resume.Some? && m.resume.value.stream == s then Gets(h.wires[s], k.wires[s], [], true)
                   else Gets(h.wires[s], k.wires[s], if Hears(k.members, s) then [RoomEvent(e)] else [], false)
  {
    hide HostOk, Commit, Hears, AbortResume, Send, Shut, Gets;
    if !h.closing && id != h.owner && id in h.members {
      var m := h.members[id];
      OneOrTheOther(cfg, h, id);
      LetGo(h, id, notify);
      var aborted := AbortResume(h, id);
      var told := if m.stream.None? then aborted
        else Shut(if notify then Send(aborted, m.stream.value, Terminal) else aborted, m.stream.value);
      var gone := told.(members := h.members - {id});
      CommitAnnounces(gone, Left(id));
      var e := Event(|h.log| + 1, Left(id));
      var k := Commit(gone, Left(id));
      forall s | s in h.wires
        ensures if m.stream == Some(s) then Gets(h.wires[s], k.wires[s], if notify then [Terminal] else [], true)
                else if m.resume.Some? && m.resume.value.stream == s then Gets(h.wires[s], k.wires[s], [], true)
                else Gets(h.wires[s], k.wires[s], if Hears(k.members, s) then [RoomEvent(e)] else [], false)
      {
        if m.stream == Some(s) || (m.resume.Some? && m.resume.value.stream == s) {
          ClosedGetsNoMore(h.wires[s], told.wires[s], k.wires[s],
                           if m.stream == Some(s) && notify then [Terminal] else [],
                           if Hears(k.members, s) then [RoomEvent(e)] else []);
        }
      }
    }
  }

  lemma OneOrTheOther(cfg: Config, h: Host, id: Id)
    requires HostOk(cfg, h) && id in h.members
    ensures h.members[id].stream.None? || h.members[id].resume.None?
  {
    assert MemberOk(h, id, h.members[id]);
  }

  lemma ClosedGetsNoMore(a: Wire, b: Wire, c: Wire, frames: seq<Down>, more: seq<Down>)
    requires Gets(a, b, frames, true) && Gets(b, c, more, false)
    ensures Gets(a, c, frames, true)
  {
  }

  // ---- Resuming ----

  /** The resume that stream `w` asks for is granted. */
  predicate MayResume(h: Host, w: Wire, inTime: bool) {
    && w.peer.Some? && !h.closing && w.peer.value in h.members
    && var m := h.members[w.peer.value];
       && m.role == Guest && (m.status == Online || inTime) && m.resume == None
       && m.admissionSeq <= w.claim <= |h.log|
  }

  /** What a granted resume changes. */
  ghost predicate Granted(h: Host, k: Host, s: Id)
    requires s in h.wires && h.wires[s].peer.Some? && h.wires[s].peer.value in h.members
  {
    var w := h.wires[s];
    var id := w.peer.value;
    var m := h.members[id];
    var e := Event(|h.log| + 1, State(id, Reconnecting));
    && k == h.(members := k.members, log := k.log, wires := k.wires) && k.wires.Keys == h.wires.Keys
    && k.members == h.members[id := Member(Guest, Reconnecting, None, m.admissionSeq, Some(Resume(s, w.claim, [])))]
    && k.log == (if m.status == Online then h.log + [e] else h.log)
    && Gets(w.(phase := Accepted, base := |k.log|), k.wires[s], [ResumeAccept(|k.log|)], false)
    && (forall t :: t in h.wires && t != s ==>
          if m.stream == Some(t) then Gets(h.wires[t], k.wires[t], [], true)
          else Gets(h.wires[t], k.wires[t], if m.status == Online && Hears(k.members, t) then [RoomEvent(e)] else [],
                    false))
  }

  /**
   * A resume is granted to a guest that is online, or away but in time, if no
   * other resume of it is under way and it claims a number between its
   * admission and the end of the log: the stream is its own from then on and
   * carries the grant, and the stream it was online on, if any, is given up.
   */
  lemma ResumeGranted(cfg: Config, h: Host, s: Id, inTime: bool)
    requires HostOk(cfg, h) && s in h.wires && h.wires[s].phase == Fresh && MayResume(h, h.wires[s], inTime)
    ensures Granted(h, AcceptResume(h, s, inTime), s)
  {
    var id := h.wires[s].peer.value;
    assert MemberOk(h, id, h.members[id]);
    FreshUnused(cfg, h, s);
    assert !Hears(h.members, s);
    hide HostOk, Granted;
    if h.members[id].status == Online {
      GrantedOnline(h, s, inTime);
    } else {
      GrantedAway(h, s, inTime);
    }
  }

  lemma GrantedAway(h: Host, s: Id, inTime: bool)
    requires s in h.wires && h.wires[s].phase == Fresh && MayResume(h, h.wires[s], inTime)
    requires h.members[h.wires[s].peer.value].status == Reconnecting && h.members[h.wires[s].peer.value].stream == None
    ensures Granted(h, AcceptResume(h, s, inTime), s)
  {
    hide Hears, Commit;
  }

  lemma GrantedOnline(h: Host, s: Id, inTime: bool)
    requires s in h.wires && h.wires[s].phase == Fresh && MayResume(h, h.wires[s], inTime)
    requires h.members[h.wires[s].peer.value].status == Online
    requires !Hears(h.members, s) && h.members[h.wires[s].peer.value].stream != Some(s)
    ensures Granted(h, AcceptResume(h, s, inTime), s)
  {
    hide MarkReconnecting, Hears, Gets, Write;
    var w := h.wires[s];
    var id := w.peer.value;
    MarkAnswer(h, id);
    var marked := MarkReconnecting(h, id);
    FewerHearers(h.members, marked.members, s);
    NothingGot(w, marked.wires[s]);
    var members := marked.members[id := marked.members[id].(resume := Some(Resume(s, w.claim, [])))];
    SameHearers(marked.members, members);
    GrantWritten(w, |marked.log|);
  }

  lemma NothingGot(a: Wire, b: Wire)
    requires Gets(a, b, [], false)
    ensures a == b
  {
    assert a.down + [] == a.down;
  }

  lemma GrantWritten(w: Wire, number: nat)
    ensures var a := w.(phase := Accepted, base := number);
            Gets(a, Write(a, ResumeAccept(number)), [ResumeAccept(number)], false)
  {
  }

  lemma SameHearers(a: map<Id, Member>, b: map<Id, Member>)
    requires a.Keys == b.Keys
    requires forall id :: id in a ==> b[id] == a[id].(resume := b[id].resume)
    ensures forall t :: Hears(a, t) <==> Hears(b, t)
  {
  }

  lemma FewerHearers(a: map<Id, Member>, b: map<Id, Member>, s: Id)
    requires !Hears(a, s) && forall id :: id in b ==> id in a && (b[id] == a[id] || b[id].stream == None)
    ensures !Hears(b, s)
  {
  }

  /** Otherwise the stream is told no and closed, and nothing else changes. */
  lemma ResumeRefused(cfg: Config, h: Host, s: Id, inTime: bool)
    requires HostOk(cfg, h) && s in h.wires && h.wires[s].phase == Fresh && !MayResume(h, h.wires[s], inTime)
    ensures var k := AcceptResume(h, s, inTime);
            && k == h.(wires := h.wires[s := k.wires[s]]) && s in k.wires
            && k.wires[s] == h.wires[s].(phase := Refused, down := [ResumeReject], closed := true)
  {
    assert WireOk(h.wires[s], h.owner, h.log);
    assert [] + [ResumeReject] == [ResumeReject];
    hide HostOk, MarkReconnecting;
  }

  /** What an away member's stream is sent next, and how far its resume then is. */
  ghost predicate Sends(h: Host, k: Host, id: Id, f: Down, r: Resume) {
    && id in h.members && r.stream in h.wires
    && k == h.(members := h.members[id := h.members[id].(resume := Some(r))],
               wires := h.wires[r.stream := h.wires[r.stream].(down := h.wires[r.stream].down + [f])])
  }

  ghost predicate AllFaces(roster: Roster, members: map<Id, Member>) {
    roster.Keys == members.Keys && forall m :: m in members ==> roster[m] == Face(members[m].role, members[m].status)
  }

  /** A turn of the catch-up loop that fails: the attempt is given up, and its stream closed. */
  lemma ContinueFails(cfg: Config, h: Host, id: Id, ok: bool)
    requires HostOk(cfg, h) && id in h.members && h.members[id].resume.Some?
    requires !ok || h.closing || h.wires[h.members[id].resume.value.stream].closed
    ensures var k := ContinueResume(h, cfg, id, ok);
            var s := h.members[id].resume.value.stream;
            && s in h.wires
            && k == h.(members := h.members[id := h.members[id].(resume := None)],
                       wires := h.wires[s := h.wires[s].(closed := true)])
  {
    assert MemberOk(h, id, h.members[id]);
    hide HostOk, After;
  }

  /** A turn that goes on: the next event of the batch, a fresh batch, or a resync. */
  lemma ContinueSends(cfg: Config, h: Host, id: Id)
    requires HostOk(cfg, h) && GoodConfig(cfg) && id in h.members && h.members[id].resume.Some? && !h.closing
    requires !h.wires[h.members[id].resume.value.stream].closed
    requires h.members[id].resume.value.rest != [] || h.members[id].resume.value.cursor < |h.log|
    ensures var k := ContinueResume(h, cfg, id, true);
            var r := h.members[id].resume.value;
            if r.rest != [] then Sends(h, k, id, RoomEvent(r.rest[0]), Resume(r.stream, r.cursor + 1, r.rest[1..]))
            else if Fits(cfg, h.log, r.cursor)
            then Sends(h, k, id, RoomEvent(h.log[r.cursor]), Resume(r.stream, r.cursor + 1, h.log[r.cursor + 1..]))
            else exists roster :: AllFaces(roster, h.members)
                                  && Sends(h, k, id, Resync(|h.log|, roster), Resume(r.stream, |h.log|, []))
  {
    hide HostOk, After, Commit, Fits, Sends, AllFaces, ContinueResume, GoodConfig;
    var r := h.members[id].resume.value;
    ResumeNumbers(cfg, h, id);
    if r.rest != [] {
      SendsRest(cfg, h, id);
    } else {
      BatchOrResync(cfg, h, id);
    }
  }

  lemma ResumeNumbers(cfg: Config, h: Host, id: Id)
    requires HostOk(cfg, h) && id in h.members && h.members[id].resume.Some?
    ensures var r := h.members[id].resume.value;
            && r.stream in h.wires && r.cursor <= |h.log|
            && (r.rest != [] ==> r.rest[0].number == r.cursor + 1)
            && (r.cursor < |h.log| ==> h.log[r.cursor].number == r.cursor + 1)
  {
    assert MemberOk(h, id, h.members[id]);
    BatchNumbers(cfg, h, h.members[id].resume.value);
  }

  lemma SendsRest(cfg: Config, h: Host, id: Id)
    requires id in h.members && h.members[id].resume.Some? && !h.closing
    requires var r := h.members[id].resume.value;
             r.stream in h.wires && !h.wires[r.stream].closed && r.rest != [] && r.rest[0].number == r.cursor + 1
    ensures var r := h.members[id].resume.value;
            Sends(h, ContinueResume(h, cfg, id, true), id, RoomEvent(r.rest[0]),
                  Resume(r.stream, r.cursor + 1, r.rest[1..]))
  {
    hide After;
  }

  lemma BatchOrResync(cfg: Config, h: Host, id: Id)
    requires GoodConfig(cfg) && id in h.members && h.members[id].resume.Some? && !h.closing
    requires var r := h.members[id].resume.value;
             && r.stream in h.wires && !h.wires[r.stream].closed && r.rest == [] && r.cursor < |h.log|
             && h.log[r.cursor].number == r.cursor + 1
    ensures var r := h.members[id].resume.value;
            var k := ContinueResume(h, cfg, id, true);
            if Fits(cfg, h.log, r.cursor)
            then Sends(h, k, id, RoomEvent(h.log[r.cursor]), Resume(r.stream, r.cursor + 1, h.log[r.cursor + 1..]))
            else exists roster :: AllFaces(roster, h.members)
                                  && Sends(h, k, id, Resync(|h.log|, roster), Resume(r.stream, |h.log|, []))
  {
    var r := h.members[id].resume.value;
    AfterIsLog(cfg, h.log, r.cursor);
    hide After, Fits, GoodConfig;
    assert h.log[r.cursor..][1..] == h.log[r.cursor + 1..];
    assert AllFaces(Faces(h.members), h.members);
  }

  /** A turn with nothing left to send: the member is online on the stream, and announced. */
  lemma ContinueActivates(cfg: Config, h: Host, id: Id)
    requires HostOk(cfg, h) && id in h.members && h.members[id].resume.Some? && !h.closing
    requires !h.wires[h.members[id].resume.value.stream].closed
    requires h.members[id].resume.value.rest == [] && h.members[id].resume.value.cursor == |h.log|
    ensures var k := ContinueResume(h, cfg, id, true);
            var m := h.members[id];
            && k == h.(members := k.members, log := k.log, wires := k.wires)
            && k.members == h.members[id := m.(status := Online, stream := Some(m.resume.value.stream), resume := None)]
            && Announces(h, k, Event(|h.log| + 1, State(id, Online)))
  {
    var m := h.members[id];
    assert MemberOk(h, id, m);
    hide HostOk, After, Commit, Announces;
    var back := m.(status := Online, stream := Some(m.resume.value.stream), resume := None);
    var on := h.(members := h.members[id := back]);
    CommitAnnounces(on, State(id, Online));
    AnnouncedSame(on, h, Commit(on, State(id, Online)), Event(|h.log| + 1, State(id, Online)));
  }

  lemma BatchNumbers(cfg: Config, h: Host, r: Resume)
    requires HostOk(cfg, h) && BatchOk(h.log, r)
    ensures r.rest != [] ==> r.rest[0].number == r.cursor + 1
    ensures r.cursor < |h.log| ==> h.log[r.cursor].number == r.cursor + 1
  {
  }

  // ---- Texts ----

  /** The stream's next frame is counted as read. */
  function ReadOne(h: Host, s: Id): Host
    requires s in h.wires
  {
    h.(wires := h.wires[s := h.wires[s].(upRead := h.wires[s].upRead + 1)])
  }

  /** Only stream `s` was written to, and only `f`. */
  ghost predicate Tells(h: Host, k: Host, s: Id, f: Down) {
    && s in h.wires && s in k.wires && k == h.(wires := h.wires[s := k.wires[s]])
    && Gets(h.wires[s], k.wires[s], [f], false)
  }

  /** A text read from an online guest while the room is paused: rejected. */
  lemma PausedTextAnswer(cfg: Config, h: Host, id: Id, s: Id, f: Submission)
    requires Speaks(h, id, s, f) && !Resuming(h.members, s) && !h.closing && h.roomPaused
    ensures Tells(ReadOne(h, s), ReadUp(h, cfg, s), s, ActionRejected(f.clientEventId))
  {
    hide Answer, Written, After, ValidText, Resuming;
  }

  /** A text that is not valid: its sender is cut off, and nothing of it is logged. */
  lemma InvalidTextAnswer(cfg: Config, h: Host, id: Id, s: Id, f: Submission)
    requires Speaks(h, id, s, f) && !Resuming(h.members, s) && !h.closing && !h.roomPaused && !ValidText(cfg, f.text)
    ensures var k := ReadUp(h, cfg, s);
            && k.members == h.members[id := h.members[id].(status := Reconnecting, stream := None)]
            && k.log == h.log + [Event(|h.log| + 1, State(id, Reconnecting))] && s in k.wires && k.wires[s].closed
  {
    hide Answer, Written, After, ValidText, Resuming, MarkReconnecting, Gets;
    MarkAnswer(ReadOne(h, s), id);
    assert Gets(ReadOne(h, s).wires[s], MarkReconnecting(ReadOne(h, s), id).wires[s], [], true);
    ClosedByGets(ReadOne(h, s).wires[s], MarkReconnecting(ReadOne(h, s), id).wires[s]);
  }

  lemma ClosedByGets(a: Wire, b: Wire)
    requires Gets(a, b, [], true)
    ensures b.closed
  {
  }

  /** A text whose id is remembered: answered with the event that carries it, if it can still be replayed. */
  lemma KnownTextAnswer(cfg: Config, h: Host, id: Id, s: Id, f: Submission, i: nat)
    requires GoodConfig(cfg) && HostOk(cfg, h) && Speaks(h, id, s, f) && !Resuming(h.members, s)
    requires !h.closing && !h.roomPaused && ValidText(cfg, f.text)
    requires i < |Written(h.log, id)| && LastOf(Written(h.log, id), i, f.clientEventId)
    requires |AfterIds(Written(h.log, id), i)| < cfg.dedupeMaxItems
    ensures var p := Written(h.log, id)[i].number;
            && 1 <= p <= |h.log| && IsEntry(h.log[p - 1].body, id, f.clientEventId)
            && Tells(ReadOne(h, s), ReadUp(h, cfg, s), s,
                     if Fits(cfg, h.log, p - 1) then RoomEvent(h.log[p - 1]) else ActionRejected(f.clientEventId))
  {
    hide Written, Tells, ReadUp, Speaks, Resuming, ValidText, Fits, Answer;
    var wr := Written(h.log, id);
    LogNumbered(cfg, h);
    WrittenIsLog(h.log, id);
    AnswerMeans(wr, cfg.dedupeMaxItems, f.clientEventId);
    hide HostOk;
    KnownRead(cfg, h, id, s, f, wr[i].number);
  }

  lemma LogNumbered(cfg: Config, h: Host)
    requires HostOk(cfg, h)
    ensures Numbered(h.log)
  {
  }

  lemma KnownRead(cfg: Config, h: Host, id: Id, s: Id, f: Submission, p: nat)
    requires GoodConfig(cfg) && Speaks(h, id, s, f) && !Resuming(h.members, s)
    requires !h.closing && !h.roomPaused && ValidText(cfg, f.text) && 1 <= p <= |h.log|
    requires Answer(Written(h.log, id), cfg.dedupeMaxItems, f.clientEventId) == Some(p)
    ensures Tells(ReadOne(h, s), ReadUp(h, cfg, s), s,
                  if Fits(cfg, h.log, p - 1) then RoomEvent(h.log[p - 1]) else ActionRejected(f.clientEventId))
  {
    hide GoodConfig, Answer, Written, ValidText, Resuming, Fits, Tells, SubmitText;
    assert ReadUp(h, cfg, s) == SubmitText(ReadOne(h, s), cfg, id, s, f);
    SubmitKnown(cfg, ReadOne(h, s), id, s, f, p);
  }

  lemma SubmitKnown(cfg: Config, h: Host, id: Id, s: Id, f: Submission, p: nat)
    requires GoodConfig(cfg) && s in h.wires && !h.roomPaused && ValidText(cfg, f.text) && 1 <= p <= |h.log|
    requires Answer(Written(h.log, id), cfg.dedupeMaxItems, f.clientEventId) == Some(p)
    ensures Tells(h, SubmitText(h, cfg, id, s, f), s,
                  if Fits(cfg, h.log, p - 1) then RoomEvent(h.log[p - 1]) else ActionRejected(f.clientEventId))
  {
    hide GoodConfig, Answer, Written, ValidText, Fits, After;
    KeptIffFits(cfg, h.log, p - 1);
  }

  lemma KeptIffFits(cfg: Config, log: seq<Event>, number: nat)
    requires GoodConfig(cfg) && number < |log|
    ensures After(cfg, log, number).Some? <==> Fits(cfg, log, number)
  {
    AfterIsLog(cfg, log, number);
    hide GoodConfig, Fits, After;
  }

  /** A text whose id is not remembered: appended, and written to every online guest. */
  lemma NewTextAnswer(cfg: Config, h: Host, id: Id, s: Id, f: Submission)
    requires Speaks(h, id, s, f) && !Resuming(h.members, s) && Takeable(cfg, h, id, f)
    ensures var k := ReadUp(h, cfg, s);
            && k == h.(log := k.log, wires := k.wires)
            && Announces(ReadOne(h, s), k, Event(|h.log| + 1, Text(id, f.clientEventId, f.text)))
  {
    AnswerMeans(Written(h.log, id), cfg.dedupeMaxItems, f.clientEventId);
    hide Answer, Written, After, ValidText, Resuming, Commit, Announces, Remembered;
    CommitAnnounces(ReadOne(h, s), Text(id, f.clientEventId, f.text));
  }

  /** The owner's own text: appended and announced if the room is open for it, otherwise nothing happens. */
  lemma OwnerTextAnswer(cfg: Config, h: Host, f: Submission)
    ensures var k := OwnerText(h, cfg, f);
            if Takeable(cfg, h, h.owner, f) then
              && k == h.(log := k.log, wires := k.wires)
              && Announces(h, k, Event(|h.log| + 1, Text(h.owner, f.clientEventId, f.text)))
            else k == h
  {
    AnswerMeans(Written(h.log, h.owner), cfg.dedupeMaxItems, f.clientEventId);
    hide Answer, Written, ValidText, Commit, Announces, Remembered;
    CommitAnnounces(h, Text(h.owner, f.clientEventId, f.text));
  }

  /** What the owner gets back for its own text: its event if it is in the log and known, or nothing. */
  ghost predicate SendsBack(cfg: Config, h: Host, f: Submission, event: Option<Event>) {
    var wr := Written(h.log, h.owner);
    if h.closing || h.roomPaused || !ValidText(cfg, f.text) then event == None
    else if !Remembered(wr, cfg.dedupeMaxItems, f.clientEventId)
    then event == Some(Event(|h.log| + 1, Text(h.owner, f.clientEventId, f.text)))
    else
      forall i :: 0 <= i < |wr| && LastOf(wr, i, f.clientEventId) ==>
        && 1 <= wr[i].number <= |h.log| && IsEntry(h.log[wr[i].number - 1].body, h.owner, f.clientEventId)
        && event == if Fits(cfg, h.log, wr[i].number - 1) then Some(h.log[wr[i].number - 1]) else None
  }

  lemma SentBack(cfg: Config, h: Host, f: Submission, event: Option<Event>)
    requires HostOk(cfg, h) && GoodConfig(cfg)
    requires !h.closing && !h.roomPaused && ValidText(cfg, f.text)
    requires var prior := Answer(Written(h.log, h.owner), cfg.dedupeMaxItems, f.clientEventId);
             event == if prior.None? then Some(Event(|h.log| + 1, Text(h.owner, f.clientEventId, f.text)))
               else if 1 <= prior.value <= |h.log| && After(cfg, h.log, prior.value - 1).Some?
               then Some(h.log[prior.value - 1]) else None
    ensures SendsBack(cfg, h, f, event)
  {
    hide HostOk, GoodConfig, Answer, Written, ValidText, Remembered, After, Fits, LastOf, IsEntry;
    var wr := Written(h.log, h.owner);
    EntriesAreTexts(cfg, h, h.owner);
    AnswerMeans(wr, cfg.dedupeMaxItems, f.clientEventId);
    forall i | 0 <= i < |wr| && LastOf(wr, i, f.clientEventId) && Remembered(wr, cfg.dedupeMaxItems, f.clientEventId)
      ensures 1 <= wr[i].number <= |h.log| && IsEntry(h.log[wr[i].number - 1].body, h.owner, f.clientEventId)
      ensures event == if Fits(cfg, h.log, wr[i].number - 1) then Some(h.log[wr[i].number - 1]) else None
    {
      assert wr[i].id == f.clientEventId by { LastOfIs(wr, i, f.clientEventId); }
      KeptIffFits(cfg, h.log, wr[i].number - 1);
    }
  }

  lemma LastOfIs(wr: seq<Entry>, i: nat, id: Id)
    requires i < |wr| && LastOf(wr, i, id)
    ensures wr[i].id == id
  {
  }

  lemma EntriesAreTexts(cfg: Config, h: Host, m: Id)
    requires HostOk(cfg, h)
    ensures var wr := Written(h.log, m);
            forall i :: 0 <= i < |wr| ==>
              1 <= wr[i].number <= |h.log| && IsEntry(h.log[wr[i].number - 1].body, m, wr[i].id)
  {
    LogNumbered(cfg, h);
    WrittenIsLog(h.log, m);
    hide HostOk, Written;
  }

  // ---- Other frames ----

  /** A guest leaves: it is removed without being told. */
  lemma LeaveAnswer(cfg: Config, h: Host, id: Id, s: Id)
    requires HostOk(cfg, h) && s in h.wires && h.wires[s].peer == Some(id) && id in h.members
    requires Voice(h.members[id], s) && !Resuming(h.members, s) && !h.closing
    requires h.wires[s].upRead < |h.wires[s].up| && h.wires[s].up[h.wires[s].upRead] == Leave
    ensures var k := ReadUp(h, cfg, s);
            && k.members == h.members - {id} && k.log == h.log + [Event(|h.log| + 1, Left(id))]
            && s in k.wires && k.wires[s].closed && k.wires[s].down == h.wires[s].down
  {
    hide HostOk, RemoveMember, Resuming, Hears, ReadUp;
    GuestSpeaks(cfg, h, id, s);
    CountedOk(cfg, h, s);
    LeaveIs(cfg, h, id, s);
    LeftFrom(cfg, ReadOne(h, s), id, s);
  }

  lemma GuestSpeaks(cfg: Config, h: Host, id: Id, s: Id)
    requires HostOk(cfg, h) && id in h.members && Voice(h.members[id], s)
    ensures id != h.owner
  {
    assert MemberOk(h, id, h.members[id]);
  }

  lemma LeaveIs(cfg: Config, h: Host, id: Id, s: Id)
    requires s in h.wires && h.wires[s].peer == Some(id) && id in h.members
    requires Voice(h.members[id], s) && !Resuming(h.members, s) && !h.closing
    requires h.wires[s].upRead < |h.wires[s].up| && h.wires[s].up[h.wires[s].upRead] == Leave
    ensures ReadUp(h, cfg, s) == RemoveMember(ReadOne(h, s), id, false)
  {
    hide RemoveMember, Resuming;
  }

  lemma LeftFrom(cfg: Config, h: Host, id: Id, s: Id)
    requires HostOk(cfg, h) && id in h.members && h.members[id].stream == Some(s) && s in h.wires
    requires id != h.owner && !h.closing
    ensures var k := RemoveMember(h, id, false);
            && k.members == h.members - {id} && k.log == h.log + [Event(|h.log| + 1, Left(id))]
            && s in k.wires && k.wires[s].closed && k.wires[s].down == h.wires[s].down
  {
    hide RemoveMember, Hears, HostOk;
    RemoveAnswer(cfg, h, id, false);
    assert h.wires[s].down + [] == h.wires[s].down;
  }

  /** Any other frame is only counted: a room that closes, and a stream that is nobody's, are not acted on. */
  lemma IgnoredAnswer(cfg: Config, h: Host, s: Id)
    requires Readable(h, s) && PendingOn(h, s) == {}
    requires h.closing || h.wires[s].peer.None? || h.wires[s].peer.value !in h.members
             || h.members[h.wires[s].peer.value].status != Online || h.members[h.wires[s].peer.value].stream != Some(s)
    ensures ReadUp(h, cfg, s) == ReadOne(h, s)
  {
    hide SubmitText, RemoveMember, Resuming;
  }

  /** A frame on a request's stream ends the request. */
  lemma RequestFrameAnswer(cfg: Config, h: Host, r: Id)
    requires HostOk(cfg, h) && r in h.pending
    ensures var s := h.pending[r].stream;
            s in h.wires && (h.wires[s].upRead < |h.wires[s].up| ==>
              Turned(ReadOne(h, s), ReadUp(h, cfg, s), r, false))
  {
    var s := h.pending[r].stream;
    if h.wires[s].upRead < |h.wires[s].up| {
      PendingIsMute(cfg, h, r);
      hide HostOk, DropPending, Turned, Voice, Resuming;
      TurnAway(ReadOne(h, s), r);
      assert r in PendingOn(h, s);
      var q :| q in PendingOn(h, s) && ReadUp(h, cfg, s) == DropPending(ReadOne(h, s), q);
      assert q == r;
    }
  }

  lemma PendingIsMute(cfg: Config, h: Host, r: Id)
    requires HostOk(cfg, h) && r in h.pending
    ensures var s := h.pending[r].stream;
            && s in h.wires && !Resuming(h.members, s)
            && (h.wires[s].peer.Some? ==> h.wires[s].peer.value !in h.members)
            && (forall q :: q in PendingOn(h, s) ==> q == r)
  {
    var s := h.pending[r].stream;
    forall id | id in h.members && h.members[id].resume.Some?
      ensures h.members[id].resume.value.stream != s
    {
      assert MemberOk(h, id, h.members[id]);
    }
  }

  // ---- Closing ----

  /** Closing: nothing is pending or resuming any more, and every online guest is told. */
  lemma CloseAnswer(cfg: Config, h: Host)
    requires HostOk(cfg, h) && !h.closing
    ensures var k := CloseRoom(h);
            && k == h.(closing := true, roomPaused := true, joinsPaused := true, generation := h.generation + 1,
                       pending := map[], members := k.members, wires := k.wires)
            && k.members.Keys == h.members.Keys && k.wires.Keys == h.wires.Keys
            && (forall id :: id in h.members ==> k.members[id] == h.members[id].(resume := None))
            && (forall s :: s in h.wires ==>
                  Gets(h.wires[s], k.wires[s], if Hears(h.members, s) then [Terminal] else [],
                       (exists r :: r in h.pending && h.pending[r].stream == s) || Resuming(h.members, s)))
  {
    forall s | s in h.wires
      ensures Gets(h.wires[s], CloseRoom(h).wires[s], if Hears(h.members, s) then [Terminal] else [],
                   (exists r :: r in h.pending && h.pending[r].stream == s) || Resuming(h.members, s))
    {
      HearersApart(cfg, h, s);
      ClosedWire(h, s);
      hide HostOk, CloseRoom;
    }
    ClosedRest(h);
    hide HostOk, CloseRoom, Hears, Gets;
  }

  lemma ClosedWire(h: Host, s: Id)
    requires s in h.wires && !h.closing
    ensures s in CloseRoom(h).wires
    ensures var asked := exists r :: r in h.pending && h.pending[r].stream == s;
            var w := h.wires[s].(closed := h.wires[s].closed || asked);
            CloseRoom(h).wires[s]
              == if Listening(h.members, s) then Write(w, Terminal)
                 else if Resuming(h.members, s) then w.(closed := true)
                 else w
  {
    assert Cancelled(h.pending, true) == h.pending.Keys;
    assert StreamOf(h.pending, h.pending.Keys, s) <==> exists r :: r in h.pending && h.pending[r].stream == s;
    hide Listening, Resuming, StreamOf, Write;
  }

  lemma ClosedRest(h: Host)
    requires !h.closing
    ensures var k := CloseRoom(h);
            && k == h.(closing := true, roomPaused := true, joinsPaused := true, generation := h.generation + 1,
                       pending := map[], members := k.members, wires := k.wires)
            && k.members.Keys == h.members.Keys && k.wires.Keys == h.wires.Keys
            && (forall id :: id in h.members ==> k.members[id] == h.members[id].(resume := None))
  {
    hide Listening, Resuming, StreamOf, Write;
    assert Cancelled(h.pending, true) == h.pending.Keys;
    assert h.pending - h.pending.Keys == map[];
  }

  /** A stream some guest is online on belongs to no request and to no resume. */
  lemma HearersApart(cfg: Config, h: Host, s: Id)
    requires HostOk(cfg, h)
    ensures Hears(h.members, s) <==> Listening(h.members, s)
    ensures Hears(h.members, s) ==> !Resuming(h.members, s) && forall r :: r in h.pending ==> h.pending[r].stream != s
  {
    if Hears(h.members, s) {
      var id :| id in h.members && h.members[id].role == Guest && h.members[id].status == Online
                && h.members[id].stream == Some(s);
      assert MemberOk(h, id, h.members[id]);
      assert Voice(h.members[id], s);
      forall x | x in h.members && h.members[x].resume.Some?
        ensures h.members[x].resume.value.stream != s
      {
        assert MemberOk(h, x, h.members[x]);
      }
    }
  }
}
