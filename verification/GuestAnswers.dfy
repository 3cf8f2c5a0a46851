/**
 * What a guest does with each frame, and on its own account: when it acts,
 * what exactly it then changes and writes, and that otherwise nothing happens.
 */
module GuestAnswers {
  import opened Basics
  import opened RoomTypes
  import opened RoomHost
  import opened RoomNode
  import opened RoomSystem
  import opened RoomTexts

  // ---- Frames from the owner ----

  /** A guest takes the next event if its sender, or the member whose state it is, is in its roster. */
  predicate Sensible(cfg: Config, members: Roster, body: Body) {
    match body
    case Text(sender, _, text) => sender in members && ValidText(cfg, text)
    case State(id, _) => id in members
    case Joined(_, _) => true
    case Left(_) => true
  }

  /** The roster after an event: one face set, changed or removed, everyone else as before. */
  ghost predicate RosterMoves(before: Roster, after: Roster, body: Body) {
    match body
    case Text(_, _, _) => after == before
    case Joined(id, face) => after.Keys == before.Keys + {id} && after[id] == face && SameElsewhere(before, after, id)
    case Left(id) => after.Keys == before.Keys - {id} && SameElsewhere(before, after, id)
    case State(id, status) =>
      && id in before && after.Keys == before.Keys && after[id] == Face(before[id].role, status)
      && SameElsewhere(before, after, id)
  }

  ghost predicate SameElsewhere(before: Roster, after: Roster, id: Id) {
    forall m :: m != id && m in before && m in after ==> after[m] == before[m]
  }

  /** The text under `id`, if it is pending, is taken out, and the others stay in their order. */
  ghost predicate TakenOut(before: seq<Submission>, after: seq<Submission>, id: Id) {
    if id in IdsOf(before)
    then exists k :: 0 <= k < |before| && before[k].clientEventId == id && after == before[..k] + before[k + 1..]
    else after == before
  }

  lemma {:induction false} DropAbsent(pending: seq<Submission>, id: Id)
    requires id !in IdsOf(pending)
    ensures Drop(pending, id) == pending
  {
    if pending != [] {
      IdsCons(pending);
      DropAbsent(pending[1..], id);
    }
  }

  lemma {:induction false} DropAt(pending: seq<Submission>, k: nat)
    requires DistinctSubmissions(pending) && k < |pending|
    ensures Drop(pending, pending[k].clientEventId) == pending[..k] + pending[k + 1..]
  {
    RestDistinct(pending);
    var rest := pending[1..];
    hide DistinctSubmissions, IdsOf;
    if k == 0 {
      DropAbsent(rest, pending[0].clientEventId);
    } else {
      DropAt(rest, k - 1);
      assert pending[0].clientEventId != rest[k - 1].clientEventId by { InIds(rest, k - 1); }
      assert pending[..k] + pending[k + 1..] == [pending[0]] + (rest[..k - 1] + rest[k..]);
    }
  }

  lemma InIds(pending: seq<Submission>, k: nat)
    requires k < |pending|
    ensures pending[k].clientEventId in IdsOf(pending)
  {
  }

  lemma DropTakesOut(pending: seq<Submission>, id: Id)
    requires DistinctSubmissions(pending)
    ensures TakenOut(pending, Drop(pending, id), id)
  {
    if id in IdsOf(pending) {
      var k :| 0 <= k < |pending| && pending[k].clientEventId == id;
      DropAt(pending, k);
    } else {
      DropAbsent(pending, id);
    }
    hide Drop, DistinctSubmissions;
  }

  /** An event the guest is past changes nothing; one that is not the next, or not sensible, ends the reading. */
  lemma OddEventAnswer(cfg: Config, n: Node, e: Event)
    ensures e.number <= n.lastSeq ==> TakeFrame(cfg, n, RoomEvent(e)) == n
    ensures e.number > n.lastSeq + 1 || (e.number == n.lastSeq + 1 && !Sensible(cfg, n.members, e.body)) ==>
      TakeFrame(cfg, n, RoomEvent(e)) == n.(reading := false, recovering := true)
  {
    hide ValidText;
  }

  /** The next event is applied: number, history, roster, and the guest's own text is no longer pending. */
  lemma NextEventAnswer(cfg: Config, n: Node, e: Event)
    requires e.number == n.lastSeq + 1 && Sensible(cfg, n.members, e.body) && DistinctSubmissions(n.pending)
    ensures var a := TakeFrame(cfg, n, RoomEvent(e));
            && a == n.(lastSeq := e.number, heard := n.heard + [Applied(e)], members := a.members, pending := a.pending)
            && RosterMoves(n.members, a.members, e.body)
            && if e.body.Text? && e.body.senderId == n.id then TakenOut(n.pending, a.pending, e.body.clientEventId)
               else a.pending == n.pending
  {
    hide ValidText, TakenOut, Drop;
    if e.body.Text? {
      DropTakesOut(n.pending, e.body.clientEventId);
    }
  }

  /** A resync is obeyed; one that leaves out the owner or the guest ends the reading. */
  lemma ResyncAnswer(cfg: Config, n: Node, number: nat, roster: Roster)
    ensures var a := TakeFrame(cfg, n, Resync(number, roster));
            var jumped := n.(lastSeq := number, heard := n.heard + [Jumped(n.lastSeq, number)]);
            a == if n.owner in roster && n.id in roster then jumped.(members := roster)
                 else jumped.(reading := false, recovering := true)
  {
  }

  /** A rejection takes the text out, and nothing else. */
  lemma RejectionAnswer(cfg: Config, n: Node, id: Id)
    requires DistinctSubmissions(n.pending)
    ensures var a := TakeFrame(cfg, n, ActionRejected(id));
            a == n.(pending := a.pending) && TakenOut(n.pending, a.pending, id)
  {
    hide TakenOut, Drop;
    DropTakesOut(n.pending, id);
  }

  /** A room that closes, or a removal, ends the guest: it neither reads nor recovers. */
  lemma TerminalAnswer(cfg: Config, n: Node)
    ensures var a := TakeFrame(cfg, n, Terminal);
            && !a.active && !a.reading && a.attempt == None && a.recovering == n.recovering
            && a.pending == n.pending && a.lastSeq == n.lastSeq && a.members == n.members
  {
  }

  lemma GuestStepKeepsGone(cfg: Config, room: Room, step: Step, id: Id)
    requires id in room.guests && !room.guests[id].active
    ensures var after := Do(cfg, room, step);
            && id in after.guests && after.guests[id] == room.guests[id]
            && (ByGuest(step) && step.memberId == id ==> after == room)
  {
    hide TakeFrame, ValidText, HostStep;
  }

  /** For good: in every run, a guest that ended changes nothing any more, and is not changed. */
  lemma {:induction false} EndedForGood(cfg: Config, owner: Id, token: Id, rooms: seq<Room>, steps: seq<Step>,
                                        i: nat, j: nat, id: Id)
    requires Run(cfg, owner, token, rooms, steps) && i <= j < |rooms|
    requires id in rooms[i].guests && !rooms[i].guests[id].active
    ensures id in rooms[j].guests && rooms[j].guests[id] == rooms[i].guests[id]
    ensures j < |steps| && ByGuest(steps[j]) && steps[j].memberId == id ==> rooms[j + 1] == rooms[j]
    decreases j
  {
    hide Do;
    if i < j {
      EndedForGood(cfg, owner, token, rooms, steps, i, j - 1, id);
      assert rooms[j - 1 + 1] == Do(cfg, rooms[j - 1], steps[j - 1]);
      GuestStepKeepsGone(cfg, rooms[j - 1], steps[j - 1], id);
    }
    if j < |steps| {
      assert rooms[j + 1] == Do(cfg, rooms[j], steps[j]);
      GuestStepKeepsGone(cfg, rooms[j], steps[j], id);
    }
  }

  // ---- On its own account ----

  /** Guest `id` is `n` afterwards, and wrote `frame`, if any, to stream `s`; nothing else changed. */
  ghost predicate Acts(before: Room, after: Room, id: Id, n: Node, s: Id, frame: Option<Up>) {
    && after.guests == before.guests[id := n]
    && if frame.Some? && s in before.host.wires then
         var w := before.host.wires[s];
         after.host == before.host.(wires := before.host.wires[s := w.(up := w.up + [frame.value])])
       else after.host == before.host
  }

  /** A text is sent and kept pending if the guest is not recovering, has room, and the text is valid and new. */
  lemma SubmitAnswer(cfg: Config, room: Room, id: Id, f: Submission)
    requires id in room.guests && room.guests[id].active
    ensures var n := room.guests[id];
            var after := Do(cfg, room, GuestTexts(id, f));
            if !n.recovering && |n.pending| < cfg.sendQueueMaxFrames && f.clientEventId !in n.used
               && ValidText(cfg, f.text)
            then Acts(room, after, id, n.(pending := n.pending + [f], used := n.used + {f.clientEventId}), n.stream,
                      Some(TextSubmit(f)))
            else Acts(room, after, id, n, n.stream, None)
  {
    hide TakeFrame, ValidText, HostStep;
  }

  /** A lost stream starts a recovery; if it was the reader that failed, nothing is read from it any more. */
  lemma LossAnswer(cfg: Config, room: Room, id: Id)
    requires id in room.guests && room.guests[id].active
    ensures var n := room.guests[id];
            && Acts(room, Do(cfg, room, GuestStreamEnds(id)), id, n.(reading := false, recovering := true), 0, None)
            && Acts(room, Do(cfg, room, GuestSendFails(id)), id, n.(recovering := true), 0, None)
            && Acts(room, Do(cfg, room, GuestAbandons(id)), id, n.(attempt := None), 0, None)
  {
    hide TakeFrame, ValidText, HostStep;
  }

  /** A recovering guest without an attempt asks for a resume from its number on a new stream. */
  lemma DialAnswer(cfg: Config, room: Room, id: Id, s: Id)
    requires id in room.guests && room.guests[id].active && s !in room.host.wires
    ensures var n := room.guests[id];
            var after := Do(cfg, room, GuestDials(id, s));
            if n.recovering && n.attempt == None then
              && after.guests == room.guests[id := n.(attempt := Some(Asked(s)))]
              && after.host == room.host.(wires := room.host.wires[s := after.host.wires[s]]) && s in after.host.wires
              && after.host.wires[s] == Wire(Some(n.id), n.lastSeq, Fresh, 0, [], false, [], 0)
            else Acts(room, after, id, n, s, None)
  {
    hide TakeFrame, ValidText, HostStep;
  }

  /**
   * The first answer decides: a grant that is not behind the claim starts the
   * resending, anything else ends the attempt.
   */
  lemma GrantAnswer(cfg: Config, room: Room, id: Id, s: Id)
    requires id in room.guests && room.guests[id].active && room.guests[id].attempt == Some(Asked(s))
    requires s in room.host.wires && room.host.wires[s].down != []
    ensures var n := room.guests[id];
            var w := room.host.wires[s];
            var granted := w.down[0].ResumeAccept? && w.down[0].currentSeq >= w.claim;
            Acts(room, Do(cfg, room, GuestAnswered(id)), id,
                 n.(attempt := if granted then Some(Resubmitting(s, n.pending)) else None), s, None)
  {
    hide TakeFrame, ValidText, HostStep;
  }

  /** The pending texts are sent again one by one, in order. */
  lemma ResendAnswer(cfg: Config, room: Room, id: Id, s: Id, rest: seq<Submission>)
    requires id in room.guests && room.guests[id].active && room.guests[id].attempt == Some(Resubmitting(s, rest))
    requires rest != []
    ensures var n := room.guests[id];
            Acts(room, Do(cfg, room, GuestResubmits(id)), id, n.(attempt := Some(Resubmitting(s, rest[1..]))), s,
                 Some(TextSubmit(rest[0])))
  {
    hide TakeFrame, ValidText, HostStep;
  }

  /** When all were sent, the new stream is the one that is read, from behind its grant. */
  lemma AdoptAnswer(cfg: Config, room: Room, id: Id, s: Id)
    requires id in room.guests && room.guests[id].active && room.guests[id].attempt == Some(Resubmitting(s, []))
    ensures var n := room.guests[id];
            Acts(room, Do(cfg, room, GuestAdopts(id)), id,
                 n.(stream := s, delivered := 1, reading := true, recovering := false, attempt := None), s, None)
  {
    hide TakeFrame, ValidText, HostStep;
  }

  /** A guest that leaves says so if it can, and ends. */
  lemma LeavingAnswer(cfg: Config, room: Room, id: Id)
    requires id in room.guests && room.guests[id].active
    ensures var n := room.guests[id];
            Acts(room, Do(cfg, room, GuestCloses(id)), id, n.(active := false, reading := false, attempt := None),
                 n.stream, if n.recovering then None else Some(Leave))
  {
    hide TakeFrame, ValidText, HostStep;
  }

  /** The next frame of the stream in use is taken, and counted. */
  lemma ReadAnswer(cfg: Config, room: Room, id: Id)
    requires id in room.guests && room.guests[id].active
    ensures var n := room.guests[id];
            var after := Do(cfg, room, GuestReads(id));
            if n.reading && n.stream in room.host.wires && n.delivered < |room.host.wires[n.stream].down|
            then Acts(room, after, id,
                      TakeFrame(cfg, n.(delivered := n.delivered + 1), room.host.wires[n.stream].down[n.delivered]),
                      n.stream, None)
            else Acts(room, after, id, n, n.stream, None)
  {
    hide TakeFrame, ValidText, HostStep;
  }

  /** A requester that reads its acceptance starts at its number, with its roster, on that stream. */
  lemma AcceptanceAnswer(cfg: Config, room: Room, s: Id, id: Id, number: nat, roster: Roster)
    requires s in room.host.wires && room.host.wires[s].down != []
    requires room.host.wires[s].down[0] == JoinAccept(id, number, roster)
    requires id !in room.guests && room.host.owner in roster && id in roster
    ensures var after := Do(cfg, room, GuestJoined(s));
            && after.host == room.host && after.guests.Keys == room.guests.Keys + {id}
            && (forall m :: m in room.guests ==> after.guests[m] == room.guests[m])
            && var n := after.guests[id];
               && n.id == id && n.owner == room.host.owner && n.active && n.reading && !n.recovering
               && n.lastSeq == number && n.members == roster && n.stream == s && n.delivered == 1
               && n.pending == [] && n.attempt == None
  {
    hide TakeFrame, ValidText, HostStep;
  }
}
