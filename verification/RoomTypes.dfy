/**
 * The vocabulary of a group room: who is in it, what the numbered log says,
 * and the frames that travel on a control stream.
 */
module RoomTypes {

  /** Identifiers are random tokens in the source; only their equality matters here. */
  type Id = nat

  datatype Role = Owner | Guest
  datatype Status = Online | Reconnecting

  /** What every participant knows about a member. */
  datatype Face = Face(role: Role, status: Status)
  type Roster = map<Id, Face>

  datatype Body =
    | Text(senderId: Id, clientEventId: Id, text: string)
    | Joined(memberId: Id, face: Face)
    | Left(memberId: Id)
    | State(memberId: Id, status: Status)

  datatype Event = Event(number: nat, body: Body)

  datatype Submission = Submission(clientEventId: Id, text: string)

  /** Frames from the owner to a guest. */
  datatype Down =
    | JoinAccept(memberId: Id, number: nat, roster: Roster)
    | JoinReject
    | ResumeAccept(currentSeq: nat)
    | ResumeReject
    | RoomEvent(event: Event)
    | Resync(number: nat, roster: Roster)
    | ActionRejected(requestId: Id)
    | Terminal

  /** Frames from a guest to the owner, after the first one of a stream. */
  datatype Up =
    | TextSubmit(submission: Submission)
    | Leave

  /** `size` stands for the encoded length of an event. */
  datatype Config = Config(
    maxMembers: nat,
    maxPendingJoins: nat,
    replayMaxItems: nat,
    replayMaxBytes: nat,
    dedupeMaxItems: nat,
    sendQueueMaxFrames: nat,
    textBytes: nat,
    size: Event -> nat)

  /** Every event fits in the replay buffer, which keeps at least one item. */
  ghost predicate GoodConfig(cfg: Config) {
    && cfg.maxMembers >= 1
    && cfg.replayMaxItems >= 1
    && forall e: Event :: cfg.size(e) <= cfg.replayMaxBytes
  }

  function Utf8Length(text: string): (bytes: nat)
    ensures |text| <= bytes <= 4 * |text|
  {
    if text == "" then 0
    else
      var c := text[0] as int;
      (if c < 0x80 then 1 else if c < 0x800 then 2 else if c < 0x1_0000 then 3 else 4) + Utf8Length(text[1..])
  }

  predicate IsBlank(c: char) {
    c as int in {9, 10, 11, 12, 13, 32, 0xA0, 0x1680, 0x2028, 0x2029, 0x202F, 0x205F, 0x3000, 0xFEFF}
    || 0x2000 <= c as int <= 0x200A
  }

  predicate ValidText(cfg: Config, text: string) {
    && (exists i :: 0 <= i < |text| && !IsBlank(text[i]))
    && Utf8Length(text) <= cfg.textBytes
  }

  // ---- The roster a log describes ----

  function ApplyBody(roster: Roster, body: Body): Roster {
    match body
    case Text(_, _, _) => roster
    case Joined(id, face) => roster[id := face]
    case Left(id) => roster - {id}
    case State(id, status) => if id in roster then roster[id := roster[id].(status := status)] else roster
  }

  function RosterOf(owner: Id, log: seq<Event>): Roster {
    if log == [] then map[owner := Face(Owner, Online)]
    else ApplyBody(RosterOf(owner, log[..|log| - 1]), log[|log| - 1].body)
  }

  /** The roster as it was just after event number `n`. */
  function RosterAt(owner: Id, log: seq<Event>, n: nat): Roster
    requires n <= |log|
  {
    RosterOf(owner, log[..n])
  }

  lemma RosterExtends(owner: Id, log: seq<Event>, more: seq<Event>, n: nat)
    requires n <= |log|
    ensures RosterAt(owner, log + more, n) == RosterAt(owner, log, n)
  {
    assert (log + more)[..n] == log[..n];
  }

  lemma RosterStep(owner: Id, log: seq<Event>, n: nat)
    requires n < |log|
    ensures RosterAt(owner, log, n + 1) == ApplyBody(RosterAt(owner, log, n), log[n].body)
  {
    assert log[..n + 1][..n] == log[..n];
  }

  /** The checks a guest makes on an in-sequence event before applying it. */
  predicate Acceptable(cfg: Config, roster: Roster, body: Body) {
    match body
    case Text(sender, _, text) => sender in roster && ValidText(cfg, text)
    case Joined(_, _) => true
    case Left(_) => true
    case State(id, _) => id in roster
  }

  /** A newcomer sees itself before the log says it joined. */
  function WithSelf(roster: Roster, id: Id): Roster {
    if id in roster then roster else roster[id := Face(Guest, Online)]
  }

  lemma WithSelfCommutes(cfg: Config, roster: Roster, id: Id, body: Body)
    requires Acceptable(cfg, roster, body) && body != Left(id)
    ensures ApplyBody(WithSelf(roster, id), body) == WithSelf(ApplyBody(roster, body), id)
    ensures Acceptable(cfg, WithSelf(roster, id), body)
  {
  }
}
