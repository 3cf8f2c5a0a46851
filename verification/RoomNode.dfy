/** A guest's side of a room: one function per synchronous segment of its code. */
module RoomNode {
  import opened Basics
  import opened RoomTypes

  /** What a guest took from its streams, in order: an event, or a jump told by RESYNC_REQUIRED. */
  datatype Heard = Applied(event: Event) | Jumped(before: nat, number: nat)

  /** A recovery attempt: waiting for the answer, or resending what is still pending. */
  datatype Attempt =
    | Asked(stream: Id)
    | Resubmitting(stream: Id, rest: seq<Submission>)

  /**
   * `joinedAt`, `heard` and `used` record the past: the number in the
   * acceptance frame, everything taken since, and the client event ids ever used.
   */
  datatype Node = Node(
    owner: Id,
    id: Id,
    active: bool,
    lastSeq: nat,
    members: Roster,
    stream: Id,
    delivered: nat,
    reading: bool,
    recovering: bool,
    attempt: Option<Attempt>,
    pending: seq<Submission>,
    joinedAt: nat,
    heard: seq<Heard>,
    used: set<Id>)

  datatype Verdict = Stale | InSequence | Gap | Malformed

  function Drop(pending: seq<Submission>, id: Id): (r: seq<Submission>)
    ensures |r| <= |pending|
  {
    if pending == [] then []
    else (if pending[0].clientEventId == id then [] else [pending[0]]) + Drop(pending[1..], id)
  }

  function Judge(cfg: Config, n: Node, event: Event): Verdict {
    if event.number <= n.lastSeq then Stale
    else if event.number != n.lastSeq + 1 then Gap
    else if !Acceptable(cfg, n.members, event.body) then Malformed
    else InSequence
  }

  function AcceptEvent(cfg: Config, n: Node, event: Event): Node {
    if !Judge(cfg, n, event).InSequence? then n
    else
      n.(
        members := ApplyBody(n.members, event.body),
        lastSeq := event.number,
        heard := n.heard + [Applied(event)],
        pending := if event.body.Text? && event.body.senderId == n.id
          then Drop(n.pending, event.body.clientEventId) else n.pending)
  }

  /** The stream failed or ended: stop reading it and start recovering. */
  function EndReading(n: Node): Node {
    n.(reading := false, recovering := true)
  }

  predicate IsPending(n: Node, id: Id) {
    exists i :: 0 <= i < |n.pending| && n.pending[i].clientEventId == id
  }

  function TakeFrame(cfg: Config, n: Node, frame: Down): Node {
    match frame
    case RoomEvent(event) =>
      if Judge(cfg, n, event).Gap? || Judge(cfg, n, event).Malformed? then EndReading(n)
      else AcceptEvent(cfg, n, event)
    case Resync(number, roster) =>
      var jumped := n.(lastSeq := number, heard := n.heard + [Jumped(n.lastSeq, number)]);
      if n.owner in roster && n.id in roster then jumped.(members := roster) else EndReading(jumped)
    case ActionRejected(requestId) =>
      n.(pending := Drop(n.pending, requestId))
    case ResumeAccept(_) => n
    case Terminal => n.(active := false, reading := false, attempt := None)
    case JoinAccept(_, _, _) => EndReading(n)
    case JoinReject => EndReading(n)
    case ResumeReject => EndReading(n)
  }
}
