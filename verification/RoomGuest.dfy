/**
 * A guest's controller as an object. Its methods do what RoomNode says, and
 * the bytes it counts as pending are always the bytes that are pending.
 */
module RoomGuest {
  import opened Basics
  import opened RoomTypes
  import opened RoomNode

  /** `length` stands for the encoded length of a submission, frame header included. */
  function PendingBytes(length: Submission -> nat, pending: seq<Submission>): nat {
    if pending == [] then 0 else length(pending[0]) + PendingBytes(length, pending[1..])
  }

  lemma {:induction false} BytesSnoc(length: Submission -> nat, pending: seq<Submission>, last: Submission)
    ensures PendingBytes(length, pending + [last]) == PendingBytes(length, pending) + length(last)
  {
    if pending == [] {
      assert [last][1..] == [];
    } else {
      assert (pending + [last])[1..] == pending[1..] + [last];
      BytesSnoc(length, pending[1..], last);
    }
  }

  ghost predicate Apart(pending: seq<Submission>) {
    forall i, j :: 0 <= i < j < |pending| ==> pending[i].clientEventId != pending[j].clientEventId
  }

  lemma {:induction false} DropMissing(pending: seq<Submission>, id: Id)
    requires forall i :: 0 <= i < |pending| ==> pending[i].clientEventId != id
    ensures Drop(pending, id) == pending
  {
    if pending != [] {
      DropMissing(pending[1..], id);
    }
  }

  lemma {:induction false} DropApart(pending: seq<Submission>, id: Id)
    requires Apart(pending)
    ensures Apart(Drop(pending, id))
    ensures forall x :: x in Drop(pending, id) ==> x in pending && x.clientEventId != id
  {
    if pending != [] {
      assert forall i :: 0 <= i < |pending[1..]| ==> pending[1..][i] == pending[i + 1];
      DropApart(pending[1..], id);
      var dropped := Drop(pending[1..], id);
      forall i | 0 <= i < |dropped|
        ensures dropped[i].clientEventId != pending[0].clientEventId
      {
        assert dropped[i] in pending[1..];
      }
    }
  }

  /** Dropping an id frees exactly the bytes it took, so the subtraction never goes below zero. */
  lemma {:induction false} DropFrees(length: Submission -> nat, pending: seq<Submission>, id: Id, k: nat)
    requires Apart(pending) && k < |pending| && pending[k].clientEventId == id
    ensures PendingBytes(length, Drop(pending, id)) == PendingBytes(length, pending) - length(pending[k])
  {
    var rest := pending[1..];
    assert forall i :: 0 <= i < |rest| ==> rest[i] == pending[i + 1];
    if k == 0 {
      DropMissing(rest, id);
      assert Drop(pending, id) == rest;
    } else {
      DropFrees(length, rest, id, k - 1);
      assert Drop(pending, id) == [pending[0]] + Drop(rest, id);
      assert Drop(pending, id)[1..] == Drop(rest, id);
    }
  }

  class GroupRoomGuest {
    const cfg: Config
    const owner: Id
    const id: Id
    const length: Submission -> nat
    const sendQueueMaxBytes: nat
    var active: bool
    var lastSeq: nat
    var members: Roster
    var stream: Id
    var delivered: nat
    var reading: bool
    var recovering: bool
    var attempt: Option<Attempt>
    var pendingEvents: seq<Submission>
    var pendingEventBytes: int
    ghost var joinedAt: nat
    ghost var heard: seq<Heard>
    ghost var used: set<Id>

    ghost function State(): Node
      reads this
    {
      Node(owner, id, active, lastSeq, members, stream, delivered, reading, recovering, attempt, pendingEvents,
           joinedAt, heard, used)
    }

    ghost predicate Valid()
      reads this
    {
      && Apart(pendingEvents) && pendingEventBytes == PendingBytes(length, pendingEvents)
      && |pendingEvents| <= cfg.sendQueueMaxFrames && pendingEventBytes <= sendQueueMaxBytes
      && forall s :: s in pendingEvents ==> s.clientEventId in used
    }

    constructor (cfg: Config, length: Submission -> nat, sendQueueMaxBytes: nat, owner: Id, id: Id, number: nat,
                 roster: Roster,
                 stream: Id)
      ensures Valid()
      ensures State() == Node(owner, id, true, number, roster, stream, 1, true, false, None, [], number, [], {})
    {
      this.cfg, this.owner, this.id, this.length, this.sendQueueMaxBytes := cfg, owner, id, length, sendQueueMaxBytes;
      active, lastSeq, members, this.stream, delivered := true, number, roster, stream, 1;
      reading, recovering, attempt, pendingEvents, pendingEventBytes := true, false, None, [], 0;
      joinedAt, heard, used := number, [], {};
    }

    /** Forgets a pending text, and its bytes. */
    method DeletePendingEvent(clientEventId: Id) returns (found: bool)
      requires Valid()
      modifies this`pendingEvents, this`pendingEventBytes
      ensures Valid()
      ensures pendingEvents == Drop(old(pendingEvents), clientEventId)
      ensures found == IsPending(old(State()), clientEventId)
    {
      var i := 0;
      while i < |pendingEvents| && pendingEvents[i].clientEventId != clientEventId
        invariant 0 <= i <= |pendingEvents|
        invariant forall j :: 0 <= j < i ==> pendingEvents[j].clientEventId != clientEventId
      {
        i := i + 1;
      }
      found := i < |pendingEvents|;
      var size := if found then length(pendingEvents[i]) else 0;
      DropApart(pendingEvents, clientEventId);
      if found {
        DropFrees(length, pendingEvents, clientEventId, i);
      } else {
        DropMissing(pendingEvents, clientEventId);
      }
      pendingEvents := Drop(pendingEvents, clientEventId);
      pendingEventBytes := Max(0, pendingEventBytes - size);
    }

    /** Applies an event if it is the next one; a gap or a malformed event is an error and changes nothing. */
    method AcceptEvent(event: Event) returns (verdict: Verdict)
      requires Valid()
      modifies this
      ensures Valid() && verdict == Judge(cfg, old(State()), event)
      ensures State() == RoomNode.AcceptEvent(cfg, old(State()), event)
    {
      hide ValidText;
      if event.number <= lastSeq {
        return Stale;
      }
      if event.number != lastSeq + 1 {
        return Gap;
      }
      match event.body {
        case Text(senderId, _, text) =>
          if senderId !in members || !ValidText(cfg, text) {
            return Malformed;
          }
        case Joined(memberId, face) =>
          members := members[memberId := face];
        case Left(memberId) =>
          members := members - {memberId};
        case State(memberId, status) =>
          if memberId !in members {
            return Malformed;
          }
          members := members[memberId := members[memberId].(status := status)];
      }
      lastSeq := event.number;
      heard := heard + [Applied(event)];
      if event.body.Text? && event.body.senderId == id {
        var found := DeletePendingEvent(event.body.clientEventId);
      }
      return InSequence;
    }

    /** What the guest does with a frame of the owner's; an error ends the reading and starts the recovery. */
    method HandleOwnerFrame(frame: Down)
      requires Valid()
      modifies this
      ensures Valid() && State() == TakeFrame(cfg, old(State()), frame)
    {
      hide Judge, RoomNode.AcceptEvent, Apart, PendingBytes, Drop, IsPending;
      match frame {
        case RoomEvent(event) =>
          JudgedOnly(cfg, State(), event);
          var verdict := AcceptEvent(event);
          if verdict.Gap? || verdict.Malformed? {
            FailReading();
          }
        case Resync(number, roster) =>
          Resynchronize(number, roster);
        case ActionRejected(requestId) =>
          var _ := DeletePendingEvent(requestId);
        case Terminal =>
          active, reading, attempt := false, false, None;
        case ResumeAccept(_) =>
        case _ => FailReading();
      }
    }

    method Resynchronize(number: nat, roster: Roster)
      requires Valid()
      modifies this
      ensures Valid() && State() == TakeFrame(cfg, old(State()), Resync(number, roster))
    {
      hide Apart, PendingBytes, Drop;
      heard := heard + [Jumped(lastSeq, number)];
      lastSeq := number;
      if owner in roster && id in roster {
        members := roster;
      } else {
        FailReading();
      }
    }

    method FailReading()
      requires Valid()
      modifies this`reading, this`recovering
      ensures Valid() && State() == EndReading(old(State()))
    {
      reading, recovering := false, true;
    }

    /** Keeps a text until it is settled, or refuses it because too much is pending. */
    method QueueText(submission: Submission) returns (queued: bool)
      requires Valid() && submission.clientEventId !in used
      modifies this`pendingEvents, this`pendingEventBytes, this`used
      ensures Valid()
      ensures queued == (!recovering && ValidText(cfg, submission.text) && |old(pendingEvents)| < cfg.sendQueueMaxFrames
        && PendingBytes(length, old(pendingEvents)) + length(submission) <= sendQueueMaxBytes)
      ensures State() == if queued
        then old(State()).(pending := old(pendingEvents) + [submission], used := old(used) + {submission.clientEventId})
        else old(State())
    {
      hide ValidText;
      if recovering || !ValidText(cfg, submission.text) {
        return false;
      }
      if |pendingEvents| + 1 > cfg.sendQueueMaxFrames || pendingEventBytes + length(submission) > sendQueueMaxBytes {
        return false;
      }
      BytesSnoc(length, pendingEvents, submission);
      forall i | 0 <= i < |pendingEvents|
        ensures pendingEvents[i].clientEventId != submission.clientEventId
      {
        assert pendingEvents[i] in pendingEvents;
      }
      pendingEvents := pendingEvents + [submission];
      pendingEventBytes := pendingEventBytes + length(submission);
      used := used + {submission.clientEventId};
      return true;
    }
  }

  lemma JudgedOnly(cfg: Config, n: Node, event: Event)
    ensures !Judge(cfg, n, event).InSequence? ==> RoomNode.AcceptEvent(cfg, n, event) == n
  {
  }
}
