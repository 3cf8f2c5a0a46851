/**
 * When a text enters the log. In every run it does so only in an open room,
 * from a member that may speak, and never again while its id is remembered.
 */
module RoomTextRules {
  import opened Basics
  import opened RoomTypes
  import opened EventDeduper
  import opened RoomHost
  import opened RoomSystem
  import opened RoomTexts
  import opened RoomUps

  /** `k` is `h` with one more event, a text of `sender`. */
  ghost predicate Adds(h: Host, k: Host, sender: Id, f: Submission) {
    k.log == h.log + [Event(|h.log| + 1, Text(sender, f.clientEventId, f.text))]
  }

  /** Guest `id` is online on stream `s`, and `f` is the next frame to be read from it. */
  predicate Speaks(h: Host, id: Id, s: Id, f: Submission) {
    && id in h.members && h.members[id].role == Guest && h.members[id].status == Online
    && h.members[id].stream == Some(s)
    && s in h.wires && h.wires[s].peer == Some(id)
    && h.wires[s].upRead < |h.wires[s].up| && h.wires[s].up[h.wires[s].upRead] == TextSubmit(f)
  }

  /** The room is open for this text, and its id is not remembered. */
  ghost predicate Takeable(cfg: Config, h: Host, sender: Id, f: Submission) {
    && !h.roomPaused && !h.closing && ValidText(cfg, f.text)
    && !Remembered(Written(h.log, sender), cfg.dedupeMaxItems, f.clientEventId)
  }

  /** Step `step` took a text, and was allowed to. */
  ghost predicate TookText(cfg: Config, h: Host, k: Host, step: Step) {
    || (step.HostText? && Takeable(cfg, h, h.owner, step.submission) && Adds(h, k, h.owner, step.submission))
    || (step.HostRead? && step.stream in h.wires && h.wires[step.stream].peer.Some?
        && var id := h.wires[step.stream].peer.value;
           var w := h.wires[step.stream];
           && w.upRead < |w.up| && w.up[w.upRead].TextSubmit?
           && Speaks(h, id, step.stream, w.up[w.upRead].submission) && Takeable(cfg, h, id, w.up[w.upRead].submission)
           && Adds(h, k, id, w.up[w.upRead].submission))
  }

  lemma OwnerTextRule(cfg: Config, h: Host, f: Submission)
    ensures var k := OwnerText(h, cfg, f);
            Textless(h, k) || TookText(cfg, h, k, HostText(f))
  {
    hide ValidText, Answer, Written, Remembered;
    AnswerMeans(Written(h.log, h.owner), cfg.dedupeMaxItems, f.clientEventId);
  }

  lemma ReadRule(cfg: Config, h: Host, s: Id)
    ensures var k := ReadUp(h, cfg, s);
            Textless(h, k) || TookText(cfg, h, k, HostRead(s))
  {
    hide ValidText, Answer, Written, Remembered, SameUps;
    if Readable(h, s) {
      ReadUps(cfg, h, s);
      var w := h.wires[s];
      if w.peer.Some? && w.up[w.upRead].TextSubmit? {
        AnswerMeans(Written(h.log, w.peer.value), cfg.dedupeMaxItems, w.up[w.upRead].submission.clientEventId);
      }
      hide ReadUp;
    }
  }

  lemma TextRule(cfg: Config, h: Host, step: Step)
    requires !ByGuest(step) && !step.GuestJoined?
    ensures var k := HostStep(cfg, h, step);
            Textless(h, k) || TookText(cfg, h, k, step)
  {
    hide TookText, OwnerText, ReadUp;
    if step.HostText? {
      OwnerTextRule(cfg, h, step.submission);
    } else if step.HostRead? {
      ReadRule(cfg, h, step.stream);
    } else {
      HostStepUps(cfg, h, step);
      KeptIsTextless(h, HostStep(cfg, h, step));
    }
  }

  lemma KeptIsTextless(h: Host, k: Host)
    requires UpsKept(h, k)
    ensures Textless(h, k)
  {
  }

  lemma GuestsLeaveLog(cfg: Config, room: Room, step: Step)
    requires ByGuest(step) || step.GuestJoined?
    ensures Do(cfg, room, step).host.log == room.host.log
  {
    hide RoomNode.TakeFrame, ValidText;
  }

  /**
   * In every run, a step that adds a text adds it in a room that is neither
   * paused nor closing, as valid as asked, under an id that its sender has not
   * used with fewer than `dedupeMaxItems` others since; and the sender is the
   * owner, or a guest that is online on the very stream the text was read from.
   */
  lemma TextsNeedAnOpenRoom(cfg: Config, owner: Id, token: Id, rooms: seq<Room>, steps: seq<Step>, i: nat)
    requires Run(cfg, owner, token, rooms, steps) && i < |steps|
    requires |rooms[i + 1].host.log| > |rooms[i].host.log| && rooms[i + 1].host.log[|rooms[i].host.log|].body.Text?
    ensures TookText(cfg, rooms[i].host, rooms[i + 1].host, steps[i])
  {
    hide HostStep, TookText;
    assert rooms[i + 1] == Do(cfg, rooms[i], steps[i]);
    if ByGuest(steps[i]) || steps[i].GuestJoined? {
      GuestsLeaveLog(cfg, rooms[i], steps[i]);
    } else {
      TextRule(cfg, rooms[i].host, steps[i]);
    }
  }

  // ---- The same id twice ----

  function Between(wr: seq<Entry>, a: nat, b: nat): set<Id> {
    set j | a < j < b && j < |wr| :: wr[j].id
  }

  /** An id comes back only after at least `window` others. */
  ghost predicate Spaced(wr: seq<Entry>, window: nat) {
    forall a, b :: 0 <= a < b < |wr| && wr[a].id == wr[b].id ==> |Between(wr, a, b)| >= window
  }

  lemma SpacedNext(wr: seq<Entry>, window: nat, e: Entry)
    requires Spaced(wr, window) && !Remembered(wr, window, e.id)
    ensures Spaced(wr + [e], window)
  {
    var longer := wr + [e];
    forall a, b | 0 <= a < b < |longer| && longer[a].id == longer[b].id
      ensures |Between(longer, a, b)| >= window
    {
      if b < |wr| {
        assert forall j :: a < j < b ==> longer[j] == wr[j];
        assert Between(longer, a, b) == Between(wr, a, b);
      } else {
        assert wr[a].id == e.id;
        var i := LastUse(wr, e.id);
        assert AfterIds(wr, i) <= Between(longer, a, b) by {
          forall x | x in AfterIds(wr, i)
            ensures x in Between(longer, a, b)
          {
            var j :| i < j < |wr| && wr[j].id == x;
            assert longer[j].id == x;
          }
        }
        CountSubset(AfterIds(wr, i), Between(longer, a, b));
      }
    }
  }

  lemma TookTextWrites(cfg: Config, h: Host, k: Host, step: Step, m: Id)
    requires Textless(h, k) || TookText(cfg, h, k, step)
    requires Spaced(Written(h.log, m), cfg.dedupeMaxItems)
    ensures Spaced(Written(k.log, m), cfg.dedupeMaxItems)
  {
    hide Written, Spaced, ValidText, Remembered;
    if k.log != h.log {
      var e := k.log[|h.log|];
      assert k.log == h.log + [e];
      WrittenGrows(h.log, e, m);
      if e.body.Text? && e.body.senderId == m {
        assert !Remembered(Written(h.log, m), cfg.dedupeMaxItems, e.body.clientEventId);
        SpacedNext(Written(h.log, m), cfg.dedupeMaxItems, Entry(e.body.clientEventId, e.number));
      } else {
        assert Written(k.log, m) == Written(h.log, m);
      }
    }
  }

  /**
   * No repeat in the window, for every sender, the owner included, and in every
   * run, resyncs or not: between two commits of one id there are at least
   * `dedupeMaxItems` other ids of that sender.
   */
  lemma {:induction false} NoRepeatInWindow(cfg: Config, owner: Id, token: Id, rooms: seq<Room>, steps: seq<Step>,
                                            i: nat, m: Id)
    requires Run(cfg, owner, token, rooms, steps) && i < |rooms|
    ensures Spaced(Written(rooms[i].host.log, m), cfg.dedupeMaxItems)
  {
    hide HostStep, TookText, Spaced;
    if i > 0 {
      NoRepeatInWindow(cfg, owner, token, rooms, steps, i - 1, m);
      var step := steps[i - 1];
      assert rooms[i - 1 + 1] == Do(cfg, rooms[i - 1], step);
      if ByGuest(step) || step.GuestJoined? {
        GuestsLeaveLog(cfg, rooms[i - 1], step);
      } else {
        TextRule(cfg, rooms[i - 1].host, step);
        TookTextWrites(cfg, rooms[i - 1].host, rooms[i].host, step, m);
      }
    } else {
      assert Spaced([], cfg.dedupeMaxItems) by { NothingSpaced(cfg.dedupeMaxItems); }
    }
  }

  lemma NothingSpaced(window: nat)
    ensures Spaced([], window)
  {
  }
}
