/**
 * The owner's bounded replay buffer. Its meaning is a function of the whole
 * log: it holds the longest suffix of the log within both limits.
 */
module ReplayBuffer {
  import opened Basics
  import opened RoomTypes

  function Bytes(size: Event -> nat, events: seq<Event>): nat {
    if events == [] then 0 else size(events[0]) + Bytes(size, events[1..])
  }

  ghost predicate Numbered(log: seq<Event>) {
    forall i :: 0 <= i < |log| ==> log[i].number == i + 1
  }

  ghost predicate Fits(cfg: Config, log: seq<Event>, start: nat)
    requires start <= |log|
  {
    |log| - start <= cfg.replayMaxItems && Bytes(cfg.size, log[start..]) <= cfg.replayMaxBytes
  }

  /** The first index at or after `k` from which the suffix is within both limits. */
  ghost function StartFrom(cfg: Config, log: seq<Event>, k: nat): (start: nat)
    requires k <= |log|
    ensures k <= start <= |log| && Fits(cfg, log, start)
    ensures forall j :: k <= j < start ==> !Fits(cfg, log, j)
    decreases |log| - k
  {
    if k == |log| || Fits(cfg, log, k) then k else StartFrom(cfg, log, k + 1)
  }

  ghost function Start(cfg: Config, log: seq<Event>): (start: nat)
    ensures start <= |log| && Fits(cfg, log, start)
    ensures forall j :: 0 <= j < start ==> !Fits(cfg, log, j)
  {
    StartFrom(cfg, log, 0)
  }

  /** The events a resume can still be given after event number `number`. */
  ghost function After(cfg: Config, log: seq<Event>, number: int): Option<seq<Event>> {
    if number < 0 || number > |log| then None
    else if number == |log| then Some([])
    else if number < Start(cfg, log) then None
    else Some(log[number..])
  }

  lemma {:induction false} BytesAppend(size: Event -> nat, events: seq<Event>, event: Event)
    ensures Bytes(size, events + [event]) == Bytes(size, events) + size(event)
  {
    if events == [] {
      assert [event][1..] == [];
    } else {
      assert (events + [event])[1..] == events[1..] + [event];
      BytesAppend(size, events[1..], event);
    }
  }

  /** What did not fit before does not fit after one more event. */
  lemma OverflowPersists(cfg: Config, log: seq<Event>, event: Event, start: nat)
    requires start <= |log| && !Fits(cfg, log, start)
    ensures !Fits(cfg, log + [event], start)
  {
    assert (log + [event])[start..] == log[start..] + [event];
    BytesAppend(cfg.size, log[start..], event);
  }

  /** The newest event is always kept. */
  lemma NewestKept(cfg: Config, log: seq<Event>)
    requires GoodConfig(cfg) && log != []
    ensures Start(cfg, log) < |log|
  {
    var last := log[|log| - 1..];
    assert last == [log[|log| - 1]] && last[1..] == [];
    assert Fits(cfg, log, |log| - 1);
  }

  /** Inside the window the answer is the log itself; it is never an empty answer to a late reader. */
  lemma AfterIsLog(cfg: Config, log: seq<Event>, number: nat)
    requires GoodConfig(cfg)
    requires number < |log|
    ensures After(cfg, log, |log| - 1) == Some([log[|log| - 1]])
    ensures After(cfg, log, number).Some? ==>
      After(cfg, log, number).value == log[number..] != []
    ensures After(cfg, log, number).Some? <==> Fits(cfg, log, number)
  {
    NewestKept(cfg, log);
    assert log[|log| - 1..] == [log[|log| - 1]];
    if number > Start(cfg, log) {
      FitsUpward(cfg, log, Start(cfg, log), number);
    }
  }

  lemma {:induction false} BytesDrop(size: Event -> nat, events: seq<Event>, k: nat)
    requires k <= |events|
    ensures Bytes(size, events[k..]) <= Bytes(size, events)
  {
    if k > 0 {
      assert events[1..][k - 1..] == events[k..];
      BytesDrop(size, events[1..], k - 1);
    } else {
      assert events[0..] == events;
    }
  }

  lemma FitsUpward(cfg: Config, log: seq<Event>, a: nat, b: nat)
    requires a <= b <= |log| && Fits(cfg, log, a)
    ensures Fits(cfg, log, b)
  {
    assert log[a..][b - a..] == log[b..];
    BytesDrop(cfg.size, log[a..], b - a);
  }

  /** A push only ever moves the window forward, and never past the new event. */
  lemma StartAfterPush(cfg: Config, log: seq<Event>, event: Event)
    requires cfg.replayMaxItems >= 1 && cfg.size(event) <= cfg.replayMaxBytes
    ensures Start(cfg, log) <= Start(cfg, log + [event]) < |log| + 1
    ensures Bytes(cfg.size, (log + [event])[Start(cfg, log)..])
      == Bytes(cfg.size, log[Start(cfg, log)..]) + cfg.size(event)
  {
    var start, grown := Start(cfg, log), log + [event];
    if Start(cfg, grown) < start {
      OverflowPersists(cfg, log, event, Start(cfg, grown));
    }
    assert grown[start..] == log[start..] + [event];
    BytesAppend(cfg.size, log[start..], event);
    assert grown[|log|..] == [event] && [event][1..] == [];
    assert Fits(cfg, grown, |log|);
  }

  datatype Item = Item(event: Event, bytes: nat)

  function Items(size: Event -> nat, events: seq<Event>): (items: seq<Item>)
    ensures |items| == |events|
  {
    if events == [] then [] else [Item(events[0], size(events[0]))] + Items(size, events[1..])
  }

  lemma {:induction false} ItemsAt(size: Event -> nat, events: seq<Event>, i: nat)
    requires i < |events|
    ensures Items(size, events)[i] == Item(events[i], size(events[i]))
  {
    if i > 0 {
      ItemsAt(size, events[1..], i - 1);
    }
  }

  lemma {:induction false} ItemsAppend(size: Event -> nat, events: seq<Event>, event: Event)
    ensures Items(size, events + [event]) == Items(size, events) + [Item(event, size(event))]
  {
    if events == [] {
      assert [event][1..] == [];
    } else {
      assert (events + [event])[1..] == events[1..] + [event];
      ItemsAppend(size, events[1..], event);
    }
  }

  lemma NumberAt(log: seq<Event>, start: nat, i: nat)
    requires Numbered(log) && start + i < |log|
    ensures log[start..][i].number == start + i + 1
  {
  }

  function Tail(kept: seq<Event>, skip: nat, i: nat): seq<Event>
    requires i <= |kept|
  {
    if i <= skip then [] else kept[skip..i]
  }

  lemma TailStep(kept: seq<Event>, skip: nat, i: nat)
    requires i < |kept|
    ensures Tail(kept, skip, i + 1) == Tail(kept, skip, i) + if i < skip then [] else [kept[i]]
  {
  }

  class GroupReplayBuffer {
    const cfg: Config
    var items: seq<Item>
    var bytes: int
    var latestSequence: nat
    ghost var log: seq<Event>

    ghost predicate Holds(start: nat)
      reads this
    {
      && start <= |log|
      && items == Items(cfg.size, log[start..])
      && bytes == Bytes(cfg.size, log[start..])
    }

    ghost predicate Valid()
      reads this
    {
      && cfg.replayMaxItems >= 1
      && Numbered(log)
      && latestSequence == |log|
      && Holds(Start(cfg, log))
      && (log != [] ==> Start(cfg, log) < |log|)
    }

    constructor (cfg: Config)
      requires cfg.replayMaxItems >= 1
      ensures Valid() && log == [] && this.cfg == cfg
    {
      this.cfg := cfg;
      items, bytes, latestSequence, log := [], 0, 0, [];
    }

    /** Refuses a gap or an event that can never fit, and then changes nothing. */
    method Push(event: Event) returns (ok: bool)
      requires Valid()
      modifies this
      ensures Valid()
      ensures ok == (event.number == |old(log)| + 1 && cfg.size(event) <= cfg.replayMaxBytes)
      ensures log == if ok then old(log) + [event] else old(log)
    {
      if event.number != latestSequence + 1 {
        return false;
      }
      var size := cfg.size(event);
      if size > cfg.replayMaxBytes {
        return false;
      }
      ghost var start := Start(cfg, log);
      StartAfterPush(cfg, log, event);
      assert (log + [event])[start..] == log[start..] + [event];
      ItemsAppend(cfg.size, log[start..], event);
      items := items + [Item(event, size)];
      bytes := bytes + size;
      latestSequence := event.number;
      log := log + [event];
      assert Numbered(log);
      Evict(start);
      return true;
    }

    /** Drops the oldest items until both limits hold. */
    method Evict(ghost start: nat)
      requires start <= Start(cfg, log) < |log| && Holds(start)
      modifies this`items, this`bytes
      ensures Holds(Start(cfg, log))
    {
      ghost var k: nat := start;
      while |items| > cfg.replayMaxItems || bytes > cfg.replayMaxBytes
        invariant k <= Start(cfg, log) && Holds(k)
        decreases |items|
      {
        assert !Fits(cfg, log, k);
        assert log[k..][1..] == log[k + 1..];
        var removed := items[0];
        items := items[1..];
        bytes := bytes - removed.bytes;
        k := k + 1;
      }
      assert Fits(cfg, log, k);
    }

    method AfterNumber(number: int) returns (events: Option<seq<Event>>)
      requires Valid()
      ensures events == After(cfg, log, number)
    {
      if number < 0 || number > latestSequence {
        return None;
      }
      if number == latestSequence {
        return Some([]);
      }
      ghost var kept := log[Start(cfg, log)..];
      ItemsAt(cfg.size, kept, 0);
      if number < items[0].event.number - 1 {
        return None;
      }
      ghost var skip: nat := number - Start(cfg, log);
      var found: seq<Event> := [];
      for i := 0 to |items|
        invariant found == Tail(kept, skip, i)
      {
        ItemsAt(cfg.size, kept, i);
        NumberAt(log, Start(cfg, log), i);
        TailStep(kept, skip, i);
        if items[i].event.number > number {
          found := found + [items[i].event];
        }
      }
      assert log[Start(cfg, log)..][skip..] == log[number..];
      assert kept[skip..|items|] == kept[skip..];
      return Some(found);
    }

    method Clear()
      requires Valid()
      modifies this
      ensures Valid() && log == []
    {
      items, bytes, latestSequence, log := [], 0, 0, [];
    }
  }
}
