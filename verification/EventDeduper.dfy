/**
 * The bounded window of recently committed client event ids. The class keeps
 * an insertion-ordered table; the specification is the whole history.
 */
module EventDeduper {
  import opened Basics
  import opened RoomTypes

  datatype Entry = Entry(id: Id, number: nat)

  ghost predicate Has(entries: seq<Entry>, id: Id) {
    exists i :: 0 <= i < |entries| && entries[i].id == id
  }

  ghost predicate Distinct(entries: seq<Entry>) {
    forall i, j :: 0 <= i < j < |entries| ==> entries[i].id != entries[j].id
  }

  function Without(entries: seq<Entry>, id: Id): (r: seq<Entry>) {
    if entries == [] then []
    else (if entries[0].id == id then [] else [entries[0]]) + Without(entries[1..], id)
  }

  /** Every id ever remembered with its latest number, oldest latest-use first. */
  function Recent(history: seq<Entry>): seq<Entry> {
    if history == [] then []
    else
      var last := history[|history| - 1];
      Without(Recent(history[..|history| - 1]), last.id) + [last]
  }

  function TakeLast(entries: seq<Entry>, n: nat): seq<Entry> {
    if |entries| <= n then entries else entries[|entries| - n..]
  }

  function Lookup(entries: seq<Entry>, id: Id): Option<nat> {
    if entries == [] then None
    else if entries[0].id == id then Some(entries[0].number)
    else Lookup(entries[1..], id)
  }

  /** What a deduper of size `maximum` answers after the given history. */
  function Answer(history: seq<Entry>, maximum: nat, id: Id): Option<nat> {
    Lookup(TakeLast(Recent(history), maximum), id)
  }

  lemma HasConcat(a: seq<Entry>, b: seq<Entry>, id: Id)
    ensures Has(a + b, id) <==> Has(a, id) || Has(b, id)
  {
    if Has(a, id) {
      var i :| 0 <= i < |a| && a[i].id == id;
      assert (a + b)[i].id == id;
    }
    if Has(b, id) {
      var i :| 0 <= i < |b| && b[i].id == id;
      assert (a + b)[|a| + i].id == id;
    }
    if Has(a + b, id) {
      var i :| 0 <= i < |a + b| && (a + b)[i].id == id;
      assert i >= |a| ==> b[i - |a|].id == id;
    }
  }

  lemma HasCons(entries: seq<Entry>, id: Id)
    requires entries != []
    ensures Has(entries, id) <==> entries[0].id == id || Has(entries[1..], id)
  {
    assert entries == [entries[0]] + entries[1..];
    HasConcat([entries[0]], entries[1..], id);
    assert Has([entries[0]], id) <==> entries[0].id == id by {
      assert [entries[0]][0] == entries[0];
    }
  }

  lemma {:induction false} WithoutHas(entries: seq<Entry>, id: Id, x: Id)
    ensures Has(Without(entries, id), x) <==> x != id && Has(entries, x)
  {
    if entries != [] {
      WithoutHas(entries[1..], id, x);
      HasCons(entries, x);
      if entries[0].id == id {
        assert Without(entries, id) == Without(entries[1..], id);
      } else {
        HasCons(Without(entries, id), x);
        assert Without(entries, id)[1..] == Without(entries[1..], id);
      }
    }
  }

  lemma {:induction false} WithoutDistinct(entries: seq<Entry>, id: Id)
    requires Distinct(entries)
    ensures Distinct(Without(entries, id))
  {
    if entries != [] {
      WithoutDistinct(entries[1..], id);
      var first, tail := entries[0], Without(entries[1..], id);
      WithoutHas(entries[1..], id, first.id);
      assert !Has(entries[1..], first.id);
      assert forall k :: 0 <= k < |tail| ==> tail[k].id != first.id;
    }
  }

  lemma {:induction false} WithoutAbsent(entries: seq<Entry>, id: Id)
    requires !Has(entries, id)
    ensures Without(entries, id) == entries
  {
    if entries != [] {
      HasCons(entries, id);
      WithoutAbsent(entries[1..], id);
    }
  }

  lemma {:induction false} WithoutConcat(a: seq<Entry>, b: seq<Entry>, id: Id)
    ensures Without(a + b, id) == Without(a, id) + Without(b, id)
  {
    if a == [] {
      assert a + b == b;
    } else {
      assert (a + b)[1..] == a[1..] + b;
      WithoutConcat(a[1..], b, id);
    }
  }

  lemma {:induction false} WithoutAt(entries: seq<Entry>, k: nat)
    requires k < |entries| && Distinct(entries)
    ensures |Without(entries, entries[k].id)| == |entries| - 1
  {
    var tail := entries[1..];
    if k == 0 {
      assert !Has(tail, entries[0].id);
      WithoutAbsent(tail, entries[0].id);
    } else {
      assert tail[k - 1] == entries[k];
      WithoutAt(tail, k - 1);
    }
  }

  lemma {:induction false} RecentDistinct(history: seq<Entry>)
    ensures Distinct(Recent(history))
  {
    if history != [] {
      var rest, last := history[..|history| - 1], history[|history| - 1];
      RecentDistinct(rest);
      WithoutDistinct(Recent(rest), last.id);
      var kept := Without(Recent(rest), last.id);
      WithoutHas(Recent(rest), last.id, last.id);
      assert forall k :: 0 <= k < |kept| ==> kept[k].id != last.id;
    }
  }

  lemma {:induction false} RecentHas(history: seq<Entry>, id: Id)
    ensures Has(Recent(history), id) <==> Has(history, id)
  {
    if history != [] {
      var rest, last := history[..|history| - 1], history[|history| - 1];
      RecentHas(rest, id);
      WithoutHas(Recent(rest), last.id, id);
      HasConcat(Without(Recent(rest), last.id), [last], id);
      assert history == rest + [last];
      HasConcat(rest, [last], id);
      assert Has([last], id) <==> last.id == id by {
        assert [last][0] == last;
      }
    }
  }

  /** Forgetting the oldest entries commutes with remembering one more. */
  lemma WindowStep(entries: seq<Entry>, entry: Entry, maximum: nat)
    requires Distinct(entries)
    ensures TakeLast(Without(TakeLast(entries, maximum), entry.id) + [entry], maximum)
      == TakeLast(Without(entries, entry.id) + [entry], maximum)
  {
    if |entries| > maximum {
      var cut := |entries| - maximum;
      var older, kept := entries[..cut], entries[cut..];
      assert entries == older + kept;
      var a, b := Without(older, entry.id), Without(kept, entry.id);
      assert Without(entries, entry.id) == a + b by {
        WithoutConcat(older, kept, entry.id);
      }
      assert |b| >= maximum - 1 by {
        WindowParts(older, kept, entry.id);
      }
      assert (a + b) + [entry] == a + (b + [entry]);
      TakeLastConcat(a, b + [entry], maximum);
    }
  }

  lemma TakeLastConcat(a: seq<Entry>, b: seq<Entry>, n: nat)
    requires n <= |b|
    ensures TakeLast(a + b, n) == TakeLast(b, n)
  {
  }

  lemma WindowParts(older: seq<Entry>, kept: seq<Entry>, id: Id)
    requires Distinct(older + kept)
    ensures |Without(kept, id)| >= |kept| - 1
  {
    assert Distinct(kept) by {
      assert forall i :: 0 <= i < |kept| ==> kept[i] == (older + kept)[|older| + i];
    }
    if Has(kept, id) {
      var k :| 0 <= k < |kept| && kept[k].id == id;
      WithoutAt(kept, k);
    } else {
      WithoutAbsent(kept, id);
    }
  }

  lemma {:induction false} LookupAt(entries: seq<Entry>, i: nat)
    requires Distinct(entries) && i < |entries|
    ensures Lookup(entries, entries[i].id) == Some(entries[i].number)
  {
    if i > 0 {
      assert entries[0].id != entries[i].id;
      assert entries[1..][i - 1] == entries[i];
      LookupAt(entries[1..], i - 1);
    }
  }

  lemma {:induction false} LookupAbsent(entries: seq<Entry>, id: Id)
    ensures Lookup(entries, id) == None <==> !Has(entries, id)
  {
    if entries != [] {
      HasCons(entries, id);
      LookupAbsent(entries[1..], id);
    }
  }

  /**
   * The exact window: an id that was remembered is still known, with its
   * latest number, iff fewer than `maximum` other ids were remembered since.
   */
  lemma KnownIffRecent(history: seq<Entry>, maximum: nat, i: nat)
    requires i < |Recent(history)|
    ensures Answer(history, maximum, Recent(history)[i].id)
      == if |Recent(history)| - 1 - i < maximum then Some(Recent(history)[i].number) else None
  {
    RecentDistinct(history);
    var all := Recent(history);
    var window := TakeLast(all, maximum);
    var cut := |all| - |window|;
    assert window == all[cut..];
    assert Distinct(window);
    if cut <= i {
      assert window[i - cut] == all[i];
      LookupAt(window, i - cut);
    } else {
      assert forall j :: 0 <= j < |window| ==> window[j] == all[cut + j];
      LookupAbsent(window, all[i].id);
    }
  }

  /** An id that was never remembered is not known. */
  lemma UnknownIfNever(history: seq<Entry>, maximum: nat, id: Id)
    requires !Has(history, id)
    ensures Answer(history, maximum, id) == None
  {
    RecentHas(history, id);
    var all := Recent(history);
    var window := TakeLast(all, maximum);
    var older := all[..|all| - |window|];
    assert all == older + window;
    HasConcat(older, window, id);
    LookupAbsent(window, id);
  }

  /** Ids that were never repeated are kept in commit order. */
  lemma {:induction false} RecentOfFresh(history: seq<Entry>)
    requires Distinct(history)
    ensures Recent(history) == history
  {
    if history != [] {
      var rest, last := history[..|history| - 1], history[|history| - 1];
      RecentOfFresh(rest);
      WithoutAbsent(rest, last.id);
      assert history == rest + [last];
    }
  }

  class RecentEventDeduper {
    const maximum: nat
    var values: seq<Entry>
    ghost var history: seq<Entry>

    ghost predicate Valid()
      reads this
    {
      values == TakeLast(Recent(history), maximum)
    }

    constructor (maximum: nat)
      ensures Valid() && history == [] && this.maximum == maximum
    {
      this.maximum := maximum;
      values, history := [], [];
    }

    method Get(id: Id) returns (number: Option<nat>)
      requires Valid()
      ensures number == Answer(history, maximum, id)
    {
      number := Lookup(values, id);
    }

    /** Remembers `id`, or moves it to the newest place, forgetting the oldest past the limit. */
    method Remember(id: Id, number: nat)
      requires Valid()
      modifies this
      ensures Valid()
      ensures history == old(history) + [Entry(id, number)]
    {
      RecentDistinct(history);
      var entry := Entry(id, number);
      WindowStep(Recent(history), entry, maximum);
      history := history + [entry];
      assert history[..|history| - 1] == old(history);
      if Lookup(values, id).Some? {
        values := Without(values, id);
      } else {
        LookupAbsent(values, id);
        WithoutAbsent(values, id);
      }
      values := values + [entry];
      ghost var grown := values;
      while |values| > maximum
        invariant |values| <= |grown| && values == grown[|grown| - |values|..]
        invariant if |grown| <= maximum then values == grown else |values| >= maximum
        invariant history == old(history) + [entry]
        decreases |values|
      {
        values := values[1..];
      }
      assert values == TakeLast(grown, maximum);
    }
  }
}
