/**
 * The texts of one guest: which of them the log holds, which are on their way
 * on a stream, and why a bounded window of remembered ids is enough to tell
 * the two apart.
 */
module RoomTexts {
  import opened Basics
  import opened RoomTypes
  import opened ReplayBuffer
  import opened EventDeduper
  import opened RoomHost
  import opened RoomNode

  // ---- What a member has written ----

  ghost predicate Increasing(entries: seq<Entry>) {
    forall i, j :: 0 <= i < j < |entries| ==> entries[i].number < entries[j].number
  }

  predicate IsEntry(body: Body, m: Id, id: Id) {
    body.Text? && body.senderId == m && body.clientEventId == id
  }

  lemma {:induction false} WrittenIsLog(log: seq<Event>, m: Id)
    requires Numbered(log)
    ensures var wr := Written(log, m);
            && Increasing(wr)
            && (forall i :: 0 <= i < |wr| ==>
                  1 <= wr[i].number <= |log| && IsEntry(log[wr[i].number - 1].body, m, wr[i].id))
  {
    if log != [] {
      var front := log[..|log| - 1];
      WrittenIsLog(front, m);
      var before, wr := Written(front, m), Written(log, m);
      hide Written;
      forall i | 0 <= i < |wr|
        ensures 1 <= wr[i].number <= |log| && IsEntry(log[wr[i].number - 1].body, m, wr[i].id)
        ensures forall j :: 0 <= j < i ==> wr[j].number < wr[i].number
      {
        if i < |before| {
          assert wr[i] == before[i] && forall j :: 0 <= j < i ==> wr[j] == before[j];
          assert log[before[i].number - 1] == front[before[i].number - 1];
        } else {
          assert forall j :: 0 <= j < i ==> wr[j] == before[j];
        }
      }
    }
  }

  lemma {:induction false} InWritten(log: seq<Event>, m: Id, number: nat)
    requires Numbered(log) && 1 <= number <= |log|
    requires log[number - 1].body.Text? && log[number - 1].body.senderId == m
    ensures var e := Entry(log[number - 1].body.clientEventId, number);
            exists i :: 0 <= i < |Written(log, m)| && Written(log, m)[i] == e
  {
    var wr := Written(log, m);
    if number == |log| {
      assert wr[|wr| - 1] == Entry(log[number - 1].body.clientEventId, number);
    } else {
      InWritten(log[..|log| - 1], m, number);
      var before := Written(log[..|log| - 1], m);
      var i :| 0 <= i < |before| && before[i] == Entry(log[number - 1].body.clientEventId, number);
      assert wr[i] == before[i];
    }
  }

  /** The ids committed after entry `i`. */
  function AfterIds(wr: seq<Entry>, i: nat): set<Id> {
    set j | i < j < |wr| :: wr[j].id
  }

  /** The ids of the texts among frames `lo` up to `hi` of a stream. */
  function IdsIn(up: seq<Up>, lo: nat, hi: nat): set<Id> {
    set k | lo <= k < hi && k < |up| && up[k].TextSubmit? :: up[k].submission.clientEventId
  }

  function IdsOf(pending: seq<Submission>): set<Id> {
    set k | 0 <= k < |pending| :: pending[k].clientEventId
  }

  ghost predicate DistinctSubmissions(pending: seq<Submission>) {
    forall i, j :: 0 <= i < j < |pending| ==> pending[i].clientEventId != pending[j].clientEventId
  }

  // ---- Texts on their way ----

  /** Unread text `k` of a stream the owner still holds: pending if uncommitted, else still within the window. */
  ghost predicate UnreadOk(frames: nat, wr: seq<Entry>, w: Wire, due: set<Id>, k: nat)
    requires k < |w.up| && w.up[k].TextSubmit?
  {
    var id := w.up[k].submission.clientEventId;
    && (!Has(wr, id) ==> id in due)
    && (forall i :: 0 <= i < |wr| && wr[i].id == id ==> |AfterIds(wr, i) + IdsIn(w.up, w.upRead, k + 1)| <= frames)
  }

  ghost predicate UpOk(frames: nat, wr: seq<Entry>, w: Wire, due: set<Id>) {
    forall k :: w.upRead <= k < |w.up| && w.up[k].TextSubmit? ==> UnreadOk(frames, wr, w, due, k)
  }

  ghost predicate UpDistinct(w: Wire, used: set<Id>) {
    && (forall j, k :: 0 <= j < k < |w.up| && w.up[j].TextSubmit? && w.up[k].TextSubmit? ==>
          w.up[j].submission.clientEventId != w.up[k].submission.clientEventId)
    && IdsIn(w.up, 0, |w.up|) <= used
  }

  // ---- Counting ----

  lemma CountSubset(a: set<Id>, b: set<Id>)
    requires a <= b
    ensures |a| <= |b|
  {
    assert b == a + (b - a);
  }

  lemma {:induction false} CountAfter(wr: seq<Entry>, i: nat)
    requires i < |wr| && Distinct(wr)
    ensures |AfterIds(wr, i)| == |wr| - 1 - i
    decreases |wr| - i
  {
    if i == |wr| - 1 {
      assert AfterIds(wr, i) == {};
    } else {
      CountAfter(wr, i + 1);
      assert AfterIds(wr, i) == AfterIds(wr, i + 1) + {wr[i + 1].id};
      assert wr[i + 1].id !in AfterIds(wr, i + 1);
    }
  }

  lemma {:induction false} CountPending(pending: seq<Submission>)
    requires DistinctSubmissions(pending)
    ensures |IdsOf(pending)| == |pending|
  {
    if pending == [] {
      assert IdsOf(pending) == {};
    } else {
      CountPending(pending[1..]);
      IdsCons(pending);
      assert pending[0].clientEventId !in IdsOf(pending[1..]) by {
        assert forall k :: 0 <= k < |pending[1..]| ==> pending[1..][k] == pending[k + 1];
      }
    }
  }

  lemma IdsCons(pending: seq<Submission>)
    requires pending != []
    ensures IdsOf(pending) == {pending[0].clientEventId} + IdsOf(pending[1..])
  {
    forall x | x in IdsOf(pending)
      ensures x in {pending[0].clientEventId} + IdsOf(pending[1..])
    {
      var k :| 0 <= k < |pending| && pending[k].clientEventId == x;
      if k > 0 {
        assert pending[1..][k - 1].clientEventId == x;
      }
    }
    forall x | x in IdsOf(pending[1..])
      ensures x in IdsOf(pending)
    {
      var k :| 0 <= k < |pending[1..]| && pending[1..][k].clientEventId == x;
      assert pending[k + 1].clientEventId == x;
    }
  }

  lemma IdsSnoc(pending: seq<Submission>, last: Submission)
    ensures IdsOf(pending + [last]) == IdsOf(pending) + {last.clientEventId}
  {
    var longer := pending + [last];
    forall x | x in IdsOf(pending) + {last.clientEventId}
      ensures x in IdsOf(longer)
    {
      if x in IdsOf(pending) {
        var k :| 0 <= k < |pending| && pending[k].clientEventId == x;
        assert longer[k].clientEventId == x;
      } else {
        assert longer[|pending|].clientEventId == x;
      }
    }
  }

  lemma {:induction false} DropIds(pending: seq<Submission>, id: Id)
    requires DistinctSubmissions(pending)
    ensures IdsOf(Drop(pending, id)) == IdsOf(pending) - {id}
    ensures DistinctSubmissions(Drop(pending, id))
  {
    if pending == [] {
      assert IdsOf(pending) == {};
    } else {
      var rest := pending[1..];
      assert forall k :: 0 <= k < |rest| ==> rest[k] == pending[k + 1];
      DropIds(rest, id);
      IdsCons(pending);
      assert pending[0].clientEventId !in IdsOf(rest);
      if pending[0].clientEventId != id {
        var dropped := Drop(pending, id);
        assert dropped[1..] == Drop(rest, id);
        IdsCons(dropped);
        assert pending[0].clientEventId !in IdsOf(Drop(rest, id));
        assert forall k :: 0 <= k < |dropped[1..]| ==> dropped[1..][k].clientEventId in IdsOf(dropped[1..]);
      } else {
        assert Drop(pending, id) == Drop(rest, id);
      }
    }
  }

  // ---- The window ----

  /** The first unread text of a held stream is answered from the window exactly if it was committed before. */
  lemma WindowSuffices(frames: nat, window: nat, wr: seq<Entry>, w: Wire, due: set<Id>)
    requires frames <= window && Distinct(wr) && UpOk(frames, wr, w, due)
    requires w.upRead < |w.up| && w.up[w.upRead].TextSubmit?
    ensures var id := w.up[w.upRead].submission.clientEventId;
            Answer(wr, window, id).Some? <==> Has(wr, id)
  {
    var id := w.up[w.upRead].submission.clientEventId;
    assert UnreadOk(frames, wr, w, due, w.upRead);
    if Has(wr, id) {
      var i :| 0 <= i < |wr| && wr[i].id == id;
      RecentOfFresh(wr);
      KnownIffRecent(wr, window, i);
      CountAfter(wr, i);
      var all := AfterIds(wr, i) + IdsIn(w.up, w.upRead, w.upRead + 1);
      assert w.up[w.upRead].submission.clientEventId in IdsIn(w.up, w.upRead, w.upRead + 1);
      assert id !in AfterIds(wr, i);
      CountSubset(AfterIds(wr, i) + {id}, all);
    } else {
      UnknownIfNever(wr, window, id);
    }
  }

  /** Reading further without committing. */
  lemma ReadShrinks(frames: nat, wr: seq<Entry>, w: Wire, read: Wire, due: set<Id>)
    requires UpOk(frames, wr, w, due) && read.up == w.up && w.upRead <= read.upRead
    ensures UpOk(frames, wr, read, due)
  {
    forall k | read.upRead <= k < |read.up| && read.up[k].TextSubmit?
      ensures UnreadOk(frames, wr, read, due, k)
    {
      assert UnreadOk(frames, wr, w, due, k);
      forall i | 0 <= i < |wr| && wr[i].id == w.up[k].submission.clientEventId
        ensures |AfterIds(wr, i) + IdsIn(w.up, read.upRead, k + 1)| <= frames
      {
        CountSubset(AfterIds(wr, i) + IdsIn(w.up, read.upRead, k + 1), AfterIds(wr, i) + IdsIn(w.up, w.upRead, k + 1));
      }
    }
  }

  lemma IdsInHead(up: seq<Up>, lo: nat, hi: nat)
    requires lo < hi && lo < |up| && up[lo].TextSubmit?
    ensures IdsIn(up, lo, hi) == {up[lo].submission.clientEventId} + IdsIn(up, lo + 1, hi)
  {
    assert up[lo].submission.clientEventId in IdsIn(up, lo, hi);
  }

  lemma ReadCommitsOne(frames: nat, wr: seq<Entry>, w: Wire, due: set<Id>, entry: Entry, k: nat)
    requires w.upRead < k < |w.up| && w.up[w.upRead].TextSubmit? && w.up[k].TextSubmit?
    requires UnreadOk(frames, wr, w, due, k)
    requires entry.id == w.up[w.upRead].submission.clientEventId && entry.id != w.up[k].submission.clientEventId
    ensures UnreadOk(frames, wr + [entry], w.(upRead := w.upRead + 1), due, k)
  {
    hide IdsIn, AfterIds, Has;
    var id := w.up[k].submission.clientEventId;
    HasConcat(wr, [entry], id);
    assert Has(wr, id) ==> Has(wr + [entry], id);
    IdsInHead(w.up, w.upRead, k + 1);
    forall i | 0 <= i < |wr + [entry]| && (wr + [entry])[i].id == id
      ensures |AfterIds(wr + [entry], i) + IdsIn(w.up, w.upRead + 1, k + 1)| <= frames
    {
      AfterSnoc(wr, entry, i);
      assert AfterIds(wr, i) + {entry.id} + IdsIn(w.up, w.upRead + 1, k + 1)
        == AfterIds(wr, i) + IdsIn(w.up, w.upRead, k + 1);
    }
  }

  /** Committing the text just read moves it from the unread ids to the committed ones. */
  lemma ReadCommits(frames: nat, wr: seq<Entry>, w: Wire, read: Wire, due: set<Id>, used: set<Id>, entry: Entry)
    requires UpOk(frames, wr, w, due) && UpDistinct(w, used) && w.upRead < |w.up| && w.up[w.upRead].TextSubmit?
    requires entry.id == w.up[w.upRead].submission.clientEventId
    requires read.up == w.up && read.upRead == w.upRead + 1
    ensures UpOk(frames, wr + [entry], read, due)
  {
    hide UnreadOk, IdsIn;
    forall k | w.upRead < k < |w.up| && w.up[k].TextSubmit?
      ensures UnreadOk(frames, wr + [entry], read, due, k)
    {
      ReadCommitsOne(frames, wr, w, due, entry, k);
      SameUnread(frames, wr + [entry], w.(upRead := w.upRead + 1), read, due, k);
    }
  }

  lemma SameUnread(frames: nat, wr: seq<Entry>, w: Wire, v: Wire, due: set<Id>, k: nat)
    requires k < |w.up| && w.up[k].TextSubmit? && UnreadOk(frames, wr, w, due, k)
    requires v.up == w.up && v.upRead == w.upRead
    ensures UnreadOk(frames, wr, v, due, k)
  {
  }

  lemma AfterSnoc(wr: seq<Entry>, entry: Entry, i: nat)
    requires i < |wr|
    ensures AfterIds(wr + [entry], i) == AfterIds(wr, i) + {entry.id}
  {
    var longer := wr + [entry];
    assert longer[|wr|] == entry;
    forall x | x in AfterIds(wr, i)
      ensures x in AfterIds(longer, i)
    {
      var j :| i < j < |wr| && wr[j].id == x;
      assert longer[j].id == x;
    }
  }

  lemma IdsInPrefix(up: seq<Up>, frame: Up, lo: nat, hi: nat)
    requires hi <= |up|
    ensures IdsIn(up + [frame], lo, hi) == IdsIn(up, lo, hi)
  {
    var longer := up + [frame];
    assert forall k :: lo <= k < hi ==> longer[k] == up[k];
  }

  /** Frames written behind a text do not matter to it. */
  lemma EarlierUnread(frames: nat, wr: seq<Entry>, w: Wire, due: set<Id>, more: set<Id>, frame: Up, k: nat)
    requires k < |w.up| && w.up[k].TextSubmit? && UnreadOk(frames, wr, w, due, k)
    ensures (w.up + [frame])[k].TextSubmit?
    ensures UnreadOk(frames, wr, w.(up := w.up + [frame]), due + more, k)
  {
    hide IdsIn, AfterIds, Has;
    IdsInPrefix(w.up, frame, w.upRead, k + 1);
  }

  /** A frame written behind everything unread. */
  lemma UpGrows(frames: nat, wr: seq<Entry>, w: Wire, due: set<Id>, more: set<Id>, frame: Up)
    requires UpOk(frames, wr, w, due)
    requires frame.TextSubmit? ==> UnreadOk(frames, wr, w.(up := w.up + [frame]), due + more, |w.up|)
    ensures UpOk(frames, wr, w.(up := w.up + [frame]), due + more)
  {
    hide UnreadOk, IdsIn, AfterIds;
    var longer := w.(up := w.up + [frame]);
    forall k | longer.upRead <= k < |longer.up| && longer.up[k].TextSubmit?
      ensures UnreadOk(frames, wr, longer, due + more, k)
    {
      if k < |w.up| {
        EarlierUnread(frames, wr, w, due, more, frame, k);
      }
    }
  }

  /** A new text goes behind everything unread. */
  lemma NewTextUnread(frames: nat, wr: seq<Entry>, w: Wire, due: set<Id>, submission: Submission)
    requires UpOk(frames, wr, w, due)
    requires !Has(wr, submission.clientEventId)
    ensures UpOk(frames, wr, w.(up := w.up + [TextSubmit(submission)]), due + {submission.clientEventId})
  {
    UpGrows(frames, wr, w, due, {submission.clientEventId}, TextSubmit(submission));
  }

  lemma IdsInSnoc(up: seq<Up>, frame: Up, lo: nat)
    requires lo <= |up|
    ensures IdsIn(up + [frame], lo, |up| + 1)
      == IdsIn(up, lo, |up|) + if frame.TextSubmit? then {frame.submission.clientEventId} else {}
  {
    var longer := up + [frame];
    assert longer[|up|] == frame;
    forall x | x in IdsIn(up, lo, |up|)
      ensures x in IdsIn(longer, lo, |up| + 1)
    {
      var k :| lo <= k < |up| && up[k].TextSubmit? && up[k].submission.clientEventId == x;
      assert longer[k] == up[k];
    }
  }

  /** A resubmitted text goes behind the rest of its batch. */
  lemma ResentUnread(frames: nat, wr: seq<Entry>, w: Wire, due: set<Id>, submission: Submission, batch: set<Id>)
    requires UpOk(frames, wr, w, due) && w.upRead <= |w.up|
    requires !Has(wr, submission.clientEventId) ==> submission.clientEventId in due
    requires submission.clientEventId in batch && IdsIn(w.up, 0, |w.up|) <= batch
    requires forall i :: 0 <= i < |wr| && wr[i].id == submission.clientEventId ==> |AfterIds(wr, i) + batch| <= frames
    ensures UpOk(frames, wr, w.(up := w.up + [TextSubmit(submission)]), due)
  {
    var longer := w.(up := w.up + [TextSubmit(submission)]);
    var unread := IdsIn(longer.up, w.upRead, |w.up| + 1);
    assert unread <= batch by {
      IdsInSnoc(w.up, TextSubmit(submission), w.upRead);
      assert IdsIn(w.up, w.upRead, |w.up|) <= IdsIn(w.up, 0, |w.up|);
    }
    forall i | 0 <= i < |wr| && wr[i].id == submission.clientEventId
      ensures |AfterIds(wr, i) + unread| <= frames
    {
      CountSubset(AfterIds(wr, i) + unread, AfterIds(wr, i) + batch);
    }
    assert due + {} == due;
    UpGrows(frames, wr, w, due, {}, TextSubmit(submission));
  }

  lemma SameDistinct(w: Wire, v: Wire, used: set<Id>)
    requires v.up == w.up
    ensures UpDistinct(w, used) <==> UpDistinct(v, used)
  {
  }

  lemma SilentStream(w: Wire, used: set<Id>, frames: nat, wr: seq<Entry>, due: set<Id>)
    ensures w.up == [] ==> UpDistinct(w, used) && UpOk(frames, wr, w, due)
  {
  }

  lemma TextIn(up: seq<Up>, k: nat)
    requires k < |up| && up[k].TextSubmit?
    ensures up[k].submission.clientEventId in IdsIn(up, 0, |up|)
  {
  }

  /** A text of the batch was committed: it is not among the rest, and the window of the rest stays as wide. */
  lemma RestWindow(frames: nat, wr: seq<Entry>, entry: Entry, sent: set<Id>, rest: set<Id>)
    requires entry.id in sent && sent !! rest
    requires forall i :: 0 <= i < |wr| && wr[i].id in rest ==> |AfterIds(wr, i) + sent + rest| <= frames
    ensures forall i :: 0 <= i < |wr + [entry]| && (wr + [entry])[i].id in rest ==>
      |AfterIds(wr + [entry], i) + sent + rest| <= frames
    ensures forall x :: Has(wr, x) ==> Has(wr + [entry], x)
  {
    hide AfterIds;
    forall i | 0 <= i < |wr + [entry]| && (wr + [entry])[i].id in rest
      ensures |AfterIds(wr + [entry], i) + sent + rest| <= frames
    {
      AfterSnoc(wr, entry, i);
      assert AfterIds(wr + [entry], i) + sent + rest == AfterIds(wr, i) + sent + rest;
    }
    forall x | Has(wr, x)
      ensures Has(wr + [entry], x)
    {
      HasConcat(wr, [entry], x);
    }
  }

  lemma FirstUnread(frames: nat, wr: seq<Entry>, w: Wire, due: set<Id>, used: set<Id>)
    requires UpOk(frames, wr, w, due) && UpDistinct(w, used) && w.upRead < |w.up| && w.up[w.upRead].TextSubmit?
    ensures var id := w.up[w.upRead].submission.clientEventId;
            id in used && (!Has(wr, id) ==> id in due)
  {
    assert UnreadOk(frames, wr, w, due, w.upRead);
    TextIn(w.up, w.upRead);
  }

  /** Fewer texts due, but none that is still uncommitted. */
  lemma UpPendingShrinks(frames: nat, wr: seq<Entry>, w: Wire, due: set<Id>, fewer: set<Id>)
    requires UpOk(frames, wr, w, due)
    requires forall x :: x in due && !Has(wr, x) ==> x in fewer
    ensures UpOk(frames, wr, w, fewer)
  {
    hide Has, IdsIn, AfterIds;
    forall k | w.upRead <= k < |w.up| && w.up[k].TextSubmit?
      ensures UnreadOk(frames, wr, w, fewer, k)
    {
      assert UnreadOk(frames, wr, w, due, k);
    }
  }

  lemma DistinctSnoc(w: Wire, frame: Up, used: set<Id>, more: set<Id>)
    requires UpDistinct(w, used) && used <= more
    requires frame.TextSubmit? ==>
      frame.submission.clientEventId in more && frame.submission.clientEventId !in IdsIn(w.up, 0, |w.up|)
    ensures UpDistinct(w.(up := w.up + [frame]), more)
    ensures UpDistinct(w, more)
  {
    IdsInSnoc(w.up, frame, 0);
    forall j | 0 <= j < |w.up| && w.up[j].TextSubmit?
      ensures w.up[j].submission.clientEventId in IdsIn(w.up, 0, |w.up|)
    {
    }
    hide IdsIn;
  }

  lemma UpPendingGrows(frames: nat, wr: seq<Entry>, w: Wire, due: set<Id>, more: set<Id>)
    requires UpOk(frames, wr, w, due) && due <= more
    ensures UpOk(frames, wr, w, more)
  {
    UpPendingShrinks(frames, wr, w, due, more);
  }

  lemma MoreUsed(w: Wire, used: set<Id>, more: set<Id>)
    requires UpDistinct(w, used) && used <= more
    ensures UpDistinct(w, more)
  {
  }

  lemma RestDistinct(rest: seq<Submission>)
    requires rest != [] && DistinctSubmissions(rest)
    ensures DistinctSubmissions(rest[1..]) && rest[0].clientEventId !in IdsOf(rest[1..])
  {
  }

  /** A text that is not on its way need not be due. */
  lemma UpDrops(frames: nat, wr: seq<Entry>, w: Wire, due: set<Id>, id: Id)
    requires UpOk(frames, wr, w, due) && id !in IdsIn(w.up, w.upRead, |w.up|)
    ensures UpOk(frames, wr, w, due - {id})
  {
    forall k | w.upRead <= k < |w.up| && w.up[k].TextSubmit?
      ensures UnreadOk(frames, wr, w, due - {id}, k)
    {
      assert UnreadOk(frames, wr, w, due, k);
      assert w.up[k].submission.clientEventId in IdsIn(w.up, w.upRead, |w.up|);
    }
  }

  /** What was read is not on its way again. */
  lemma ReadIsNotUnread(w: Wire, used: set<Id>, id: Id)
    requires UpDistinct(w, used) && w.upRead <= |w.up| && id in IdsIn(w.up, 0, w.upRead)
    ensures id !in IdsIn(w.up, w.upRead, |w.up|)
  {
    var j :| 0 <= j < w.upRead && w.up[j].TextSubmit? && w.up[j].submission.clientEventId == id;
  }

  lemma NextIsNotRead(w: Wire, used: set<Id>)
    requires UpDistinct(w, used) && w.upRead < |w.up| && w.up[w.upRead].TextSubmit?
    ensures w.up[w.upRead].submission.clientEventId !in IdsIn(w.up, 0, w.upRead)
  {
  }

  // ---- What the window holds, whatever was repeated ----

  function Ids(entries: seq<Entry>): set<Id> {
    set k | 0 <= k < |entries| :: entries[k].id
  }

  lemma {:induction false} CountIds(entries: seq<Entry>)
    requires Distinct(entries)
    ensures |Ids(entries)| == |entries|
  {
    if entries == [] {
      assert Ids(entries) == {};
    } else {
      var front, last := entries[..|entries| - 1], entries[|entries| - 1];
      CountIds(front);
      assert entries == front + [last];
      assert Ids(entries) == Ids(front) + {last.id};
      assert last.id !in Ids(front);
    }
  }

  lemma IdsHas(entries: seq<Entry>, id: Id)
    ensures id in Ids(entries) <==> Has(entries, id)
  {
  }

  /** The last entry of its id has, in the order of latest use, exactly the ids used after it behind it. */
  lemma {:induction false} RecentSplits(history: seq<Entry>, i: nat) returns (a: seq<Entry>, b: seq<Entry>)
    requires i < |history| && forall j :: i < j < |history| ==> history[j].id != history[i].id
    ensures Recent(history) == a + [history[i]] + b && Ids(b) == AfterIds(history, i)
  {
    var front, last := history[..|history| - 1], history[|history| - 1];
    if i == |history| - 1 {
      a, b := Without(Recent(front), last.id), [];
      assert Ids(b) == {} && AfterIds(history, i) == {};
      assert a + [last] == a + [last] + [];
    } else {
      var a', b' := RecentSplits(front, i);
      WithoutConcat(a' + [history[i]], b', last.id);
      WithoutConcat(a', [history[i]], last.id);
      assert Without([history[i]], last.id) == [history[i]] by {
        assert [history[i]][1..] == [];
      }
      a, b := Without(a', last.id), Without(b', last.id) + [last];
      assert Recent(history) == a + [history[i]] + b;
      assert history == front + [last];
      AfterSnoc(front, last, i);
      forall x
        ensures x in Ids(b) <==> x in AfterIds(history, i)
      {
        IdsHas(b, x);
        HasConcat(Without(b', last.id), [last], x);
        WithoutHas(b', last.id, x);
        IdsHas(b', x);
        assert Has([last], x) <==> last.id == x by {
          assert [last][0] == last;
        }
      }
    }
  }

  /** The id was used with fewer than `window` other ids used since. */
  ghost predicate Remembered(wr: seq<Entry>, window: nat, id: Id) {
    exists i :: 0 <= i < |wr| && LastOf(wr, i, id) && |AfterIds(wr, i)| < window
  }

  ghost predicate LastOf(wr: seq<Entry>, i: nat, id: Id)
    requires i < |wr|
  {
    wr[i].id == id && forall j :: i < j < |wr| ==> wr[j].id != id
  }

  lemma {:induction false} LastUse(wr: seq<Entry>, id: Id) returns (i: nat)
    requires Has(wr, id)
    ensures i < |wr| && LastOf(wr, i, id)
  {
    var front, last := wr[..|wr| - 1], wr[|wr| - 1];
    if last.id == id {
      i := |wr| - 1;
    } else {
      assert wr == front + [last];
      HasConcat(front, [last], id);
      i := LastUse(front, id);
    }
  }

  /** What a deduplicator answers, in terms of the whole history. */
  lemma AnswerMeans(wr: seq<Entry>, window: nat, id: Id)
    ensures Answer(wr, window, id).Some? <==> Remembered(wr, window, id)
    ensures forall i :: 0 <= i < |wr| && LastOf(wr, i, id) && Answer(wr, window, id).Some? ==>
      Answer(wr, window, id) == Some(wr[i].number)
  {
    if Has(wr, id) {
      var i := LastUse(wr, id);
      var a, b := RecentSplits(wr, i);
      RecentDistinct(wr);
      assert forall k :: 0 <= k < |b| ==> b[k] == Recent(wr)[|a| + 1 + k];
      CountIds(b);
      assert Recent(wr)[|a|] == wr[i];
      hide Recent, Answer;
      KnownIffRecent(wr, window, |a|);
      forall j | 0 <= j < |wr| && LastOf(wr, j, id)
        ensures j == i
      {
      }
    } else {
      UnknownIfNever(wr, window, id);
    }
  }
}
