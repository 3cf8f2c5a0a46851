/**
 * The rendered messages of a chat: texts shown before the owner committed
 * them, committed ones in canonical order, and an eviction by age.
 */
module MessageList {

  datatype Delivery = Plain | Sending | Reconnecting | Failed | Delivered

  datatype Message = Message(
    id: nat,
    ordinal: nat,
    group: bool,
    groupOrdered: bool,
    localOnly: bool,
    state: Delivery,
    bytes: nat)

  /** Part of the room's common history. */
  predicate Committed(m: Message) {
    m.groupOrdered && !m.localOnly && m.state != Failed
  }

  /** May `a` be shown anywhere before `b`? */
  predicate MayPrecede(a: Message, b: Message) {
    && a.ordinal != b.ordinal && a.id != b.id
    && !(a.localOnly && Committed(b))
    && (Committed(a) && Committed(b) ==> a.ordinal < b.ordinal)
  }

  /** Nothing committed follows a pending text, and what is committed is in the order it was committed in. */
  ghost predicate Canonical(ms: seq<Message>) {
    forall i, j :: 0 <= i < j < |ms| ==> MayPrecede(ms[i], ms[j])
  }

  function Retained(ms: seq<Message>): nat {
    if ms == [] then 0 else ms[0].bytes + Retained(ms[1..])
  }

  predicate WithinCaps(ms: seq<Message>, maxItems: nat, maxBytes: nat) {
    |ms| <= maxItems && Retained(ms) <= maxBytes
  }

  function Without(ms: seq<Message>, k: nat): seq<Message>
    requires k < |ms|
  {
    ms[..k] + ms[k + 1..]
  }

  function With(ms: seq<Message>, k: nat, m: Message): seq<Message>
    requires k <= |ms|
  {
    ms[..k] + [m] + ms[k..]
  }

  lemma {:induction false} RetainedConcat(a: seq<Message>, b: seq<Message>)
    ensures Retained(a + b) == Retained(a) + Retained(b)
  {
    if a == [] {
      assert a + b == b;
    } else {
      assert (a + b)[1..] == a[1..] + b;
      RetainedConcat(a[1..], b);
    }
  }

  lemma RetainedMiddle(a: seq<Message>, m: Message, b: seq<Message>)
    ensures Retained(a + [m] + b) == Retained(a) + m.bytes + Retained(b)
  {
    RetainedConcat(a + [m], b);
    RetainedConcat(a, [m]);
  }

  lemma RetainedWithout(ms: seq<Message>, k: nat)
    requires k < |ms|
    ensures Retained(Without(ms, k)) == Retained(ms) - ms[k].bytes
  {
    hide Retained;
    assert ms == ms[..k] + [ms[k]] + ms[k + 1..];
    RetainedMiddle(ms[..k], ms[k], ms[k + 1..]);
    RetainedConcat(ms[..k], ms[k + 1..]);
  }

  lemma RetainedWith(ms: seq<Message>, k: nat, m: Message)
    requires k <= |ms|
    ensures Retained(With(ms, k, m)) == Retained(ms) + m.bytes
  {
    hide Retained;
    assert ms == ms[..k] + ms[k..];
    RetainedMiddle(ms[..k], m, ms[k..]);
    RetainedConcat(ms[..k], ms[k..]);
  }

  lemma WithoutCanonical(ms: seq<Message>, k: nat)
    requires k < |ms| && Canonical(ms)
    ensures Canonical(Without(ms, k))
  {
    hide MayPrecede;
    var w := Without(ms, k);
    forall i, j | 0 <= i < j < |w|
      ensures MayPrecede(w[i], w[j])
    {
      var i', j' := if i < k then i else i + 1, if j < k then j else j + 1;
      assert w[i] == ms[i'] && w[j] == ms[j'];
    }
  }

  lemma WithCanonical(ms: seq<Message>, k: nat, m: Message)
    requires k <= |ms| && Canonical(ms)
    requires forall i :: 0 <= i < k ==> MayPrecede(ms[i], m)
    requires forall i :: k <= i < |ms| ==> MayPrecede(m, ms[i])
    ensures Canonical(With(ms, k, m))
  {
    hide MayPrecede;
    var w := With(ms, k, m);
    forall i, j | 0 <= i < j < |w|
      ensures MayPrecede(w[i], w[j])
    {
      assert i < k ==> w[i] == ms[i];
      assert i > k ==> w[i] == ms[i - 1];
      assert j < k ==> w[j] == ms[j];
      assert j > k ==> w[j] == ms[j - 1];
    }
  }

  // ---- The place of a committed message ----

  /** The first text that is still pending, or the end. */
  function FirstLocal(ms: seq<Message>): (k: nat)
    ensures k <= |ms| && (forall i :: 0 <= i < k ==> !ms[i].localOnly) && (k < |ms| ==> ms[k].localOnly)
  {
    if ms == [] || ms[0].localOnly then 0
    else
      var k := FirstLocal(ms[1..]);
      assert forall i :: 0 < i < k + 1 ==> ms[i] == ms[1..][i - 1];
      k + 1
  }

  lemma FirstLocalIs(ms: seq<Message>, k: nat)
    requires k <= |ms| && (forall i :: 0 <= i < k ==> !ms[i].localOnly) && (k < |ms| ==> ms[k].localOnly)
    ensures FirstLocal(ms) == k
  {
  }

  /** A committed message, newer than everything, goes in front of the pending texts. */
  lemma CommittedFits(ms: seq<Message>, m: Message)
    requires Canonical(ms) && !m.localOnly
    requires forall i :: 0 <= i < |ms| ==> ms[i].ordinal < m.ordinal && ms[i].id != m.id
    ensures Canonical(With(ms, FirstLocal(ms), m))
  {
    var k := FirstLocal(ms);
    forall i | k <= i < |ms|
      ensures MayPrecede(m, ms[i])
    {
      assert k < i ==> MayPrecede(ms[k], ms[i]);
    }
    WithCanonical(ms, k, m);
  }

  lemma UncommittedFits(ms: seq<Message>, m: Message)
    requires Canonical(ms) && !Committed(m)
    requires forall i :: 0 <= i < |ms| ==> ms[i].ordinal < m.ordinal && ms[i].id != m.id
    ensures Canonical(With(ms, |ms|, m))
  {
    WithCanonical(ms, |ms|, m);
  }

  // ---- Eviction ----

  predicate Oldest(ms: seq<Message>, k: nat) {
    k < |ms| && forall i :: 0 <= i < |ms| ==> ms[k].ordinal <= ms[i].ordinal
  }

  function OldestOf(ms: seq<Message>): (k: nat)
    requires ms != []
    ensures Oldest(ms, k)
  {
    if |ms| == 1 then 0
    else
      var k := OldestOf(ms[1..]);
      assert forall i :: 0 < i < |ms| ==> ms[i] == ms[1..][i - 1];
      if ms[1..][k].ordinal < ms[0].ordinal then k + 1 else 0
  }

  lemma OldestIsUnique(ms: seq<Message>, k: nat, l: nat)
    requires Canonical(ms) && Oldest(ms, k) && Oldest(ms, l)
    ensures k == l
  {
    assert k < l ==> MayPrecede(ms[k], ms[l]);
    assert l < k ==> MayPrecede(ms[l], ms[k]);
  }

  /** Dropping the oldest message until both caps are met. */
  function Evict(ms: seq<Message>, maxItems: nat, maxBytes: nat): seq<Message>
    decreases |ms|
  {
    if ms == [] || WithinCaps(ms, maxItems, maxBytes) then ms
    else Evict(Without(ms, OldestOf(ms)), maxItems, maxBytes)
  }

  /** What is left is in its old order and within the caps, and everything evicted is older than everything left. */
  lemma {:induction false} EvictedAreOldest(ms: seq<Message>, maxItems: nat, maxBytes: nat)
    requires Canonical(ms)
    ensures var left := Evict(ms, maxItems, maxBytes);
            && Canonical(left) && WithinCaps(left, maxItems, maxBytes)
            && (forall m :: m in left ==> m in ms)
            && (forall m, e :: m in left && e in ms && e !in left ==> e.ordinal < m.ordinal)
    decreases |ms|
  {
    if ms != [] && !WithinCaps(ms, maxItems, maxBytes) {
      var k := OldestOf(ms);
      var fewer := Without(ms, k);
      WithoutCanonical(ms, k);
      EvictedAreOldest(fewer, maxItems, maxBytes);
      InWithout(ms, k);
      OlderThanRest(ms, k);
    }
  }

  lemma InWithout(ms: seq<Message>, k: nat)
    requires k < |ms|
    ensures forall m :: m in Without(ms, k) ==> m in ms
    ensures forall m :: m in ms ==> m in Without(ms, k) || m == ms[k]
  {
    assert ms == ms[..k] + [ms[k]] + ms[k + 1..];
  }

  lemma OlderThanRest(ms: seq<Message>, k: nat)
    requires Canonical(ms) && Oldest(ms, k)
    ensures forall m :: m in Without(ms, k) ==> ms[k].ordinal < m.ordinal
  {
    forall m | m in Without(ms, k)
      ensures ms[k].ordinal < m.ordinal
    {
      var i :| 0 <= i < |Without(ms, k)| && Without(ms, k)[i] == m;
      var i' := if i < k then i else i + 1;
      assert ms[i'] == m;
      assert i' < k ==> MayPrecede(ms[i'], ms[k]);
      assert k < i' ==> MayPrecede(ms[k], ms[i']);
    }
  }

  /** Nothing is evicted without need: with the youngest evicted message put back, a cap would be exceeded. */
  lemma {:induction false} EvictsNoMore(ms: seq<Message>, maxItems: nat, maxBytes: nat) returns (last: seq<Message>)
    requires Evict(ms, maxItems, maxBytes) != ms
    ensures last != [] && !WithinCaps(last, maxItems, maxBytes)
    ensures Evict(ms, maxItems, maxBytes) == Without(last, OldestOf(last))
    decreases |ms|
  {
    var fewer := Without(ms, OldestOf(ms));
    if Evict(fewer, maxItems, maxBytes) == fewer {
      last := ms;
    } else {
      last := EvictsNoMore(fewer, maxItems, maxBytes);
    }
  }

  // ---- Changes in place ----

  function Updated(m: Message, state: Delivery): Message {
    m.(state := state, localOnly := m.group && (state == Sending || state == Reconnecting))
  }

  /** A message that is not committed before or after may change where it is. */
  lemma UpdateKeeps(ms: seq<Message>, k: nat, m: Message)
    requires k < |ms| && Canonical(ms) && !Committed(m) && m.ordinal == ms[k].ordinal && m.id == ms[k].id
    requires m.localOnly ==> ms[k].localOnly
    ensures Canonical(ms[k := m])
  {
    var after := ms[k := m];
    forall i, j | 0 <= i < j < |after|
      ensures MayPrecede(after[i], after[j])
    {
      assert MayPrecede(ms[i], ms[j]);
    }
  }

  lemma RetainedUpdate(ms: seq<Message>, k: nat, m: Message)
    requires k < |ms| && m.bytes == ms[k].bytes
    ensures Retained(ms[k := m]) == Retained(ms)
  {
    hide Retained;
    assert ms == ms[..k] + [ms[k]] + ms[k + 1..];
    assert ms[k := m] == ms[..k] + [m] + ms[k + 1..];
    RetainedMiddle(ms[..k], ms[k], ms[k + 1..]);
    RetainedMiddle(ms[..k], m, ms[k + 1..]);
  }

  class RenderedMessages {
    const maxItems: nat
    const maxBytes: nat
    var messages: seq<Message>
    var bytes: int
    var ordinal: nat
    var created: nat
    /** The pending texts by client event id. */
    var drafts: map<nat, nat>

    /** A message that a draft stands for is a pending text as long as it is shown. */
    ghost predicate DraftsPending()
      reads this
    {
      && (forall c, i :: c in drafts && 0 <= i < |messages| && messages[i].id == drafts[c] ==> messages[i].localOnly)
      && (forall c :: c in drafts ==> drafts[c] < created)
      && (forall c, d :: c in drafts && d in drafts && c != d ==> drafts[c] != drafts[d])
    }

    ghost predicate Listed()
      reads this
    {
      && Canonical(messages)
      && (forall i :: 0 <= i < |messages| ==> messages[i].ordinal <= ordinal && messages[i].id < created)
      && (forall i :: 0 <= i < |messages| && messages[i].localOnly ==> messages[i].group && messages[i].groupOrdered)
      && bytes == Retained(messages)
    }

    ghost predicate Valid()
      reads this
    {
      Listed() && DraftsPending() && WithinCaps(messages, maxItems, maxBytes)
    }

    constructor (maxItems: nat, maxBytes: nat)
      ensures Valid() && messages == [] && drafts == map[] && this.maxItems == maxItems && this.maxBytes == maxBytes
    {
      this.maxItems, this.maxBytes := maxItems, maxBytes;
      messages, bytes, ordinal, created, drafts := [], 0, 0, 0, map[];
    }

    method FindLocal() returns (k: nat)
      ensures k == FirstLocal(messages)
    {
      k := 0;
      while k < |messages| && !messages[k].localOnly
        invariant k <= |messages| && forall i :: 0 <= i < k ==> !messages[i].localOnly
      {
        k := k + 1;
      }
      FirstLocalIs(messages, k);
    }

    method FindOldest() returns (k: nat)
      requires messages != [] && Canonical(messages)
      ensures k == OldestOf(messages)
    {
      k := 0;
      for i := 1 to |messages|
        invariant k < i && forall j :: 0 <= j < i ==> messages[k].ordinal <= messages[j].ordinal
      {
        if messages[i].ordinal < messages[k].ordinal {
          k := i;
        }
      }
      OldestIsUnique(messages, k, OldestOf(messages));
    }

    method RemoveAt(k: nat)
      requires Listed() && k < |messages|
      modifies this`messages, this`bytes
      ensures Listed() && messages == Without(old(messages), k)
    {
      hide Canonical, Retained;
      RetainedWithout(messages, k);
      WithoutCanonical(messages, k);
      bytes := bytes - messages[k].bytes;
      messages := messages[..k] + messages[k + 1..];
    }

    /** Removes the oldest messages, one by one, while a cap is exceeded. */
    method EvictOldest()
      requires Listed()
      modifies this`messages, this`bytes
      ensures Listed() && messages == Evict(old(messages), maxItems, maxBytes)
    {
      while |messages| > maxItems || bytes > maxBytes
        invariant Listed()
        invariant Evict(messages, maxItems, maxBytes) == Evict(old(messages), maxItems, maxBytes)
        decreases |messages|
      {
        var oldest := FindOldest();
        RemoveAt(oldest);
      }
    }

    /** The newest message goes last, but a committed one in front of the pending texts. */
    method InsertRenderedMessage(m: Message)
      requires Listed() && m.ordinal == ordinal && m.id < created
      requires forall i :: 0 <= i < |messages| ==> messages[i].ordinal < m.ordinal && messages[i].id != m.id
      requires m.localOnly ==> m.group && m.groupOrdered
      modifies this`messages, this`bytes
      ensures Listed()
      ensures messages == if m.groupOrdered && !m.localOnly then With(old(messages), FirstLocal(old(messages)), m)
                          else old(messages) + [m]
    {
      hide Canonical, Retained, MayPrecede, FirstLocal;
      var k := |messages|;
      if m.groupOrdered && !m.localOnly {
        k := FindLocal();
        CommittedFits(messages, m);
      } else {
        UncommittedFits(messages, m);
      }
      RetainedWith(messages, k, m);
      assert With(messages, |messages|, m) == messages + [m];
      messages := messages[..k] + [m] + messages[k..];
      bytes := bytes + m.bytes;
    }

    method AddMessage(group: bool, mine: bool, groupOrdered: bool, state: Delivery, size: nat) returns (id: nat)
      requires Valid()
      requires group && mine && (state == Sending || state == Reconnecting) ==> groupOrdered
      modifies this`messages, this`bytes, this`ordinal, this`created
      ensures Valid() && id == old(created) && created == old(created) + 1 && ordinal == old(ordinal) + 1
      ensures var m := Message(id, ordinal, group, groupOrdered,
                               group && mine && (state == Sending || state == Reconnecting), state, 256 + size);
              && messages == Evict(if groupOrdered && !m.localOnly
                                   then With(old(messages), FirstLocal(old(messages)), m)
                                   else old(messages) + [m], maxItems, maxBytes)
              && forall x :: x in messages ==> x in old(messages) || x == m
    {
      hide Canonical, Retained, MayPrecede, Evict, WithinCaps, With, FirstLocal;
      id := created;
      ordinal := ordinal + 1;
      created := created + 1;
      var m := Message(id, ordinal, group, groupOrdered,
                       group && mine && (state == Sending || state == Reconnecting), state, 256 + size);
      ghost var k := if groupOrdered && !m.localOnly then FirstLocal(messages) else |messages|;
      AtEnd(messages, m);
      InsertRenderedMessage(m);
      ghost var all := messages;
      EvictOldest();
      EvictedAreOldest(all, maxItems, maxBytes);
      OldDrafts(old(messages), k, m, messages);
      StillPending(old(messages), m, messages, drafts);
    }

    method FindMessage(id: nat) returns (k: nat)
      ensures k <= |messages| && (k < |messages| ==> messages[k].id == id)
      ensures k == |messages| ==> forall i :: 0 <= i < |messages| ==> messages[i].id != id
    {
      k := 0;
      while k < |messages| && messages[k].id != id
        invariant k <= |messages| && forall i :: 0 <= i < k ==> messages[i].id != id
      {
        k := k + 1;
      }
    }

    /** A pending text was committed: it gets a new age and goes behind everything committed before it. */
    method MoveToCommittedTail(k: nat)
      requires Listed() && k < |messages| && messages[k].localOnly
      modifies this`messages, this`bytes, this`ordinal
      ensures Listed() && ordinal == old(ordinal) + 1
      ensures var m := Updated(old(messages)[k], Delivered).(ordinal := ordinal);
              var rest := Without(old(messages), k);
              Committed(m) && messages == With(rest, FirstLocal(rest), m)
    {
      hide Canonical, Retained, MayPrecede, FirstLocal;
      ordinal := ordinal + 1;
      var m := Updated(messages[k], Delivered).(ordinal := ordinal);
      OthersDiffer(messages, k);
      RemoveAt(k);
      InsertRenderedMessage(m);
    }

    /** May this message still change its delivery state? Committed ones and other people's may not. */
    predicate Changeable(m: Message) {
      m.localOnly || (!m.group && !m.groupOrdered)
    }

    method UpdateInPlace(k: nat, state: Delivery)
      requires Valid() && k < |messages| && Changeable(messages[k]) && (messages[k].group ==> state != Delivered)
      requires state != Plain && (state == Failed ==> forall c :: c in drafts ==> drafts[c] != messages[k].id)
      modifies this`messages
      ensures Valid() && messages == old(messages)[k := Updated(old(messages)[k], state)]
    {
      var m := Updated(messages[k], state);
      StillUncommitted(messages[k], state);
      RetainedUpdate(messages, k, m);
      UpdateKeeps(messages, k, m);
      hide Canonical, Retained, MayPrecede;
      messages := messages[k := m];
    }

    /** The new delivery state of a message, if it is still shown; a committed text moves. */
    method UpdateMessageDelivery(id: nat, state: Delivery) returns (shown: bool)
      requires Valid() && state != Plain
      requires forall i :: 0 <= i < |messages| && messages[i].id == id ==> Changeable(messages[i])
      requires state == Failed || state == Delivered ==> forall c :: c in drafts ==> drafts[c] != id
      modifies this`messages, this`bytes, this`ordinal
      ensures Valid() && shown == Shows(old(messages), id)
      ensures !shown ==> messages == old(messages) && ordinal == old(ordinal)
      ensures forall k :: 0 <= k < |old(messages)| && old(messages)[k].id == id ==>
        if state == Delivered && old(messages)[k].group
        then Moved(old(messages), messages, k, ordinal) && ordinal == old(ordinal) + 1
        else Changed(old(messages), messages, k, state) && ordinal == old(ordinal)
    {
      hide Canonical, Retained, MayPrecede, FirstLocal;
      var k := FindMessage(id);
      if k == |messages| {
        return false;
      }
      OnlyOne(messages, k);
      if state == Delivered && messages[k].group {
        ghost var before := messages;
        MoveToCommittedTail(k);
        SameCaps(before, k, messages, Updated(before[k], Delivered).(ordinal := ordinal), maxItems, maxBytes);
      } else {
        UpdateInPlace(k, state);
      }
      return true;
    }

    // ---- Texts of this participant ----

    /** A text is shown before it is committed. */
    method Submit(clientEventId: nat, size: nat) returns (id: nat)
      requires Valid() && clientEventId !in drafts
      modifies this
      ensures Valid() && drafts == old(drafts)[clientEventId := id]
      ensures var m := Message(id, ordinal, true, true, true, Sending, 256 + size);
              messages == Evict(old(messages) + [m], maxItems, maxBytes)
    {
      hide Canonical, Retained, MayPrecede, Evict, WithinCaps, FirstLocal, With;
      ghost var m := Message(created, ordinal + 1, true, true, true, Sending, 256 + size);
      id := AddMessage(true, true, true, Sending, size);
      AtEnd(old(messages), m);
      NewDraft(old(messages), m, messages);
      drafts := drafts[clientEventId := id];
    }

    /**
     * The log carries this participant's text: the pending one is committed in
     * place of a new one, if it is the same text. A pending text that differs
     * is shown as failed, and the committed one is added like any other.
     */
    method RenderOwnEvent(clientEventId: nat, sameText: bool, size: nat)
      requires Valid()
      modifies this
      ensures Valid() && drafts == old(drafts) - {clientEventId} && ordinal == old(ordinal) + 1
      ensures var draft := clientEventId in old(drafts) && Shows(old(messages), old(drafts)[clientEventId]);
              if draft && sameText then
                forall k :: 0 <= k < |old(messages)| && old(messages)[k].id == old(drafts)[clientEventId] ==>
                  Moved(old(messages), messages, k, ordinal)
              else
                exists base ::
                  && (if draft then FailedIn(old(messages), base, old(drafts)[clientEventId])
                      else base == old(messages))
                  && messages == Evict(With(base, FirstLocal(base),
                                            Message(old(created), ordinal, true, true, false, Delivered, 256 + size)),
                                       maxItems, maxBytes)
    {
      hide Canonical, Retained, MayPrecede, Evict, WithinCaps, FirstLocal, With, Without;
      var shown := false;
      if clientEventId in drafts {
        var id := drafts[clientEventId];
        drafts := drafts - {clientEventId};
        shown := UpdateMessageDelivery(id, if sameText then Delivered else Failed);
        if !sameText {
          FailedAt(old(messages), messages, id);
        }
        shown := shown && sameText;
      }
      if !shown {
        var added := AddMessage(true, true, true, Delivered, size);
      }
    }

    /** The text could not be sent: its message, if it is still shown, stays where it is and says so. */
    method FailDraft(clientEventId: nat)
      requires Valid()
      modifies this
      ensures Valid() && drafts == old(drafts) - {clientEventId} && ordinal == old(ordinal)
      ensures if clientEventId in old(drafts) then FailedIn(old(messages), messages, old(drafts)[clientEventId])
              else messages == old(messages)
    {
      hide Canonical, Retained, MayPrecede, Evict, WithinCaps, FirstLocal, With, Without;
      if clientEventId in drafts {
        var id := drafts[clientEventId];
        drafts := drafts - {clientEventId};
        var shown := UpdateMessageDelivery(id, Failed);
        FailedAt(old(messages), messages, id);
      }
    }

    /** One pending text changes its state where it is; those of `done` have changed theirs since `first`. */
    method UpdatePendingMessage(clientEventId: nat, state: Delivery, ghost first: seq<Message>, ghost done: set<nat>)
      requires Valid() && (state == Sending || state == Reconnecting) && clientEventId in drafts
      requires Restated(first, messages, drafts, done, state)
      modifies this`messages, this`bytes, this`ordinal
      ensures Valid() && ordinal == old(ordinal)
      ensures Restated(first, messages, drafts, done + {clientEventId}, state)
    {
      hide Canonical, Retained, MayPrecede, WithinCaps, Restated, Changed, Moved;
      ghost var before := messages;
      var shown := UpdateMessageDelivery(drafts[clientEventId], state);
      OneRestated(first, before, messages, drafts, done, clientEventId, state);
    }

    /** Every pending text shows that the room is being reconnected, or that it is being sent again. */
    method UpdatePendingMessages(state: Delivery)
      requires Valid() && (state == Sending || state == Reconnecting)
      modifies this`messages, this`bytes, this`ordinal
      ensures Valid() && ordinal == old(ordinal)
      ensures Restated(old(messages), messages, drafts, drafts.Keys, state)
    {
      hide Canonical, Retained, MayPrecede, WithinCaps, Restated;
      var todo := drafts.Keys;
      ghost var done: set<nat> := {};
      NothingRestated(messages, drafts, state);
      while todo != {}
        invariant Valid() && done + todo == drafts.Keys && ordinal == old(ordinal)
        invariant Restated(old(messages), messages, drafts, done, state)
        decreases |todo|
      {
        var c :| c in todo;
        UpdatePendingMessage(c, state, old(messages), done);
        todo := todo - {c};
        done := done + {c};
      }
    }
  }

  /** Exactly the messages of these drafts are shown in a new state, in their places. */
  ghost predicate Restated(before: seq<Message>, after: seq<Message>, drafts: map<nat, nat>, done: set<nat>,
                           state: Delivery) {
    && |after| == |before|
    && forall i :: 0 <= i < |before| ==>
         after[i] == if DraftOf(drafts, done, before[i].id)
                     then before[i].(state := state, localOnly := before[i].group)
                     else before[i]
  }

  ghost predicate DraftOf(drafts: map<nat, nat>, done: set<nat>, id: nat) {
    exists c :: c in done && c in drafts && drafts[c] == id
  }

  lemma NothingRestated(ms: seq<Message>, drafts: map<nat, nat>, state: Delivery)
    ensures Restated(ms, ms, drafts, {}, state)
  {
  }

  lemma OneRestated(first: seq<Message>, before: seq<Message>, after: seq<Message>, drafts: map<nat, nat>,
                    done: set<nat>, c: nat, state: Delivery)
    requires Restated(first, before, drafts, done, state) && c in drafts
    requires forall d :: d in drafts && d != c ==> drafts[d] != drafts[c]
    requires Canonical(before) && (!Shows(before, drafts[c]) ==> after == before)
    requires forall k :: 0 <= k < |before| && before[k].id == drafts[c] ==> Changed(before, after, k, state)
    requires state == Sending || state == Reconnecting
    ensures Restated(first, after, drafts, done + {c}, state)
  {
    forall i | 0 <= i < |first|
      ensures after[i]
        == if DraftOf(drafts, done + {c}, first[i].id) then first[i].(state := state, localOnly := first[i].group)
           else first[i]
    {
      assert before[i].id == first[i].id;
      var id := first[i].id;
      assert DraftOf(drafts, done + {c}, id) <==> DraftOf(drafts, done, id) || id == drafts[c];
    }
  }

  /** A message that no draft stands for leaves the drafts pending. */
  lemma StillPending(ms: seq<Message>, m: Message, left: seq<Message>, drafts: map<nat, nat>)
    requires forall c, i :: c in drafts && 0 <= i < |ms| && ms[i].id == drafts[c] ==> ms[i].localOnly
    requires forall c :: c in drafts ==> drafts[c] < m.id
    requires forall x :: x in left ==> x in ms || x == m
    ensures forall c, i :: c in drafts && 0 <= i < |left| && left[i].id == drafts[c] ==> left[i].localOnly
  {
    forall c, i | c in drafts && 0 <= i < |left| && left[i].id == drafts[c]
      ensures left[i].localOnly
    {
      assert left[i] in left;
      assert left[i] in ms;
    }
  }

  lemma AtEnd(ms: seq<Message>, m: Message)
    ensures With(ms, |ms|, m) == ms + [m]
  {
  }

  lemma NewDraft(ms: seq<Message>, m: Message, left: seq<Message>)
    requires (forall i :: 0 <= i < |ms| ==> ms[i].id != m.id) && forall x :: x in left ==> x in ms || x == m
    ensures forall i :: 0 <= i < |left| && left[i].id == m.id ==> left[i] == m
  {
    forall i | 0 <= i < |left| && left[i].id == m.id
      ensures left[i] == m
    {
      assert left[i] in left;
    }
  }

  /** Message `k` stays where it is, in a new state; a text of the room that is being sent is pending. */
  ghost predicate Changed(before: seq<Message>, after: seq<Message>, k: nat, state: Delivery)
    requires k < |before|
  {
    after == before[k := before[k].(state := state,
                                    localOnly := before[k].group && (state == Sending || state == Reconnecting))]
  }

  ghost predicate Shows(ms: seq<Message>, id: nat) {
    exists i :: 0 <= i < |ms| && ms[i].id == id
  }

  /** Only the message `id` changed: it is shown as failed, and is pending no more. */
  ghost predicate FailedIn(before: seq<Message>, after: seq<Message>, id: nat) {
    && |after| == |before|
    && forall i :: 0 <= i < |before| ==>
         after[i] == if before[i].id == id then before[i].(state := Failed, localOnly := false) else before[i]
  }

  lemma FailedAt(before: seq<Message>, after: seq<Message>, id: nat)
    requires Canonical(before)
    requires !Shows(before, id) ==> after == before
    requires forall k :: 0 <= k < |before| && before[k].id == id ==> Changed(before, after, k, Failed)
    ensures FailedIn(before, after, id)
  {
  }

  /** Message `k` was committed just now: in front of the pending texts, behind everything committed before. */
  ghost predicate Moved(before: seq<Message>, after: seq<Message>, k: nat, ordinal: nat)
    requires k < |before|
  {
    var m := before[k].(state := Delivered, localOnly := false, ordinal := ordinal);
    Committed(m) && after == With(Without(before, k), FirstLocal(Without(before, k)), m)
  }

  lemma OnlyOne(ms: seq<Message>, k: nat)
    requires Canonical(ms) && k < |ms|
    ensures forall i :: 0 <= i < |ms| && ms[i].id == ms[k].id ==> i == k
  {
  }

  /** Moving a message keeps the number and the size of what is shown. */
  lemma SameCaps(before: seq<Message>, k: nat, after: seq<Message>, m: Message, maxItems: nat, maxBytes: nat)
    requires k < |before| && m.bytes == before[k].bytes
    requires after == With(Without(before, k), FirstLocal(Without(before, k)), m)
    ensures WithinCaps(before, maxItems, maxBytes) ==> WithinCaps(after, maxItems, maxBytes)
    ensures forall x :: x in after ==> x in before || x == m
  {
    RetainedWithout(before, k);
    RetainedWith(Without(before, k), FirstLocal(Without(before, k)), m);
    InWithout(before, k);
    OldDrafts(Without(before, k), FirstLocal(Without(before, k)), m, after);
  }

  lemma StillUncommitted(m: Message, state: Delivery)
    requires m.localOnly ==> m.group && m.groupOrdered
    requires (m.localOnly && state != Delivered) || (!m.group && !m.groupOrdered)
    ensures !Committed(Updated(m, state)) || state == Plain
    ensures Updated(m, state).localOnly ==> m.localOnly
  {
  }

  lemma OthersDiffer(ms: seq<Message>, k: nat)
    requires Canonical(ms) && k < |ms|
    ensures forall i :: 0 <= i < |Without(ms, k)| ==> Without(ms, k)[i].id != ms[k].id
    ensures forall i :: 0 <= i < |Without(ms, k)| ==> Without(ms, k)[i] in ms
  {
    forall i | 0 <= i < |Without(ms, k)|
      ensures Without(ms, k)[i].id != ms[k].id
    {
      assert i < k ==> MayPrecede(ms[i], ms[k]);
      assert i >= k ==> MayPrecede(ms[k], ms[i + 1]);
    }
  }

  /** What is shown after an insertion and an eviction was shown before, or is the new message. */
  lemma OldDrafts(ms: seq<Message>, k: nat, m: Message, left: seq<Message>)
    requires k <= |ms| && forall x :: x in left ==> x in With(ms, k, m)
    ensures forall x :: x in left ==> x in ms || x == m
  {
    forall x | x in With(ms, k, m)
      ensures x in ms || x == m
    {
      var i :| 0 <= i < |With(ms, k, m)| && With(ms, k, m)[i] == x;
      assert i < k ==> x == ms[i];
      assert i > k ==> x == ms[i - 1];
    }
  }
}
