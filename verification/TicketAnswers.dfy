/**
 * What each ticket operation answers: when exactly it grants what it was asked,
 * and what exactly becomes of the books, said of the grants and tombstones in
 * them alone.
 */
module TicketAnswers {
  import opened Basics
  import opened RoomTypes
  import opened EventDeduper
  import opened TicketDesk
  import opened TicketAuthority

  /** A table of grants holds one grant per ticket. */
  ghost predicate Tidy(d: Desk) {
    Unique(d.tickets) && Unique(d.issued)
  }

  predicate BothOnline(d: Desk, g: Grant) {
    && g.senderId in d.members && d.members[g.senderId].online
    && g.recipientId in d.members && d.members[g.recipientId].online
  }

  ghost predicate Holds(grants: seq<Grant>, ticket: Id) {
    exists g :: g in grants && g.ticket == ticket
  }

  /** What is left of a table after `ticket` was taken out. */
  ghost predicate TakenOut(before: seq<Grant>, after: seq<Grant>, ticket: Id) {
    forall g :: g in after <==> g in before && g.ticket != ticket
  }

  /** The newest tombstone is that of `ticket`, until `expiry`; of the others the oldest gave way, if any. */
  predicate Buried(rules: Rules, before: seq<Entry>, after: seq<Entry>, ticket: Id, expiry: nat)
    requires rules.tombstones >= 1
  {
    after == TakeLast(Without(before, ticket), rules.tombstones - 1) + [Entry(ticket, expiry)]
  }

  lemma Burial(rules: Rules, tombs: seq<Entry>, ticket: Id, now: nat)
    requires rules.tombstones >= 1
    ensures Buried(rules, tombs, Remember(rules, tombs, ticket, now), ticket, now + rules.ttl)
  {
    var rest := Without(tombs, ticket);
    assert TakeLast(rest + [Entry(ticket, now + rules.ttl)], rules.tombstones)
        == TakeLast(rest, rules.tombstones - 1) + [Entry(ticket, now + rules.ttl)];
  }

  lemma {:induction false} FoundIn(grants: seq<Grant>, ticket: Id, g: Grant)
    requires Unique(grants)
    ensures Find(grants, ticket) == Some(g) <==> g in grants && g.ticket == ticket
    ensures Find(grants, ticket).None? <==> !Holds(grants, ticket)
  {
    FindIn(grants, ticket);
    if g in grants && g.ticket == ticket {
      SameTicket(grants, g, Find(grants, ticket).value);
    }
  }

  lemma {:induction false} LookupHas(tombs: seq<Entry>, key: Id)
    ensures Lookup(tombs, key).Some? <==> Has(tombs, key)
  {
    if tombs != [] {
      HasCons(tombs, key);
      LookupHas(tombs[1..], key);
    }
  }

  lemma AllTakenOut(grants: seq<Grant>, ticket: Id)
    ensures TakenOut(grants, Keep(grants, Holding(ticket)), ticket)
  {
    forall g
      ensures g in Keep(grants, Holding(ticket)) <==> g in grants && g.ticket != ticket
    {
      KeepIn(grants, Holding(ticket), g);
    }
  }

  // ---- Pruning ----

  /** What expired before now is dropped, and nothing else. */
  ghost predicate Pruned(d: Desk, k: Desk) {
    && k == d.(tickets := k.tickets, issued := k.issued, spent := k.spent)
    && (forall g :: g in k.tickets <==> g in d.tickets && g.expiresAt >= d.now)
    && (forall g :: g in k.issued <==> g in d.issued && g.expiresAt >= d.now)
    && (forall e :: e in k.spent <==> e in d.spent && e.number >= d.now)
    && (Tidy(d) ==> Tidy(k))
  }

  lemma {:induction false} LastingIn(tombs: seq<Entry>, now: nat, e: Entry)
    ensures e in Lasting(tombs, now) <==> e in tombs && e.number >= now
  {
    if tombs != [] {
      LastingIn(tombs[1..], now, e);
      assert e in tombs <==> e == tombs[0] || e in tombs[1..];
    }
  }

  lemma PruneAnswer(d: Desk)
    ensures Pruned(d, Prune(d))
  {
    hide Keep, Lasting, Unique;
    forall g
      ensures g in Keep(d.tickets, ExpiredBefore(d.now)) <==> g in d.tickets && g.expiresAt >= d.now
      ensures g in Keep(d.issued, ExpiredBefore(d.now)) <==> g in d.issued && g.expiresAt >= d.now
    {
      KeepIn(d.tickets, ExpiredBefore(d.now), g);
      KeepIn(d.issued, ExpiredBefore(d.now), g);
    }
    forall e
      ensures e in Lasting(d.spent, d.now) <==> e in d.spent && e.number >= d.now
    {
      LastingIn(d.spent, d.now, e);
    }
    if Tidy(d) {
      KeepUnique(d.tickets, ExpiredBefore(d.now));
      KeepUnique(d.issued, ExpiredBefore(d.now));
    }
  }

  // ---- Issuing and arming ----

  /** The grants of a sender that are still live. */
  function LiveOf(d: Desk, sender: Id): set<Grant> {
    set g | g in d.issued && g.expiresAt >= d.now && g.senderId == sender
  }

  /** A request that is granted: the room is open, both are there, and the sender has a grant to spare. */
  predicate MayIssue(d: Desk, rules: Rules, claim: Claim, capable: bool) {
    && !d.closing && !d.paused && capable && claim.senderId != claim.recipientId
    && claim.senderId in d.members && d.members[claim.senderId].online
    && claim.recipientId in d.members && d.members[claim.recipientId].online
    && |LiveOf(d, claim.senderId)| < rules.cap
  }

  lemma {:induction false} HitsCount(grants: seq<Grant>, test: Test)
    requires Unique(grants)
    ensures |Hits(grants, test)| == |set g | g in grants && Matches(test, g)|
  {
    hide Matches;
    if grants != [] {
      var rest := grants[1..];
      assert forall i :: 0 <= i < |rest| ==> rest[i] == grants[i + 1];
      HitsCount(rest, test);
      assert grants[0] !in rest;
      OneMore(grants, test);
    }
  }

  lemma OneMore(grants: seq<Grant>, test: Test)
    requires grants != [] && grants[0] !in grants[1..]
    ensures |set g | g in grants && Matches(test, g)|
      == |set g | g in grants[1..] && Matches(test, g)| + if Matches(test, grants[0]) then 1 else 0
  {
    hide Matches;
    var all := set g | g in grants && Matches(test, g);
    var others := set g | g in grants[1..] && Matches(test, g);
    assert grants == [grants[0]] + grants[1..];
    if Matches(test, grants[0]) {
      assert all == others + {grants[0]};
    } else {
      assert all == others;
    }
  }

  lemma LiveCount(d: Desk, sender: Id)
    requires Unique(d.issued)
    ensures |Hits(Prune(d).issued, From(sender))| == |LiveOf(d, sender)|
  {
    hide Keep, Hits, Lasting;
    PruneAnswer(d);
    KeepUnique(d.issued, ExpiredBefore(d.now));
    HitsCount(Prune(d).issued, From(sender));
    assert LiveOf(d, sender) == set g | g in Prune(d).issued && Matches(From(sender), g);
  }

  /**
   * A request that may be granted adds exactly one grant, exactly as asked, to
   * what is issued; the owner as its recipient is armed at once, any other is
   * being armed. A request that may not changes nothing but what expired.
   */
  lemma IssueAnswer(d: Desk, rules: Rules, claim: Claim, capable: bool)
    requires Unique(d.issued) && FreshTicket(d, claim.ticket)
    ensures var k := Issue(d, rules, claim, capable);
            var g := Grant(claim.ticket, d.now + rules.ttl, d.roomId, claim.kind, claim.senderId, claim.recipientId,
                           claim.transferId, claim.size);
            exists p ::
              && Pruned(d, p)
              && k == if !MayIssue(d, rules, claim, capable) then p
                      else if claim.recipientId == d.self
                      then p.(issued := p.issued + [g], tickets := p.tickets + [g])
                      else p.(issued := p.issued + [g], arming := p.arming + [g])
  {
    hide Keep, Hits, Lasting, Has, Unique, Pruned;
    var p := Prune(d);
    PruneAnswer(d);
    LiveCount(d, claim.senderId);
    FreshAfterPrune(d, rules, claim.ticket);
    if MayIssue(d, rules, claim, capable) {
      var g := Minted(d, rules, claim);
      var live := p.(issued := p.issued + [g]);
      FindIn(live.issued, g.ticket);
      FindIn(live.tickets, g.ticket);
      LookupHas(live.spent, g.ticket);
      assert g in live.issued;
      assert g.(expiresAt := p.now + rules.ttl) == g;
    }
  }

  /** A grant for this participant, of this room, between members that are here, never seen before. */
  ghost predicate MayArm(d: Desk, g: Grant) {
    && g.roomId == d.roomId && !d.paused && g.recipientId == d.self
    && !Holds(d.tickets, g.ticket) && !Has(d.spent, g.ticket) && BothOnline(d, g)
  }

  /** Armed exactly as granted, with this participant's own deadline. */
  lemma ArmAnswer(d: Desk, rules: Rules, g: Grant)
    ensures Arm(d, rules, g).Some? <==> MayArm(d, g)
    ensures MayArm(d, g) ==>
      var own := Grant(g.ticket, d.now + rules.ttl, d.roomId, g.kind, g.senderId, d.self, g.transferId, g.size);
      Arm(d, rules, g).value == d.(tickets := d.tickets + [own],
                                   issued := if d.owner && !Holds(d.issued, g.ticket) then d.issued + [own]
                                             else d.issued)
  {
    hide Find, Lookup, Has;
    FindIn(d.tickets, g.ticket);
    FindIn(d.issued, g.ticket);
    LookupHas(d.spent, g.ticket);
  }

  /** The ticket is nowhere any more, and its tombstone is the newest. */
  ghost predicate Scrapped(d: Desk, rules: Rules, k: Desk, ticket: Id)
    requires rules.tombstones >= 1
  {
    && k == d.(issued := k.issued, tickets := k.tickets, arming := k.arming, spent := k.spent)
    && TakenOut(d.issued, k.issued, ticket) && TakenOut(d.tickets, k.tickets, ticket)
    && TakenOut(d.arming, k.arming, ticket) && Buried(rules, d.spent, k.spent, ticket, d.now + rules.ttl)
  }

  lemma ScrapAnswer(d: Desk, rules: Rules, ticket: Id)
    requires rules.tombstones >= 1
    ensures Scrapped(d, rules, Scrap(d, rules, ticket), ticket)
  {
    hide TakenOut, Buried, Keep, Remember;
    AllTakenOut(d.issued, ticket);
    AllTakenOut(d.tickets, ticket);
    AllTakenOut(d.arming, ticket);
    Burial(rules, d.spent, ticket, d.now);
  }

  /** Only the recipient of an arm in flight confirms it, and only that one. */
  lemma ConfirmAnswer(d: Desk, from: Id, g: Grant)
    ensures var k := ResolveArm(d, from, g);
            if g in d.arming && from == g.recipientId then
              k == d.(arming := k.arming) && TakenOut(d.arming, k.arming, g.ticket)
            else k == d
  {
    hide TakenOut, Keep;
    AllTakenOut(d.arming, g.ticket);
  }

  /** The sender gets its grant if the recipient was armed and the grant still stands; else the ticket is scrapped. */
  lemma IssueEndAnswer(d: Desk, rules: Rules, g: Grant, armed: bool, current: bool)
    requires Unique(d.issued) && rules.tombstones >= 1
    ensures var (k, granted) := IssueEnd(d, rules, g, armed, current);
            && (granted <==> armed && current && !d.paused && g in d.issued && BothOnline(d, g))
            && if granted then k == d else Scrapped(d, rules, k, g.ticket)
  {
    hide Unique, Scrapped, Find, Scrap;
    FoundIn(d.issued, g.ticket, g);
    ScrapAnswer(d, rules, g.ticket);
  }

  // ---- Consuming ----

  /** Claim `c`, made by the participant `asker`, is exactly what grant `g` is good for now. */
  predicate Honours(d: Desk, g: Grant, c: Claim, asker: Id) {
    && c.ticket == g.ticket && c.roomId == g.roomId && c.kind == g.kind && c.senderId == g.senderId
    && c.recipientId == g.recipientId && c.transferId == g.transferId && c.size == g.size
    && g.roomId == d.roomId && g.recipientId == asker && g.expiresAt >= d.now
    && !d.paused && BothOnline(d, g)
  }

  /**
   * The owner accepts a claim of either kind exactly if a live grant honours
   * it, and then the ticket is spent; a refused claim spends nothing.
   */
  lemma DecisionAnswer(d: Desk, rules: Rules, claim: Claim, asker: Id)
    requires Unique(d.issued) && rules.tombstones >= 1
    ensures var (k, ok) := ConsumeIssued(d, rules, claim, asker);
            exists p ::
              && Pruned(d, p)
              && (ok <==> exists g :: g in d.issued && Honours(d, g, claim, asker))
              && (!ok ==> k == p)
              && (ok ==>
                    && k == p.(issued := k.issued, spent := k.spent)
                    && TakenOut(p.issued, k.issued, claim.ticket)
                    && Buried(rules, p.spent, k.spent, claim.ticket, d.now + rules.ttl))
  {
    hide Unique, TakenOut, Buried, Keep, Remember, Lasting, Find;
    var p := Prune(d);
    PruneAnswer(d);
    KeepUnique(d.issued, ExpiredBefore(d.now));
    FindIn(p.issued, claim.ticket);
    AllTakenOut(p.issued, claim.ticket);
    Burial(rules, p.spent, claim.ticket, d.now);
    if g :| g in d.issued && Honours(d, g, claim, asker) {
      FoundIn(p.issued, claim.ticket, g);
    }
  }

  /** What a recipient tests before it asks: a grant armed here honours the claim, and is not being asked about. */
  predicate MayAskFor(d: Desk, g: Grant, claim: Claim) {
    g in d.tickets && Honours(d, g, claim, d.self) && claim.ticket !in d.consuming
  }

  lemma ConsumableAnswer(d: Desk, claim: Claim)
    requires Unique(d.tickets)
    ensures Consumable(Prune(d), claim).Some? <==> exists g :: MayAskFor(d, g, claim)
    ensures Consumable(Prune(d), claim).Some? ==> MayAskFor(d, Consumable(Prune(d), claim).value, claim)
  {
    hide Unique, Keep, Lasting, Find;
    var p := Prune(d);
    PruneAnswer(d);
    KeepUnique(d.tickets, ExpiredBefore(d.now));
    FindIn(p.tickets, claim.ticket);
    assert Consumable(p, claim).Some? ==> MayAskFor(d, Consumable(p, claim).value, claim);
    if g :| MayAskFor(d, g, claim) {
      FoundIn(p.tickets, claim.ticket, g);
      assert Consumable(p, claim) == Some(g);
    }
  }

  /** Whatever came of it, the ticket is used up here. */
  ghost predicate UsedUp(d: Desk, rules: Rules, k: Desk, ticket: Id)
    requires rules.tombstones >= 1
  {
    && k == d.(tickets := k.tickets, consuming := d.consuming - {ticket}, spent := k.spent)
    && TakenOut(d.tickets, k.tickets, ticket) && Buried(rules, d.spent, k.spent, ticket, d.now + rules.ttl)
  }

  lemma ConsumedAnswer(d: Desk, rules: Rules, ticket: Id)
    requires rules.tombstones >= 1
    ensures UsedUp(d, rules, Consumed(d, rules, ticket), ticket)
  {
    hide TakenOut, Buried, Keep, Remember;
    AllTakenOut(d.tickets, ticket);
    Burial(rules, d.spent, ticket, d.now);
  }

  /** A transfer begins at a guest: it asks the owner if it may, and waits; without its owner the ticket is lost. */
  lemma GuestBeginAnswer(d: Desk, rules: Rules, request: Id, claim: Claim)
    requires !d.owner && Unique(d.tickets) && rules.tombstones >= 1
    ensures var (k, outcome) := ConsumeBegin(d, rules, request, claim);
            exists p ::
              && Pruned(d, p)
              && if forall g :: !MayAskFor(d, g, claim) then outcome == Refused && k == p
                 else if d.recovering then outcome == Failed && UsedUp(p, rules, k, claim.ticket)
                 else
                   && outcome.Asking? && MayAskFor(d, outcome.grant, claim)
                   && k == p.(consuming := d.consuming + {claim.ticket},
                              asking := d.asking[request := outcome.grant])
  {
    hide Unique, TakenOut, Buried, Keep, Remember, Consumed, UsedUp, Prune, Consumable, MayAskFor;
    PruneAnswer(d);
    ConsumableAnswer(d, claim);
    ConsumedAnswer(Prune(d), rules, claim.ticket);
  }

  /** A transfer begins at the owner: it decides at once, and accepts exactly what it would let a guest use. */
  lemma OwnerBeginAnswer(d: Desk, rules: Rules, request: Id, claim: Claim)
    requires BooksOk(d, rules) && Tidy(d) && rules.tombstones >= 1
    ensures var (k, outcome) := ConsumeBegin(d, rules, request, claim);
            if forall g :: !MayAskFor(d, g, claim) then outcome == Refused && Pruned(d, k)
            else
              && outcome.Accepted? && MayAskFor(d, outcome.grant, claim)
              && k == d.(tickets := k.tickets, issued := k.issued, spent := k.spent,
                         consuming := d.consuming - {claim.ticket})
              && Has(k.spent, claim.ticket) && !Holds(k.tickets, claim.ticket) && !Holds(k.issued, claim.ticket)
              && (forall g: Grant :: g.ticket != claim.ticket ==>
                    && (g in k.tickets <==> g in d.tickets && g.expiresAt >= d.now)
                    && (g in k.issued <==> g in d.issued && g.expiresAt >= d.now))
  {
    hide Unique, Keep, Remember, Lasting, Has, MayAskFor, OwnerOk, Find;
    assert OwnerOk(d, rules);
    OwnerNames(d, rules);
    PruneAnswer(d);
    ConsumableAnswer(d, claim);
    if Consumable(Prune(d), claim).Some? {
      OwnerAgrees(d, rules, claim);
      OwnerSpends(d, rules, claim);
    }
  }

  lemma OwnerSpends(d: Desk, rules: Rules, claim: Claim)
    requires ConsumeIssued(Prune(d), rules, claim, d.self).1 && rules.tombstones >= 1
    ensures var k := Consumed(ConsumeIssued(Prune(d), rules, claim, d.self).0, rules, claim.ticket);
            && k == d.(tickets := k.tickets, issued := k.issued, spent := k.spent,
                       consuming := d.consuming - {claim.ticket})
            && Has(k.spent, claim.ticket) && !Holds(k.tickets, claim.ticket) && !Holds(k.issued, claim.ticket)
            && (forall g: Grant :: g.ticket != claim.ticket ==>
                  && (g in k.tickets <==> g in d.tickets && g.expiresAt >= d.now)
                  && (g in k.issued <==> g in d.issued && g.expiresAt >= d.now))
  {
    hide Unique, Keep, Remember, Lasting, Has, Find;
    var p := Prune(d);
    PruneAnswer(d);
    PruneAnswer(p);
    var q := ConsumeIssued(p, rules, claim, d.self).0;
    AllTakenOut(Prune(p).issued, claim.ticket);
    AllTakenOut(q.tickets, claim.ticket);
    RememberHas(rules, q.spent, claim.ticket, d.now, claim.ticket);
  }

  /** The owner's answer ends the wait of the request it names, if it names its ticket. */
  lemma HeardAnswer(d: Desk, request: Id, ticket: Id)
    ensures var k := ResolveAnswer(d, request, ticket);
            && k == d.(asking := k.asking)
            && forall r :: (r in k.asking <==> r in d.asking && (r == request ==> d.asking[r].ticket != ticket))
                 && (r in k.asking ==> k.asking[r] == d.asking[r])
  {
  }

  // ---- Revoking ----

  /** Ticket `t` has one of the newest `m` tombstones. */
  ghost predicate Among(tombs: seq<Entry>, m: nat, t: Id) {
    Has(TakeLast(tombs, m), t)
  }

  lemma RememberAges(rules: Rules, tombs: seq<Entry>, key: Id, now: nat, m: nat, t: Id)
    requires m < rules.tombstones && (t == key || Among(tombs, m, t))
    ensures Among(Remember(rules, tombs, key, now), m + 1, t)
  {
    var e := Entry(key, now + rules.ttl);
    var rest := Without(tombs, key);
    var longer := Remember(rules, tombs, key, now);
    assert TakeLast(longer, m + 1) == TakeLast(rest, m) + [e];
    HasConcat(TakeLast(rest, m), [e], t);
    if t == key {
      assert [e][0].id == t;
    } else {
      WithoutLast(tombs, key, m, t);
    }
  }

  /** Taking an entry out leaves any other at least as near to the end. */
  lemma WithoutLast(tombs: seq<Entry>, key: Id, m: nat, t: Id)
    requires Among(tombs, m, t) && t != key
    ensures Among(Without(tombs, key), m, t)
  {
    var last := TakeLast(tombs, m);
    var cut := |tombs| - |last|;
    assert tombs == tombs[..cut] + last;
    WithoutConcat(tombs[..cut], last, key);
    WithoutHas(last, key, t);
    WithoutShorter(last, key);
    var rest, tail := Without(tombs, key), Without(last, key);
    var end := TakeLast(rest, m);
    assert end == end[..|end| - |tail|] + tail;
    HasConcat(end[..|end| - |tail|], tail, t);
  }

  lemma {:induction false} WithoutShorter(entries: seq<Entry>, id: Id)
    ensures |Without(entries, id)| <= |entries|
  {
    if entries != [] {
      WithoutShorter(entries[1..], id);
    }
  }

  lemma {:induction false} AllRemembered(rules: Rules, tombs: seq<Entry>, gone: seq<Grant>, now: nat, m: nat, t: Id)
    requires m + |gone| <= rules.tombstones
    requires Among(tombs, m, t) || exists g :: g in gone && g.ticket == t
    ensures Among(RememberAll(rules, tombs, gone, now), m + |gone|, t)
    decreases |gone|
  {
    hide Among, Remember;
    if gone != [] {
      var next := Remember(rules, tombs, gone[0].ticket, now);
      if t == gone[0].ticket || Among(tombs, m, t) {
        RememberAges(rules, tombs, gone[0].ticket, now, m, t);
      } else {
        var g :| g in gone && g.ticket == t;
        assert g in gone[1..];
      }
      AllRemembered(rules, next, gone[1..], now, m + 1, t);
    }
  }

  lemma {:induction false} RememberAllConcat(rules: Rules, tombs: seq<Entry>, a: seq<Grant>, b: seq<Grant>, now: nat)
    ensures RememberAll(rules, RememberAll(rules, tombs, a, now), b, now) == RememberAll(rules, tombs, a + b, now)
    decreases |a|
  {
    if a == [] {
      assert a + b == b;
    } else {
      assert (a + b)[1..] == a[1..] + b;
      RememberAllConcat(rules, Remember(rules, tombs, a[0].ticket, now), a[1..], b, now);
    }
  }

  lemma {:induction false} HitsFewer(grants: seq<Grant>, test: Test)
    ensures |Hits(grants, test)| <= |grants|
  {
    if grants != [] {
      HitsFewer(grants[1..], test);
    }
  }

  /** A grant that goes: one that names the member, or, when everything is revoked, any. */
  predicate Struck(g: Grant, member: Option<Id>) {
    member == None || g.senderId == member.value || g.recipientId == member.value
  }

  /** Ticket `t` is that of a grant in these tables that goes. */
  ghost predicate Goes(d: Desk, member: Option<Id>, t: Id) {
    exists g :: g in d.tickets + d.issued + d.arming && Struck(g, member) && g.ticket == t
  }

  /** No tombstone appears but of what was revoked, and each such ticket has one while there is room for all. */
  ghost predicate Tombs(d: Desk, rules: Rules, after: seq<Entry>, member: Option<Id>) {
    && (forall t :: Has(after, t) ==> Has(d.spent, t) || Goes(d, member, t))
    && (|d.tickets| + |d.issued| + |d.arming| <= rules.tombstones ==> forall t :: Goes(d, member, t) ==> Has(after, t))
  }

  /** Exactly the grants that go left every table; questions about them are dropped. */
  ghost predicate Revoked(d: Desk, k: Desk, rules: Rules, member: Option<Id>) {
    && k == d.(tickets := k.tickets, issued := k.issued, arming := k.arming, asking := k.asking, spent := k.spent,
               consuming := if member == None then {} else d.consuming)
    && (forall g :: g in k.tickets <==> g in d.tickets && !Struck(g, member))
    && (forall g :: g in k.issued <==> g in d.issued && !Struck(g, member))
    && (forall g :: g in k.arming <==> g in d.arming && !Struck(g, member))
    && (forall r :: r in k.asking <==> r in d.asking && !Struck(d.asking[r], member))
    && (forall r :: r in k.asking ==> k.asking[r] == d.asking[r])
    && Tombs(d, rules, k.spent, member)
  }

  /** The tombstones after three tables were gone through. */
  lemma TombsOf(d: Desk, rules: Rules, gone: seq<Grant>, member: Option<Id>)
    requires forall g :: g in gone <==> g in d.tickets + d.issued + d.arming && Struck(g, member)
    requires |gone| <= |d.tickets| + |d.issued| + |d.arming|
    ensures Tombs(d, rules, RememberAll(rules, d.spent, gone, d.now), member)
  {
    hide Has, Struck, RememberAll;
    var after := RememberAll(rules, d.spent, gone, d.now);
    forall t | Has(after, t)
      ensures Has(d.spent, t) || Goes(d, member, t)
    {
      RememberAllHas(rules, d.spent, gone, d.now, t);
    }
    if |gone| <= rules.tombstones {
      forall t | Goes(d, member, t)
        ensures Has(after, t)
      {
        AllRemembered(rules, d.spent, gone, d.now, 0, t);
        TakeLastHas(after, |gone|, t);
      }
    }
  }

  lemma RevokeMemberAnswer(d: Desk, rules: Rules, member: Id)
    ensures Revoked(d, InvalidateMember(d, rules, member), rules, Some(member))
  {
    hide Keep, Hits, RememberAll, Tombs;
    var test := Naming(member);
    var a, b, c := Hits(d.tickets, test), Hits(d.issued, test), Hits(d.arming, test);
    forall g
      ensures g in a <==> g in d.tickets && Struck(g, Some(member))
      ensures g in b <==> g in d.issued && Struck(g, Some(member))
      ensures g in c <==> g in d.arming && Struck(g, Some(member))
      ensures g in Keep(d.tickets, test) <==> g in d.tickets && !Struck(g, Some(member))
      ensures g in Keep(d.issued, test) <==> g in d.issued && !Struck(g, Some(member))
      ensures g in Keep(d.arming, test) <==> g in d.arming && !Struck(g, Some(member))
    {
      KeepIn(d.tickets, test, g);
      KeepIn(d.issued, test, g);
      KeepIn(d.arming, test, g);
    }
    HitsFewer(d.tickets, test);
    HitsFewer(d.issued, test);
    HitsFewer(d.arming, test);
    RememberAllConcat(rules, d.spent, a, b, d.now);
    RememberAllConcat(rules, d.spent, a + b, c, d.now);
    TombsOf(d, rules, a + b + c, Some(member));
  }

  lemma RevokeAllAnswer(d: Desk, rules: Rules)
    ensures Revoked(d, InvalidateAll(d, rules), rules, None)
  {
    hide RememberAll, Tombs;
    RememberAllConcat(rules, d.spent, d.tickets, d.issued, d.now);
    RememberAllConcat(rules, d.spent, d.tickets + d.issued, d.arming, d.now);
    TombsOf(d, rules, d.tickets + d.issued + d.arming, None);
  }

  /** Pausing and closing revoke everything; opening again revokes nothing; closing twice does nothing. */
  lemma PauseAnswer(d: Desk, rules: Rules, paused: bool)
    ensures var flipped := d.(paused := paused);
            if paused then Revoked(flipped, Pause(d, rules, paused), rules, None)
            else Pause(d, rules, paused) == flipped
    ensures if d.closing then Close(d, rules) == d
            else Revoked(d.(paused := true, closing := true), Close(d, rules), rules, None)
  {
    hide InvalidateAll, Revoked;
    RevokeAllAnswer(d.(paused := paused), rules);
    RevokeAllAnswer(d.(paused := true, closing := true), rules);
  }

  /** A member that is gone is named by no grant any more; nobody is removed from a closing room or twice. */
  lemma GoneAnswer(d: Desk, rules: Rules, member: Id)
    ensures var k := MemberGone(d, rules, member);
            if member == d.self || (d.owner && (d.closing || member !in d.members)) then k == d
            else Revoked(d.(members := d.members - {member}), k, rules, Some(member))
  {
    hide InvalidateMember, Revoked;
    RevokeMemberAnswer(d.(members := d.members - {member}), rules, member);
  }
}
