/**
 * What the owner's ticket books always satisfy, at every point where another
 * segment may run: only current members are named, nothing live was ever
 * spent, no sender exceeds its share, and a paused or closing room has none.
 */
module TicketAuthority {
  import opened RoomTypes
  import opened EventDeduper
  import opened TicketDesk

  ghost predicate NamesMembers(d: Desk, g: Grant) {
    g.senderId in d.members && g.recipientId in d.members && g.senderId != g.recipientId && g.roomId == d.roomId
  }

  ghost predicate NoneSpent(d: Desk) {
    && (forall g :: g in d.issued ==> !Has(d.spent, g.ticket))
    && (forall g :: g in d.tickets ==> !Has(d.spent, g.ticket))
  }

  ghost predicate WithinCap(rules: Rules, issued: seq<Grant>) {
    forall sender :: |Hits(issued, From(sender))| <= rules.cap
  }

  /** The owner's own armed tickets are among those it issued. */
  ghost predicate OwnerOk(d: Desk, rules: Rules) {
    && d.owner && d.self in d.members
    && Unique(d.issued)
    && (forall g :: g in d.issued ==> NamesMembers(d, g))
    && (forall g :: g in d.arming ==> NamesMembers(d, g))
    && (forall g :: g in d.tickets ==> g in d.issued && g.recipientId == d.self)
    && NoneSpent(d)
    && WithinCap(rules, d.issued)
    && (d.paused || d.closing ==> d.issued == [] && d.tickets == [] && d.arming == [])
  }

  // ---- Dropping grants ----

  /** Fewer grants, and nothing new among the tombstones but tickets that are no longer live. */
  lemma FewerOk(d: Desk, rules: Rules, k: Desk, test: Test)
    requires OwnerOk(d, rules)
    requires k.owner && k.self == d.self && k.self in k.members && k.roomId == d.roomId
    requires k.issued == Keep(d.issued, test) && k.tickets == Keep(d.tickets, test)
    requires k.arming == d.arming || k.arming == Keep(d.arming, test)
    requires forall g :: g in k.issued + k.arming ==> NamesMembers(k, g)
    requires forall x :: Has(k.spent, x) ==> Has(d.spent, x) || Gone(d, test, x)
    requires k.paused == d.paused && k.closing == d.closing
    ensures OwnerOk(k, rules)
  {
    hide NamesMembers, Has;
    KeepUnique(d.issued, test);
    forall g
      ensures g in k.issued <==> g in d.issued && !Matches(test, g)
      ensures g in k.tickets <==> g in d.tickets && !Matches(test, g)
    {
      KeepIn(d.issued, test, g);
      KeepIn(d.tickets, test, g);
    }
    forall sender
      ensures |Hits(k.issued, From(sender))| <= rules.cap
    {
      FewerHits(d.issued, test, From(sender));
    }
    forall g | g in k.issued
      ensures !Has(k.spent, g.ticket)
    {
      if Gone(d, test, g.ticket) {
        GoneIsDropped(d, test, g);
      }
    }
  }

  /** Ticket `x` is among those a test drops: nothing live that the test keeps bears it. */
  ghost predicate Gone(d: Desk, test: Test, x: Id) {
    forall g :: g in d.issued && !Matches(test, g) ==> g.ticket != x
  }

  lemma GoneIsDropped(d: Desk, test: Test, g: Grant)
    requires Gone(d, test, g.ticket) && g in d.issued
    ensures Matches(test, g)
  {
  }

  lemma SameTicket(grants: seq<Grant>, a: Grant, b: Grant)
    requires Unique(grants) && a in grants && b in grants && a.ticket == b.ticket
    ensures a == b
  {
    var i :| 0 <= i < |grants| && grants[i] == a;
    var j :| 0 <= j < |grants| && grants[j] == b;
    assert i == j;
  }

  lemma PruneOk(d: Desk, rules: Rules)
    requires OwnerOk(d, rules)
    ensures OwnerOk(Prune(d), rules)
  {
    hide OwnerOk, Has;
    var k := Prune(d);
    forall x | Has(k.spent, x)
      ensures Has(d.spent, x)
    {
      LastingHas(d.spent, d.now, x);
    }
    OwnerNames(d, rules);
    forall g | g in k.issued + k.arming
      ensures NamesMembers(k, g)
    {
      KeepIn(d.issued, ExpiredBefore(d.now), g);
      assert NamesMembers(d, g);
    }
    FewerOk(d, rules, k, ExpiredBefore(d.now));
  }

  lemma OwnerNames(d: Desk, rules: Rules)
    requires OwnerOk(d, rules)
    ensures d.owner && d.self in d.members
    ensures forall g :: g in d.issued ==> NamesMembers(d, g)
    ensures forall g :: g in d.arming ==> NamesMembers(d, g)
  {
  }

  /** What a test hits bears no ticket that it keeps. */
  lemma HitsGone(d: Desk, rules: Rules, test: Test, x: Id)
    requires OwnerOk(d, rules)
    requires (exists g :: g in Hits(d.tickets, test) && g.ticket == x)
        || (exists g :: g in Hits(d.issued, test) && g.ticket == x)
    ensures Gone(d, test, x)
  {
    forall g | g in d.issued && g.ticket == x
      ensures Matches(test, g)
    {
      if e :| e in Hits(d.tickets, test) && e.ticket == x {
        KeepIn(d.tickets, test, e);
        SameTicket(d.issued, e, g);
      } else {
        var e :| e in Hits(d.issued, test) && e.ticket == x;
        KeepIn(d.issued, test, e);
        SameTicket(d.issued, e, g);
      }
    }
  }

  /** Revoking a member: an arm still in flight for it is revoked as well. */
  lemma InvalidateMemberOk(d: Desk, rules: Rules, member: Id)
    requires OwnerOk(d, rules) && ArmingApart(d) && member != d.self && member in d.members
    ensures OwnerOk(InvalidateMember(d.(members := d.members - {member}), rules, member), rules)
  {
    hide OwnerOk, Has, RememberAll, Gone;
    var test := Naming(member);
    var k := InvalidateMember(d.(members := d.members - {member}), rules, member);
    var spent := RememberAll(rules, d.spent, Hits(d.tickets, test), d.now);
    var spent' := RememberAll(rules, spent, Hits(d.issued, test), d.now);
    forall x | Has(k.spent, x)
      ensures Has(d.spent, x) || Gone(d, test, x)
    {
      RememberAllHas(rules, spent', Hits(d.arming, test), d.now, x);
      RememberAllHas(rules, spent, Hits(d.issued, test), d.now, x);
      RememberAllHas(rules, d.spent, Hits(d.tickets, test), d.now, x);
      if exists g :: g in Hits(d.arming, test) && g.ticket == x {
        var e :| e in Hits(d.arming, test) && e.ticket == x;
        KeepIn(d.arming, test, e);
        ArmingGone(d, test, e);
      } else if !Has(d.spent, x) {
        HitsGone(d, rules, test, x);
      }
    }
    OwnerNames(d, rules);
    forall g | g in k.issued + k.arming
      ensures NamesMembers(k, g)
    {
      KeepIn(d.issued, test, g);
      KeepIn(d.arming, test, g);
    }
    FewerOk(d, rules, k, test);
  }

  /** A grant being armed is the live one of its ticket, or that ticket is not live. */
  ghost predicate ArmingApart(d: Desk) {
    forall a, g :: a in d.arming && g in d.issued && a.ticket == g.ticket ==> a == g
  }

  lemma ArmingGone(d: Desk, test: Test, e: Grant)
    requires ArmingApart(d) && e in d.arming && Matches(test, e)
    ensures Gone(d, test, e.ticket)
  {
  }

  lemma InvalidateAllOk(d: Desk, rules: Rules)
    requires d.owner && d.self in d.members
    ensures OwnerOk(InvalidateAll(d, rules), rules)
  {
    hide RememberAll, Has;
  }

  lemma ScrapOk(d: Desk, rules: Rules, ticket: Id)
    requires OwnerOk(d, rules)
    ensures OwnerOk(Scrap(d, rules, ticket), rules)
  {
    hide OwnerOk, Has, Remember;
    var k := Scrap(d, rules, ticket);
    OwnerNames(d, rules);
    forall g | g in k.issued + k.arming
      ensures NamesMembers(k, g)
    {
      KeepIn(d.issued, Holding(ticket), g);
      KeepIn(d.arming, Holding(ticket), g);
      assert NamesMembers(d, g);
    }
    forall x | Has(k.spent, x)
      ensures Has(d.spent, x) || Gone(d, Holding(ticket), x)
    {
      RememberHas(rules, d.spent, ticket, d.now, x);
    }
    FewerOk(d, rules, k, Holding(ticket));
  }

  // ---- Issuing ----

  /** A ticket never used before. */
  ghost predicate FreshTicket(d: Desk, ticket: Id) {
    && !Has(d.spent, ticket)
    && forall g :: g in d.issued + d.tickets + d.arming ==> g.ticket != ticket
  }

  lemma FreshAfterPrune(d: Desk, rules: Rules, ticket: Id)
    requires FreshTicket(d, ticket)
    ensures FreshTicket(Prune(d), ticket)
  {
    hide Has;
    if Has(Prune(d).spent, ticket) {
      LastingHas(d.spent, d.now, ticket);
    }
    forall g
      ensures g in Keep(d.issued, ExpiredBefore(d.now)) ==> g in d.issued
      ensures g in Keep(d.tickets, ExpiredBefore(d.now)) ==> g in d.tickets
    {
      KeepIn(d.issued, ExpiredBefore(d.now), g);
      KeepIn(d.tickets, ExpiredBefore(d.now), g);
    }
  }

  lemma LiveOk(d: Desk, rules: Rules, g: Grant)
    requires OwnerOk(d, rules) && FreshTicket(d, g.ticket) && NamesMembers(d, g)
    requires !d.paused && !d.closing && |Hits(d.issued, From(g.senderId))| < rules.cap
    ensures OwnerOk(d.(issued := d.issued + [g]), rules)
  {
    hide Has, NamesMembers;
    forall sender
      ensures |Hits(d.issued + [g], From(sender))| <= rules.cap
    {
      OneMoreHit(d.issued, g, From(sender));
      assert |Hits(d.issued, From(sender))| <= rules.cap;
    }
    forall i | 0 <= i < |d.issued|
      ensures d.issued[i].ticket != g.ticket
    {
      assert d.issued[i] in d.issued;
    }
    var k := d.(issued := d.issued + [g]);
    forall e
      ensures NamesMembers(k, e) == NamesMembers(d, e)
    {
      SameNames(d, k, e);
    }
  }

  lemma SameNames(d: Desk, k: Desk, g: Grant)
    requires k.members == d.members && k.roomId == d.roomId
    ensures NamesMembers(k, g) == NamesMembers(d, g)
  {
  }

  /** Arming at the owner itself: what it stores is the grant, deadline and all. */
  lemma ArmAtOwner(d: Desk, rules: Rules, g: Grant)
    requires OwnerOk(d, rules) && g in d.issued && g.recipientId == d.self && g.expiresAt == d.now + rules.ttl
    ensures Arm(d, rules, g).Some? ==> OwnerOk(Arm(d, rules, g).value, rules)
  {
    FindIn(d.issued, g.ticket);
    if Arm(d, rules, g).Some? {
      var k := Arm(d, rules, g).value;
      assert k.tickets == d.tickets + [g] && k.issued == d.issued;
    }
  }

  lemma IssueOk(d: Desk, rules: Rules, claim: Claim, capable: bool)
    requires OwnerOk(d, rules) && FreshTicket(d, claim.ticket)
    ensures OwnerOk(Issue(d, rules, claim, capable), rules)
  {
    hide OwnerOk, Arm, Keep, Lasting, Has;
    PruneOk(d, rules);
    FreshAfterPrune(d, rules, claim.ticket);
    var p := Prune(d);
    if Issuable(p, rules, claim, capable) {
      var g := Minted(d, rules, claim);
      var live := p.(issued := p.issued + [g]);
      LiveOk(p, rules, g);
      assert g in live.issued;
      if g.recipientId == d.self {
        ArmAtOwner(live, rules, g);
        ScrapOk(live, rules, g.ticket);
      } else {
        ArmingOk(live, rules, g);
      }
    }
  }

  lemma ArmingOk(d: Desk, rules: Rules, g: Grant)
    requires OwnerOk(d, rules) && g in d.issued
    ensures OwnerOk(d.(arming := d.arming + [g]), rules)
  {
    hide Has;
  }

  lemma ResolveArmOk(d: Desk, rules: Rules, from: Id, g: Grant)
    requires OwnerOk(d, rules)
    ensures OwnerOk(ResolveArm(d, from, g), rules)
  {
    hide Has;
    forall e
      ensures e in Keep(d.arming, Holding(g.ticket)) ==> e in d.arming
    {
      KeepIn(d.arming, Holding(g.ticket), e);
    }
  }

  // ---- Consuming at the owner ----

  lemma ConsumeIssuedOk(d: Desk, rules: Rules, claim: Claim, asker: Id)
    requires OwnerOk(d, rules)
    ensures var (k, ok) := ConsumeIssued(d, rules, claim, asker);
            OwnerOk(k.(tickets := Keep(k.tickets, Holding(claim.ticket))), rules)
    ensures asker != d.self ==> OwnerOk(ConsumeIssued(d, rules, claim, asker).0, rules)
  {
    hide OwnerOk, Has, Remember, Lasting;
    PruneOk(d, rules);
    var p := Prune(d);
    var (k, ok) := ConsumeIssued(d, rules, claim, asker);
    TicketsGoneOk(p, rules, claim.ticket);
    if ok {
      var scrapped := Scrap(p, rules, claim.ticket);
      ScrapOk(p, rules, claim.ticket);
      SpentOk(p, rules, claim.ticket);
      if asker != d.self {
        OthersTicket(p, rules, claim, asker);
      }
    }
  }

  lemma TicketsGoneOk(d: Desk, rules: Rules, ticket: Id)
    requires OwnerOk(d, rules)
    ensures OwnerOk(d.(tickets := Keep(d.tickets, Holding(ticket))), rules)
  {
    hide Has;
    forall g
      ensures g in Keep(d.tickets, Holding(ticket)) ==> g in d.tickets
    {
      KeepIn(d.tickets, Holding(ticket), g);
    }
  }

  lemma SpentOk(d: Desk, rules: Rules, ticket: Id)
    requires OwnerOk(d, rules)
    ensures OwnerOk(d.(issued := Keep(d.issued, Holding(ticket)), tickets := Keep(d.tickets, Holding(ticket)),
                       spent := Remember(rules, d.spent, ticket, d.now)), rules)
  {
    hide OwnerOk, Has, Remember;
    var k := d.(issued := Keep(d.issued, Holding(ticket)), tickets := Keep(d.tickets, Holding(ticket)),
                spent := Remember(rules, d.spent, ticket, d.now));
    OwnerNames(d, rules);
    forall g | g in k.issued + k.arming
      ensures NamesMembers(k, g)
    {
      KeepIn(d.issued, Holding(ticket), g);
      assert NamesMembers(d, g);
    }
    forall x | Has(k.spent, x)
      ensures Has(d.spent, x) || Gone(d, Holding(ticket), x)
    {
      RememberHas(rules, d.spent, ticket, d.now, x);
    }
    FewerOk(d, rules, k, Holding(ticket));
  }

  /** A ticket granted to a guest is not armed at the owner. */
  lemma OthersTicket(d: Desk, rules: Rules, claim: Claim, asker: Id)
    requires OwnerOk(d, rules) && asker != d.self
    requires Find(d.issued, claim.ticket).Some? && Find(d.issued, claim.ticket).value.recipientId == asker
    ensures Keep(d.tickets, Holding(claim.ticket)) == d.tickets
  {
    FindIn(d.issued, claim.ticket);
    var e := Find(d.issued, claim.ticket).value;
    forall g | g in d.tickets
      ensures g.ticket != claim.ticket
    {
      if g.ticket == claim.ticket {
        SameTicket(d.issued, g, e);
      }
    }
    NothingDropped(d.tickets, Holding(claim.ticket));
  }

  lemma {:induction false} NothingDropped(grants: seq<Grant>, test: Test)
    requires forall g :: g in grants ==> !Matches(test, g)
    ensures Keep(grants, test) == grants
  {
    if grants != [] {
      assert grants[0] in grants;
      assert forall g :: g in grants[1..] ==> g in grants;
      NothingDropped(grants[1..], test);
    }
  }

  lemma {:induction false} KeepTwice(grants: seq<Grant>, test: Test)
    ensures Keep(Keep(grants, test), test) == Keep(grants, test)
  {
    forall g | g in Keep(grants, test)
      ensures !Matches(test, g)
    {
      KeepIn(grants, test, g);
    }
    NothingDropped(Keep(grants, test), test);
  }

  /** When the owner is the recipient, its two sets of books never disagree. */
  lemma OwnerAgrees(d: Desk, rules: Rules, claim: Claim)
    requires OwnerOk(d, rules) && Consumable(Prune(d), claim).Some?
    ensures ConsumeIssued(Prune(d), rules, claim, d.self).1
    ensures Find(Prune(d).issued, claim.ticket) == Consumable(Prune(d), claim)
  {
    hide Has, NamesMembers;
    var p := Prune(d);
    PruneOk(d, rules);
    FindIn(p.tickets, claim.ticket);
    FindIn(p.issued, claim.ticket);
    KeepTwice(d.issued, ExpiredBefore(d.now));
    var g := Find(p.tickets, claim.ticket).value;
    assert g in p.issued;
    SameTicket(p.issued, g, Find(p.issued, claim.ticket).value);
  }

  lemma ConsumeBeginOk(d: Desk, rules: Rules, request: Id, claim: Claim)
    requires OwnerOk(d, rules)
    ensures OwnerOk(ConsumeBegin(d, rules, request, claim).0, rules)
  {
    hide OwnerOk, Has, Remember, Prune, Consumable, ConsumeIssued;
    PruneOk(d, rules);
    OwnerNames(d, rules);
    assert Prune(d).owner && Prune(d).self == d.self by { PruneKeeps(d); }
    if Consumable(Prune(d), claim).Some? {
      OwnerAgrees(d, rules, claim);
      ConsumeIssuedOk(Prune(d), rules, claim, d.self);
      var (k, ok) := ConsumeIssued(Prune(d), rules, claim, d.self);
      IssuedGone(Prune(d), rules, claim, d.self);
      ConsumedOk(k, rules, claim.ticket);
    }
  }

  lemma PruneKeeps(d: Desk)
    ensures Prune(d).owner == d.owner && Prune(d).self == d.self
  {
  }

  lemma IssuedGone(d: Desk, rules: Rules, claim: Claim, asker: Id)
    requires ConsumeIssued(d, rules, claim, asker).1
    ensures forall g :: g in ConsumeIssued(d, rules, claim, asker).0.issued ==> g.ticket != claim.ticket
  {
    var p := Prune(d);
    forall g | g in Keep(p.issued, Holding(claim.ticket))
      ensures g.ticket != claim.ticket
    {
      KeepIn(p.issued, Holding(claim.ticket), g);
    }
  }

  lemma ConsumedOk(d: Desk, rules: Rules, ticket: Id)
    requires OwnerOk(d.(tickets := Keep(d.tickets, Holding(ticket))), rules)
    requires forall g :: g in d.issued ==> g.ticket != ticket
    ensures OwnerOk(Consumed(d, rules, ticket), rules)
  {
    hide Has, Remember, Unique, WithinCap, NamesMembers;
    var t := d.(tickets := Keep(d.tickets, Holding(ticket)));
    var k := Consumed(d, rules, ticket);
    forall g
      ensures NamesMembers(k, g) == NamesMembers(t, g)
    {
      SameNames(t, k, g);
    }
    forall g: Grant | Has(k.spent, g.ticket)
      ensures g.ticket == ticket || Has(d.spent, g.ticket)
    {
      RememberHas(rules, d.spent, ticket, d.now, g.ticket);
    }
  }

  // ---- Every segment of the owner ----

  ghost predicate BooksOk(d: Desk, rules: Rules) {
    OwnerOk(d, rules) && ArmingApart(d)
  }

  datatype Act =
    | Ticks(now: nat)
    | Sweeps
    | Pauses(flag: bool)
    | Closes
    | Sees(member: Id, presence: Presence)
    | Loses(member: Id)
    | Issues(claim: Claim, capable: bool)
    | HearsArmed(from: Id, grant: Grant)
    | EndsIssue(grant: Grant, armed: bool, current: bool)
    | Decides(claim: Claim, asker: Id)
    | Takes(request: Id, claim: Claim)

  /** A segment of the owner's; `Takes` is a transfer to the owner itself. */
  function Acts(d: Desk, rules: Rules, act: Act): Desk {
    match act
    case Ticks(now) => if now >= d.now then d.(now := now) else d
    case Sweeps => Prune(d)
    case Pauses(flag) => Pause(d, rules, flag)
    case Closes => Close(d, rules)
    case Sees(member, presence) => d.(members := d.members[member := presence])
    case Loses(member) => MemberGone(d, rules, member)
    case Issues(claim, capable) => Issue(d, rules, claim, capable)
    case HearsArmed(from, grant) => ResolveArm(d, from, grant)
    case EndsIssue(grant, armed, current) => IssueEnd(d, rules, grant, armed, current).0
    case Decides(claim, asker) => if asker == d.self then d else ConsumeIssued(d, rules, claim, asker).0
    case Takes(request, claim) => ConsumeBegin(d, rules, request, claim).0
  }

  lemma SameBooks(d: Desk, rules: Rules, k: Desk)
    requires OwnerOk(d, rules)
    requires k == d.(now := k.now, members := k.members) && k.members.Keys >= d.members.Keys
    ensures OwnerOk(k, rules)
  {
    hide Has, Unique, WithinCap;
  }

  /** The authority invariant is kept by every segment, an arm in flight or not. */
  lemma ActsOk(d: Desk, rules: Rules, act: Act)
    requires BooksOk(d, rules)
    requires act.Issues? ==> FreshTicket(d, act.claim.ticket)
    ensures OwnerOk(Acts(d, rules, act), rules)
  {
    hide OwnerOk, ArmingApart, FreshTicket, Prune, InvalidateMember, InvalidateAll, Issue, ResolveArm, Scrap,
      ConsumeIssued, ConsumeBegin;
    OwnerNames(d, rules);
    match act
    case Ticks(now) => SameBooks(d, rules, Acts(d, rules, act));
    case Sweeps => PruneOk(d, rules);
    case Pauses(flag) =>
      InvalidateAllOk(d.(paused := flag), rules);
      if !flag {
        UnpausedOk(d, rules);
      }
    case Closes => InvalidateAllOk(d.(paused := true, closing := true), rules);
    case Sees(member, presence) => SameBooks(d, rules, Acts(d, rules, act));
    case Loses(member) =>
      if member != d.self && member in d.members {
        InvalidateMemberOk(d, rules, member);
      }
    case Issues(claim, capable) => IssueOk(d, rules, claim, capable);
    case HearsArmed(from, grant) => ResolveArmOk(d, rules, from, grant);
    case EndsIssue(grant, armed, current) => ScrapOk(d, rules, grant.ticket);
    case Decides(claim, asker) => ConsumeIssuedOk(d, rules, claim, asker);
    case Takes(request, claim) => ConsumeBeginOk(d, rules, request, claim);
  }

  lemma UnpausedOk(d: Desk, rules: Rules)
    requires OwnerOk(d, rules)
    ensures OwnerOk(d.(paused := false), rules)
  {
    hide Has, Unique, WithinCap;
  }

  /** Grants only ever leave the lists, but for the one just issued. */
  lemma ActsApart(d: Desk, rules: Rules, act: Act)
    requires BooksOk(d, rules)
    requires act.Issues? ==> FreshTicket(d, act.claim.ticket)
    ensures ArmingApart(Acts(d, rules, act))
  {
    hide OwnerOk, ArmingApart, Has, Remember, RememberAll, Lasting;
    if act.Issues? {
      IssueShape(d, rules, act.claim, act.capable);
      ApartAfterIssue(d, Acts(d, rules, act), Minted(d, rules, act.claim));
    } else {
      ActsShrink(d, rules, act);
      FewerApart(d, Acts(d, rules, act));
    }
  }

  lemma FewerApart(d: Desk, k: Desk)
    requires ArmingApart(d)
    requires forall g :: (g in k.issued ==> g in d.issued) && (g in k.arming ==> g in d.arming)
    ensures ArmingApart(k)
  {
  }

  lemma ApartAfterIssue(d: Desk, k: Desk, g: Grant)
    requires ArmingApart(d) && FreshTicket(d, g.ticket)
    requires forall e :: (e in k.issued ==> e in d.issued || e == g) && (e in k.arming ==> e in d.arming || e == g)
    ensures ArmingApart(k)
  {
    hide Has;
  }

  /** No segment but issuing makes a ticket live. */
  lemma ActsShrink(d: Desk, rules: Rules, act: Act)
    requires OwnerOk(d, rules) && !act.Issues?
    ensures var k := Acts(d, rules, act);
            forall g :: (g in k.issued ==> g in d.issued) && (g in k.arming ==> g in d.arming)
  {
    hide OwnerOk, Remember, RememberAll, Lasting, Has, Matches;
    OwnerNames(d, rules);
    var k := Acts(d, rules, act);
    if act.Takes? {
      TakesShrinks(d, rules, act.request, act.claim);
    } else {
      forall g
        ensures (g in k.issued ==> g in d.issued) && (g in k.arming ==> g in d.arming)
      {
        KeepIn(d.issued, ExpiredBefore(d.now), g);
        match act
        case Loses(member) => KeepIn(d.issued, Naming(member), g); KeepIn(d.arming, Naming(member), g);
        case HearsArmed(_, grant) => KeepIn(d.arming, Holding(grant.ticket), g);
        case EndsIssue(grant, _, _) =>
          KeepIn(d.issued, Holding(grant.ticket), g);
          KeepIn(d.arming, Holding(grant.ticket), g);
        case Decides(claim, _) => KeepIn(Prune(d).issued, Holding(claim.ticket), g);
        case _ =>
      }
    }
  }

  lemma TakesShrinks(d: Desk, rules: Rules, request: Id, claim: Claim)
    requires d.owner
    ensures forall g :: g in ConsumeBegin(d, rules, request, claim).0.issued ==> g in d.issued
    ensures ConsumeBegin(d, rules, request, claim).0.arming == d.arming
  {
    hide Remember, Lasting, Has, Matches;
    var p := Prune(d);
    forall g
      ensures g in p.issued ==> g in d.issued
      ensures g in Prune(p).issued ==> g in p.issued
      ensures g in Keep(Prune(p).issued, Holding(claim.ticket)) ==> g in Prune(p).issued
    {
      KeepIn(d.issued, ExpiredBefore(d.now), g);
      KeepIn(p.issued, ExpiredBefore(d.now), g);
      KeepIn(Prune(p).issued, Holding(claim.ticket), g);
    }
  }

  lemma IssueShape(d: Desk, rules: Rules, claim: Claim, capable: bool)
    requires FreshTicket(d, claim.ticket) && OwnerOk(d, rules)
    ensures var k := Issue(d, rules, claim, capable);
            var g := Minted(d, rules, claim);
            forall e :: (e in k.issued ==> e in d.issued || e == g) && (e in k.arming ==> e in d.arming || e == g)
  {
    hide OwnerOk, Remember, Lasting, Has, Matches, FreshTicket;
    OwnerNames(d, rules);
    var g := Minted(d, rules, claim);
    var live := Prune(d).(issued := Prune(d).issued + [g]);
    FindIn(live.issued, g.ticket);
    assert Find(live.issued, g.ticket).Some? by {
      assert g in live.issued;
    }
    forall e
      ensures e in Prune(d).issued ==> e in d.issued
      ensures e in Keep(live.issued, Holding(claim.ticket)) ==> e in live.issued
      ensures e in Keep(live.arming, Holding(claim.ticket)) ==> e in live.arming
    {
      KeepIn(d.issued, ExpiredBefore(d.now), e);
      KeepIn(live.issued, Holding(claim.ticket), e);
      KeepIn(live.arming, Holding(claim.ticket), e);
    }
  }
}
