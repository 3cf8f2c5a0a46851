/**
 * Single use. Over every interleaving, a ticket lets at most one transfer
 * begin, at the recipient it was granted to and exactly as granted.
 */
module TicketSafety {
  import opened Basics
  import opened RoomTypes
  import opened EventDeduper
  import opened TicketDesk
  import opened TicketAuthority
  import opened TicketSystem
  import opened TicketRecords

  ghost predicate DesksOk(w: World, rules: Rules) {
    && w.owner in w.desks && BooksOk(w.desks[w.owner], rules)
    && (forall n :: n in w.desks ==> w.desks[n].self == n && (w.desks[n].owner <==> n == w.owner))
  }

  /** Ticket `t` was decided on. */
  ghost predicate Decided(accepted: seq<Acceptance>, t: Id) {
    exists i :: 0 <= i < |accepted| && accepted[i].grant.ticket == t
  }

  /** What is live at the owner was minted as it stands, and was not yet accepted. */
  ghost predicate LiveOk(minted: map<Id, Grant>, accepted: seq<Acceptance>, issued: seq<Grant>) {
    forall g :: g in issued ==> g.ticket in minted && minted[g.ticket] == g && !Decided(accepted, g.ticket)
  }

  predicate FairDecision(minted: map<Id, Grant>, a: Acceptance) {
    && a.grant.ticket in minted && minted[a.grant.ticket] == a.grant
    && a.asker == a.grant.recipientId && a.time <= a.grant.expiresAt
    && !a.paused && a.senderOnline && a.recipientOnline
  }

  ghost predicate AcceptedOk(minted: map<Id, Grant>, accepted: seq<Acceptance>) {
    && (forall i :: 0 <= i < |accepted| ==> FairDecision(minted, accepted[i]))
    && (forall i, j :: 0 <= i < j < |accepted| ==> accepted[i].grant.ticket != accepted[j].grant.ticket)
  }

  /** A decision for this request of this participant, on exactly this claim. */
  ghost predicate Backed(accepted: seq<Acceptance>, node: Id, request: Id, claim: Claim) {
    exists i :: 0 <= i < |accepted| && accepted[i].request == request && accepted[i].asker == node
      && ClaimOf(accepted[i].grant) == claim
  }

  /** As the owner's answer knows it: by ticket alone. */
  ghost predicate Answered(accepted: seq<Acceptance>, node: Id, request: Id, ticket: Id) {
    exists i :: 0 <= i < |accepted| && accepted[i].request == request && accepted[i].asker == node
      && accepted[i].grant.ticket == ticket
  }

  ghost predicate NetOk(w: World) {
    && (forall m :: m in w.net && m.AskMsg? ==> m.request in w.requests)
    && (forall m, l :: m in w.net && l in w.net && m.AskMsg? && l.AskMsg? && m.request == l.request ==> m == l)
    && (forall m :: m in w.net && m.AnswerMsg? && m.accepted ==> Answered(w.accepted, m.to, m.request, m.ticket))
    && (forall i :: 0 <= i < |w.accepted| && w.accepted[i].asker != w.owner ==>
          AskMsg(w.accepted[i].asker, w.accepted[i].request, ClaimOf(w.accepted[i].grant)) in w.net)
  }

  ghost predicate CallOk(w: World, r: Id, c: Call) {
    && r in w.requests && c.node in w.desks && c.node != w.owner && AskMsg(c.node, r, c.claim) in w.net
    && (c.node, c.claim.ticket) in w.armed
    && (c.answer == Some(true) ==> Answered(w.accepted, c.node, r, c.claim.ticket))
  }

  /** A request a guest waits for is a call under way there. */
  predicate WaitOk(calls: map<Id, Call>, n: Id, r: Id, g: Grant) {
    r in calls && calls[r].node == n && calls[r].claim.ticket == g.ticket
  }

  ghost predicate CallsOk(w: World) {
    && (forall r :: r in w.calls ==> CallOk(w, r, w.calls[r]))
    && (forall n, r :: n in w.desks && r in w.desks[n].asking ==> WaitOk(w.calls, n, r, w.desks[n].asking[r]))
  }

  ghost predicate SuccessOk(w: World) {
    && (forall i :: 0 <= i < |w.successes| ==>
          var s := w.successes[i];
          && s.request in w.requests && s.request !in w.calls && (s.node, s.claim.ticket) in w.armed
          && Backed(w.accepted, s.node, s.request, s.claim))
    && (forall i, j :: 0 <= i < j < |w.successes| ==> w.successes[i].request != w.successes[j].request)
  }

  /** Whatever is armed anywhere was armed by an owner's grant reaching its recipient. */
  ghost predicate ArmedOk(w: World) {
    forall n, g :: n in w.desks && g in w.desks[n].tickets ==> (n, g.ticket) in w.armed
  }

  ghost predicate SafeOk(w: World, rules: Rules) {
    && DesksOk(w, rules)
    && LiveOk(w.minted, w.accepted, w.desks[w.owner].issued)
    && AcceptedOk(w.minted, w.accepted)
    && NetOk(w) && CallsOk(w) && SuccessOk(w) && ArmedOk(w)
  }

  // ---- Steps that touch one participant's books only ----

  /** A participant's books shrank; nobody else noticed. */
  ghost predicate Shrinks(d: Desk, k: Desk) {
    && k.self == d.self && k.owner == d.owner
    && (forall g :: g in k.issued ==> g in d.issued)
    && (forall g :: g in k.tickets ==> g in d.tickets)
    && (forall r :: r in k.asking ==> r in d.asking && k.asking[r] == d.asking[r])
  }

  lemma DeskShrinks(w: World, rules: Rules, n: Id, k: Desk)
    requires SafeOk(w, rules) && n in w.desks && Shrinks(w.desks[n], k)
    requires n == w.owner ==> BooksOk(k, rules)
    ensures SafeOk(w.(desks := w.desks[n := k]), rules)
  {
    hide BooksOk, Decided, FairDecision, Answered, Backed;
  }

  lemma InvalidateShrinks(d: Desk, rules: Rules, member: Id)
    ensures Shrinks(d, InvalidateMember(d, rules, member)) && Shrinks(d, InvalidateAll(d, rules))
      && Shrinks(d, Prune(d))
  {
    hide Matches, RememberAll, Lasting;
    forall g
      ensures g in Keep(d.issued, Naming(member)) ==> g in d.issued
      ensures g in Keep(d.tickets, Naming(member)) ==> g in d.tickets
      ensures g in Keep(d.issued, ExpiredBefore(d.now)) ==> g in d.issued
      ensures g in Keep(d.tickets, ExpiredBefore(d.now)) ==> g in d.tickets
    {
      KeepIn(d.issued, Naming(member), g);
      KeepIn(d.tickets, Naming(member), g);
      KeepIn(d.issued, ExpiredBefore(d.now), g);
      KeepIn(d.tickets, ExpiredBefore(d.now), g);
    }
  }

  lemma LosesShrinks(d: Desk, rules: Rules, member: Id)
    ensures Shrinks(d, MemberGone(d, rules, member))
  {
    hide InvalidateMember;
    InvalidateShrinks(d.(members := d.members - {member}), rules, member);
  }

  lemma PausesShrinks(d: Desk, rules: Rules, flag: bool)
    ensures Shrinks(d, Pause(d, rules, flag)) && Shrinks(d, Close(d, rules))
  {
    hide InvalidateAll;
    InvalidateShrinks(d.(paused := flag), rules, 0);
    InvalidateShrinks(d.(paused := true, closing := true), rules, 0);
  }

  lemma OwnerActsSafe(w: World, rules: Rules, act: Act)
    requires SafeOk(w, rules) && Housekeeping(act)
    ensures SafeOk(w.(desks := w.desks[w.owner := Acts(Books(w), rules, act)]), rules)
  {
    hide BooksOk, Prune, Pause, Close, MemberGone;
    var d := Books(w);
    assert BooksOk(d, rules);
    BooksKept(d, rules, act);
    InvalidateShrinks(d, rules, 0);
    match act
    case Pauses(flag) => PausesShrinks(d, rules, flag); DeskShrinks(w, rules, w.owner, Acts(d, rules, act));
    case Closes => PausesShrinks(d, rules, false); DeskShrinks(w, rules, w.owner, Acts(d, rules, act));
    case Loses(member) => LosesShrinks(d, rules, member); DeskShrinks(w, rules, w.owner, Acts(d, rules, act));
    case _ => DeskShrinks(w, rules, w.owner, Acts(d, rules, act));
  }

  lemma BooksKept(d: Desk, rules: Rules, act: Act)
    requires BooksOk(d, rules)
    requires act.Issues? ==> FreshTicket(d, act.claim.ticket)
    ensures BooksOk(Acts(d, rules, act), rules)
  {
    hide OwnerOk, ArmingApart, Acts;
    ActsOk(d, rules, act);
    ActsApart(d, rules, act);
  }

  lemma GuestSafe(w: World, rules: Rules, step: Step)
    requires SafeOk(w, rules) && (step.GuestSees? || step.GuestPauses? || step.GuestLoses? || step.GuestSweeps?)
    ensures SafeOk(TicketSystem.GuestStep(w, rules, step), rules)
  {
    hide SafeOk, Prune, Pause, MemberGone, InvalidateMember;
    if step.node in w.desks && step.node != w.owner {
      var d := w.desks[step.node];
      var k := TicketSystem.GuestStep(w, rules, step).desks[step.node];
      InvalidateShrinks(d, rules, if step.GuestLoses? then step.member else 0);
      if step.GuestPauses? {
        PausesShrinks(d, rules, step.flag);
      }
      if step.GuestLoses? {
        LosesShrinks(d, rules, step.member);
      }
      DeskShrinks(w, rules, step.node, k);
    }
  }

  lemma ArrivalSafe(w: World, rules: Rules, node: Id, members: map<Id, Presence>)
    requires SafeOk(w, rules)
    ensures SafeOk(Arrival(w, node, members), rules)
  {
    hide BooksOk, Decided, FairDecision, Answered, Backed;
  }

  // ---- Issuing and arming ----

  lemma MintSafe(w: World, rules: Rules, claim: Claim, capable: bool)
    requires SafeOk(w, rules)
    ensures SafeOk(MintStep(w, rules, claim, capable), rules)
  {
    hide BooksOk, Decided, Issue, FreshTicket, NetOk, LiveOk, AcceptedOk, CallsOk, SuccessOk, ArmedOk;
    var d := Books(w);
    if claim.ticket !in w.minted && FreshTicket(d, claim.ticket) {
      var g := Minted(d, rules, claim);
      var k := Issue(d, rules, claim, capable);
      var v := MintStep(w, rules, claim, capable);
      BooksKept(d, rules, Issues(claim, capable));
      IssueLists(d, rules, claim, capable);
      NotDecided(w.minted, w.accepted, claim.ticket);
      MintedOnce(w.minted, w.accepted, claim.ticket, g);
      MintNet(w, v);
      MintCalls(w, v, k);
      MintLive(w.minted, w.accepted, d.issued, k.issued, g);
      MintArmed(w, v, k, g);
    }
  }

  lemma MintLive(minted: map<Id, Grant>, accepted: seq<Acceptance>, issued: seq<Grant>, longer: seq<Grant>, g: Grant)
    requires LiveOk(minted, accepted, issued) && g.ticket !in minted && !Decided(accepted, g.ticket)
    requires forall e :: e in longer ==> e in issued || e == g
    ensures LiveOk(minted[g.ticket := g], accepted, longer)
  {
    hide Decided;
  }

  /** Calls and successes only see that more is armed. */
  lemma MintCalls(w: World, v: World, k: Desk)
    requires CallsOk(w) && SuccessOk(w) && w.owner in w.desks && k.asking == w.desks[w.owner].asking
    requires v.owner == w.owner && v.desks == w.desks[w.owner := k] && v.calls == w.calls && v.requests == w.requests
    requires v.accepted == w.accepted && v.successes == w.successes && w.armed <= v.armed && w.net <= v.net
    ensures CallsOk(v) && SuccessOk(v)
  {
    hide Answered, Backed;
  }

  lemma MintArmed(w: World, v: World, k: Desk, g: Grant)
    requires ArmedOk(w) && w.owner in w.desks && v.desks == w.desks[w.owner := k] && w.armed <= v.armed
    requires forall e :: e in k.tickets ==> e in w.desks[w.owner].tickets || e == g
    requires g in k.tickets ==> (w.owner, g.ticket) in v.armed
    ensures ArmedOk(v)
  {
  }

  lemma MintNet(w: World, v: World)
    requires NetOk(w) && v.requests == w.requests && v.accepted == w.accepted && v.owner == w.owner
    requires w.net <= v.net && forall m :: m in v.net && m !in w.net ==> m.ArmMsg? || m.ArmedMsg?
    ensures NetOk(v)
  {
    hide Answered;
  }

  lemma NotDecided(minted: map<Id, Grant>, accepted: seq<Acceptance>, ticket: Id)
    requires AcceptedOk(minted, accepted) && ticket !in minted
    ensures !Decided(accepted, ticket)
  {
  }

  lemma MintedOnce(minted: map<Id, Grant>, accepted: seq<Acceptance>, ticket: Id, g: Grant)
    requires AcceptedOk(minted, accepted) && ticket !in minted
    ensures AcceptedOk(minted[ticket := g], accepted)
  {
  }

  lemma IssueLists(d: Desk, rules: Rules, claim: Claim, capable: bool)
    requires BooksOk(d, rules) && FreshTicket(d, claim.ticket)
    ensures var k := Issue(d, rules, claim, capable);
            var g := Minted(d, rules, claim);
            && k.self == d.self && k.owner == d.owner && k.asking == d.asking
            && (forall e :: e in k.issued ==> e in d.issued || e == g)
            && (forall e :: e in k.tickets ==> e in d.tickets || e == g)
  {
    hide Has, Remember, Lasting, Matches, FreshTicket, ArmingApart, OwnerOk;
    IssueShape(d, rules, claim, capable);
    OwnerNames(d, rules);
    var g := Minted(d, rules, claim);
    var live := Prune(d).(issued := Prune(d).issued + [g]);
    forall e
      ensures e in Prune(d).tickets ==> e in d.tickets
      ensures e in Keep(live.tickets, Holding(claim.ticket)) ==> e in live.tickets
    {
      KeepIn(d.tickets, ExpiredBefore(d.now), e);
      KeepIn(live.tickets, Holding(claim.ticket), e);
    }
  }

  lemma ArmSafe(w: World, rules: Rules, to: Id, g: Grant)
    requires SafeOk(w, rules)
    ensures SafeOk(ArmStep(w, rules, to, g), rules)
  {
    hide BooksOk, Decided, FairDecision, Answered, Backed, NetOk, Has, Lookup;
    var v := ArmStep(w, rules, to, g);
    if v != w {
      MintNet(w, v);
      forall n, e | n in v.desks && e in v.desks[n].tickets
        ensures (n, e.ticket) in v.armed
      {
        assert n != to ==> e in w.desks[n].tickets;
      }
    }
  }

  lemma ArmedSafe(w: World, rules: Rules, from: Id, g: Grant)
    requires SafeOk(w, rules)
    ensures SafeOk(ArmedStep(w, from, g), rules)
  {
    hide SafeOk, BooksOk, DesksOk;
    OwnerBooks(w, rules);
    var d := w.desks[w.owner];
    BooksKept(d, rules, HearsArmed(from, g));
    DeskShrinks(w, rules, w.owner, ResolveArm(d, from, g));
    if ArmedStep(w, from, g) != w {
      IssuingApart(w.(desks := w.desks[w.owner := ResolveArm(d, from, g)]), ArmedStep(w, from, g), rules);
    }
  }

  lemma OwnerBooks(w: World, rules: Rules)
    requires SafeOk(w, rules)
    ensures DesksOk(w, rules) && w.owner in w.desks && BooksOk(w.desks[w.owner], rules)
  {
    hide BooksOk;
  }

  /** The owner's operations under way are not part of what is kept. */
  lemma IssuingApart(w: World, v: World, rules: Rules)
    requires SafeOk(w, rules) && v == w.(issuing := v.issuing)
    ensures SafeOk(v, rules)
  {
    hide BooksOk, Decided, FairDecision, Answered, Backed;
  }

  lemma IssueEndSafe(w: World, rules: Rules, ticket: Id, current: bool)
    requires SafeOk(w, rules)
    ensures SafeOk(IssueEndStep(w, rules, ticket, current), rules)
  {
    hide SafeOk, BooksOk, Has, Remember;
    OwnerBooks(w, rules);
    if ticket in w.issuing {
      var d := w.desks[w.owner];
      var op := w.issuing[ticket];
      BooksKept(d, rules, EndsIssue(op.grant, op.armed, current));
      forall g
        ensures g in Keep(d.issued, Holding(op.grant.ticket)) ==> g in d.issued
        ensures g in Keep(d.tickets, Holding(op.grant.ticket)) ==> g in d.tickets
      {
        KeepIn(d.issued, Holding(op.grant.ticket), g);
        KeepIn(d.tickets, Holding(op.grant.ticket), g);
      }
      var k := IssueEnd(d, rules, op.grant, op.armed, current).0;
      DeskShrinks(w, rules, w.owner, k);
      IssuingApart(w.(desks := w.desks[w.owner := k]), IssueEndStep(w, rules, ticket, current), rules);
    }
  }

  // ---- Deciding ----

  /** What the owner's books say after a decision: the ticket is gone, and it was live. */
  lemma DecisionFacts(w: World, rules: Rules, claim: Claim, asker: Id, request: Id)
    requires SafeOk(w, rules) && asker != w.owner
    ensures var d := w.desks[w.owner];
            var (k, ok) := ConsumeIssued(d, rules, claim, asker);
            && BooksOk(k, rules) && Shrinks(d, k)
            && (ok ==>
                  && Find(Prune(d).issued, claim.ticket).Some?
                  && var g := Find(Prune(d).issued, claim.ticket).value;
                     && g in d.issued && ClaimOf(g) == claim && FairDecision(w.minted, Decision(d, g, request, asker))
                     && !Decided(w.accepted, g.ticket)
                     && forall e :: e in k.issued ==> e.ticket != g.ticket)
  {
    hide Has, Remember, Lasting, NetOk, CallsOk, SuccessOk, ArmedOk, OwnerOk, ArmingApart;
    var d := w.desks[w.owner];
    BooksKept(d, rules, Decides(claim, asker));
    var p := Prune(d);
    FindIn(p.issued, claim.ticket);
    forall g
      ensures g in p.issued ==> g in d.issued
      ensures g in p.tickets ==> g in d.tickets
      ensures g in Keep(p.issued, Holding(claim.ticket)) <==> g in p.issued && g.ticket != claim.ticket
    {
      KeepIn(d.issued, ExpiredBefore(d.now), g);
      KeepIn(d.tickets, ExpiredBefore(d.now), g);
      KeepIn(p.issued, Holding(claim.ticket), g);
    }
  }

  /** One more decision on a ticket that is live no more. */
  lemma DecisionAdded(w: World, rules: Rules, a: Acceptance)
    requires SafeOk(w, rules) && FairDecision(w.minted, a) && !Decided(w.accepted, a.grant.ticket)
    requires forall e :: e in w.desks[w.owner].issued ==> e.ticket != a.grant.ticket
    requires a.asker != w.owner ==> AskMsg(a.asker, a.request, ClaimOf(a.grant)) in w.net
    ensures SafeOk(w.(accepted := w.accepted + [a]), rules)
    ensures Backed(w.accepted + [a], a.asker, a.request, ClaimOf(a.grant))
    ensures Answered(w.accepted + [a], a.asker, a.request, a.grant.ticket)
  {
    hide BooksOk, FairDecision, Decided, Backed, Answered;
    assert w.owner in w.desks by { OwnerBooks(w, rules); }
    var longer := w.accepted + [a];
    forall t | Decided(longer, t)
      ensures Decided(w.accepted, t) || t == a.grant.ticket
    {
      DecidedSnoc(w.accepted, a, t);
    }
    forall i | 0 <= i < |w.accepted|
      ensures w.accepted[i].grant.ticket != a.grant.ticket
    {
      DecidedAt(w.accepted, i);
    }
    forall n, r, t | Answered(w.accepted, n, r, t)
      ensures Answered(longer, n, r, t)
    {
      AnsweredSnoc(w.accepted, a, n, r, t);
    }
    forall n, r, c | Backed(w.accepted, n, r, c)
      ensures Backed(longer, n, r, c)
    {
      BackedSnoc(w.accepted, a, n, r, c);
    }
    LastBacks(w.accepted, a);
  }

  lemma DecidedSnoc(accepted: seq<Acceptance>, a: Acceptance, t: Id)
    requires Decided(accepted + [a], t)
    ensures Decided(accepted, t) || t == a.grant.ticket
  {
  }

  lemma DecidedAt(accepted: seq<Acceptance>, i: nat)
    requires i < |accepted|
    ensures Decided(accepted, accepted[i].grant.ticket)
  {
  }

  lemma AnsweredSnoc(accepted: seq<Acceptance>, a: Acceptance, n: Id, r: Id, t: Id)
    requires Answered(accepted, n, r, t)
    ensures Answered(accepted + [a], n, r, t)
  {
    var i :| 0 <= i < |accepted| && accepted[i].request == r && accepted[i].asker == n && accepted[i].grant.ticket == t;
    assert (accepted + [a])[i] == accepted[i];
  }

  lemma BackedSnoc(accepted: seq<Acceptance>, a: Acceptance, n: Id, r: Id, c: Claim)
    requires Backed(accepted, n, r, c)
    ensures Backed(accepted + [a], n, r, c)
  {
    var i :| 0 <= i < |accepted| && accepted[i].request == r && accepted[i].asker == n
        && ClaimOf(accepted[i].grant) == c;
    assert (accepted + [a])[i] == accepted[i];
  }

  lemma LastBacks(accepted: seq<Acceptance>, a: Acceptance)
    ensures Backed(accepted + [a], a.asker, a.request, ClaimOf(a.grant))
    ensures Answered(accepted + [a], a.asker, a.request, a.grant.ticket)
  {
    assert (accepted + [a])[|accepted|] == a;
  }

  lemma AskSafe(w: World, rules: Rules, from: Id, request: Id, claim: Claim)
    requires SafeOk(w, rules) && AskMsg(from, request, claim) in w.net
    ensures SafeOk(AskStep(w, rules, from, request, claim), rules)
  {
    hide SafeOk, ConsumeIssued, Prune, FairDecision, Decided, Backed, Answered, BooksOk;
    OwnerBooks(w, rules);
    var d := w.desks[w.owner];
    if !d.closing && from != w.owner && IsOnline(d, from) {
      var (k, ok) := ConsumeIssued(d, rules, claim, from);
      DecisionFacts(w, rules, claim, from, request);
      var moved := w.(desks := w.desks[w.owner := k]);
      DeskShrinks(w, rules, w.owner, k);
      if ok {
        var a := Decision(d, Find(Prune(d).issued, claim.ticket).value, request, from);
        DecisionAdded(moved, rules, a);
        AnswerSent(moved.(accepted := w.accepted + [a]), rules, AnswerMsg(from, request, claim.ticket, true));
      } else {
        AnswerSent(moved, rules, AnswerMsg(from, request, claim.ticket, false));
      }
    }
  }

  lemma AnswerSent(w: World, rules: Rules, m: Msg)
    requires SafeOk(w, rules) && m.AnswerMsg? && (m.accepted ==> Answered(w.accepted, m.to, m.request, m.ticket))
    ensures SafeOk(w.(net := w.net + {m}), rules)
  {
    hide BooksOk, AcceptedOk, LiveOk, Answered, Backed;
  }

  lemma AnswerSafe(w: World, rules: Rules, to: Id, request: Id, ticket: Id, accepted: bool)
    requires SafeOk(w, rules) && AnswerMsg(to, request, ticket, accepted) in w.net
    ensures SafeOk(AnswerStep(w, to, request, ticket, accepted), rules)
  {
    hide BooksOk, LiveOk, AcceptedOk, CallsOk, SuccessOk, Answered, Backed;
    var v := AnswerStep(w, to, request, ticket, accepted);
    if v != w {
      AnswerHeard(w, v, to, request, ticket, accepted);
    }
  }

  lemma AnswerHeard(w: World, v: World, to: Id, request: Id, ticket: Id, accepted: bool)
    requires CallsOk(w) && SuccessOk(w) && to in w.desks && request in w.calls
    requires request in w.desks[to].asking && w.desks[to].asking[request].ticket == ticket
    requires accepted ==> Answered(w.accepted, to, request, ticket)
    requires v == w.(desks := w.desks[to := w.desks[to].(asking := w.desks[to].asking - {request})],
                     calls := w.calls[request := w.calls[request].(answer := Some(accepted))])
    ensures to != w.owner && CallsOk(v) && SuccessOk(v)
  {
    hide Answered, Backed;
    var c := w.calls[request];
    assert WaitOk(w.calls, to, request, w.desks[to].asking[request]) && CallOk(w, request, c);
    forall r | r in v.calls
      ensures CallOk(v, r, v.calls[r])
    {
      assert CallOk(w, r, w.calls[r]);
    }
    forall n, r | n in v.desks && r in v.desks[n].asking
      ensures WaitOk(v.calls, n, r, v.desks[n].asking[r])
    {
      assert WaitOk(w.calls, n, r, w.desks[n].asking[r]);
    }
    assert v.calls.Keys == w.calls.Keys;
  }

  // ---- Transfers ----

  /** Beginning a transfer only takes from the recipient's books; a guest that asks holds the ticket it claims. */
  lemma BeginFacts(d: Desk, rules: Rules, request: Id, claim: Claim)
    requires d.owner ==> BooksOk(d, rules)
    ensures var (k, outcome) := ConsumeBegin(d, rules, request, claim);
            && k.self == d.self && k.owner == d.owner
            && (d.owner ==> BooksOk(k, rules))
            && (forall g :: g in k.issued ==> g in d.issued)
            && (forall g :: g in k.tickets ==> g in d.tickets)
            && (outcome.Asking? ==>
                  && !d.owner && outcome.grant in d.tickets && outcome.grant.ticket == claim.ticket
                  && k.asking == d.asking[request := outcome.grant])
            && (!outcome.Asking? ==> k.asking == d.asking)
            && (outcome.Accepted? ==> d.owner && outcome.grant in d.tickets)
  {
    hide Has, Remember, Lasting, OwnerOk, ArmingApart;
    if d.owner {
      BooksKept(d, rules, Act.Takes(request, claim));
      TakesShrinks(d, rules, request, claim);
    }
    var p := Prune(d);
    FindIn(p.tickets, claim.ticket);
    forall g
      ensures g in p.issued ==> g in d.issued
      ensures g in p.tickets ==> g in d.tickets
      ensures g in Keep(p.tickets, Holding(claim.ticket)) ==> g in p.tickets
      ensures g in Prune(p).tickets ==> g in p.tickets
      ensures g in Keep(Prune(p).tickets, Holding(claim.ticket)) ==> g in Prune(p).tickets
    {
      KeepIn(d.issued, ExpiredBefore(d.now), g);
      KeepIn(d.tickets, ExpiredBefore(d.now), g);
      KeepIn(p.tickets, Holding(claim.ticket), g);
      KeepIn(p.tickets, ExpiredBefore(d.now), g);
      KeepIn(Prune(p).tickets, Holding(claim.ticket), g);
    }
  }

  /** The owner's own transfer is decided on the grant as minted, and the ticket is live no more. */
  lemma OwnerDecides(w: World, rules: Rules, request: Id, claim: Claim)
    requires SafeOk(w, rules) && ConsumeBegin(w.desks[w.owner], rules, request, claim).1.Accepted?
    ensures var d := w.desks[w.owner];
            var (k, outcome) := ConsumeBegin(d, rules, request, claim);
            && ClaimOf(outcome.grant) == claim && FairDecision(w.minted, Decision(d, outcome.grant, request, w.owner))
            && !Decided(w.accepted, claim.ticket)
            && (forall e :: e in k.issued ==> e.ticket != claim.ticket)
            && (w.owner, claim.ticket) in w.armed
  {
    hide Has, Remember, Lasting, NetOk, CallsOk, SuccessOk;
    var d := w.desks[w.owner];
    var p := Prune(d);
    OwnerAgrees(d, rules, claim);
    IssuedGone(p, rules, claim, d.self);
    FindIn(p.tickets, claim.ticket);
    var g := Find(p.tickets, claim.ticket).value;
    KeepIn(d.tickets, ExpiredBefore(d.now), g);
    assert g in d.issued;
  }

  lemma TakeSafe(w: World, rules: Rules, node: Id, request: Id, claim: Claim)
    requires SafeOk(w, rules)
    ensures SafeOk(TakeStep(w, rules, node, request, claim), rules)
  {
    hide SafeOk, ConsumeBegin, FairDecision, Decided, Backed, Answered, BooksOk;
    OwnerBooks(w, rules);
    if node in w.desks && request !in w.requests {
      var d := w.desks[node];
      var (k, outcome) := ConsumeBegin(d, rules, request, claim);
      BeginFacts(d, rules, request, claim);
      var asked := w.(requests := w.requests + {request});
      MoreRequests(w, rules, request);
      match outcome
      case Refused => DeskShrinks(asked, rules, node, k);
      case Failed => DeskShrinks(asked, rules, node, k);
      case Accepted(g) =>
        OwnerDecides(w, rules, request, claim);
        DeskShrinks(asked, rules, node, k);
        DecisionAdded(asked.(desks := w.desks[node := k]), rules, Decision(d, g, request, node));
        RequestUnused(w, rules, request);
        SuccessAdded(asked.(desks := w.desks[node := k], accepted := w.accepted + [Decision(d, g, request, node)]),
                     rules,
                     Success(node, request, claim));
      case Asking(g) => AskingSafe(w, rules, node, request, claim, g, k);
    }
  }

  lemma MoreRequests(w: World, rules: Rules, request: Id)
    requires SafeOk(w, rules)
    ensures SafeOk(w.(requests := w.requests + {request}), rules)
  {
    hide BooksOk, AcceptedOk, LiveOk, Answered, Backed;
  }

  lemma RequestUnused(w: World, rules: Rules, request: Id)
    requires SafeOk(w, rules) && request !in w.requests
    ensures request !in w.calls && forall i :: 0 <= i < |w.successes| ==> w.successes[i].request != request
  {
    hide BooksOk, DesksOk, AcceptedOk, LiveOk, Answered, Backed;
  }

  lemma SuccessAdded(w: World, rules: Rules, s: Success)
    requires SafeOk(w, rules) && s.request in w.requests && s.request !in w.calls
    requires forall i :: 0 <= i < |w.successes| ==> w.successes[i].request != s.request
    requires Backed(w.accepted, s.node, s.request, s.claim) && (s.node, s.claim.ticket) in w.armed
    ensures SafeOk(w.(successes := w.successes + [s]), rules)
  {
    hide BooksOk, AcceptedOk, LiveOk, Answered, Backed;
  }

  lemma AskingSafe(w: World, rules: Rules, node: Id, request: Id, claim: Claim, g: Grant, k: Desk)
    requires SafeOk(w, rules) && node in w.desks && request !in w.requests
    requires !w.desks[node].owner && g in w.desks[node].tickets && g.ticket == claim.ticket
    requires k.self == node && !k.owner && k.asking == w.desks[node].asking[request := g]
    requires forall e :: e in k.tickets ==> e in w.desks[node].tickets
    ensures SafeOk(w.(desks := w.desks[node := k], requests := w.requests + {request},
                      calls := w.calls[request := Call(node, claim, None)],
                          net := w.net + {AskMsg(node, request, claim)}), rules)
  {
    hide BooksOk, AcceptedOk, Decided, FairDecision, Answered, Backed;
    RequestUnused(w, rules, request);
  }

  /** An answered call is backed by the decision on the very claim it sent. */
  lemma AnswerBacks(w: World, rules: Rules, request: Id)
    requires SafeOk(w, rules) && request in w.calls && w.calls[request].answer == Some(true)
    ensures Backed(w.accepted, w.calls[request].node, request, w.calls[request].claim)
  {
    hide BooksOk, DesksOk, LiveOk, FairDecision;
    var c := w.calls[request];
    var i :| 0 <= i < |w.accepted| && w.accepted[i].request == request && w.accepted[i].asker == c.node
             && w.accepted[i].grant.ticket == c.claim.ticket;
    assert AskMsg(c.node, request, ClaimOf(w.accepted[i].grant)) in w.net;
  }

  lemma TakeEndSafe(w: World, rules: Rules, request: Id, current: bool)
    requires SafeOk(w, rules)
    ensures SafeOk(TakeEndStep(w, rules, request, current), rules)
  {
    hide SafeOk, BooksOk, Answered, Backed, Remember, Has;
    if request in w.calls && w.calls[request].node in w.desks {
      var call := w.calls[request];
      var d := w.desks[call.node];
      var k := Consumed(d.(asking := d.asking - {request}), rules, call.claim.ticket);
      CallFacts(w, rules, request);
      forall g
        ensures g in Keep(d.tickets, Holding(call.claim.ticket)) ==> g in d.tickets
      {
        KeepIn(d.tickets, Holding(call.claim.ticket), g);
      }
      var moved := w.(desks := w.desks[call.node := k]);
      DeskShrinks(w, rules, call.node, k);
      CallDropped(moved, rules, request);
      if call.answer == Some(true) && current {
        AnswerBacks(w, rules, request);
        SuccessAdded(moved.(calls := w.calls - {request}), rules, Success(call.node, request, call.claim));
      }
    }
  }

  lemma CallFacts(w: World, rules: Rules, request: Id)
    requires SafeOk(w, rules) && request in w.calls
    ensures var c := w.calls[request];
            c.node != w.owner && (c.node, c.claim.ticket) in w.armed && request in w.requests
    ensures forall i :: 0 <= i < |w.successes| ==> w.successes[i].request != request
  {
    hide BooksOk, DesksOk, AcceptedOk, LiveOk, Answered, Backed;
  }

  lemma CallDropped(w: World, rules: Rules, request: Id)
    requires SafeOk(w, rules) && request in w.calls && w.calls[request].node in w.desks
    requires request !in w.desks[w.calls[request].node].asking
    ensures SafeOk(w.(calls := w.calls - {request}), rules)
  {
    hide BooksOk, AcceptedOk, LiveOk, Answered, Backed;
  }

  // ---- Every run ----

  lemma NextSafe(w: World, rules: Rules, step: Step)
    requires SafeOk(w, rules)
    ensures w.owner in w.desks && SafeOk(Next(w, rules, step), rules) && Next(w, rules, step).owner == w.owner
  {
    hide SafeOk, MintStep, ArmStep, ArmedStep, AskStep, AnswerStep, TakeStep, TakeEndStep, IssueEndStep, Arrival, Acts,
         TicketSystem.GuestStep;
    OwnerBooks(w, rules);
    OwnerStays(w, rules, step);
    match step
    case OwnerActs(act) =>
      if Housekeeping(act) {
        OwnerActsSafe(w, rules, act);
      }
    case GuestArrives(node, members) => ArrivalSafe(w, rules, node, members);
    case Mint(claim, capable) => MintSafe(w, rules, claim, capable);
    case Delivers(msg) =>
      if msg in w.net {
        DeliverySafe(w, rules, msg);
      }
    case IssueEnds(ticket, current) => IssueEndSafe(w, rules, ticket, current);
    case Takes(node, request, claim) => TakeSafe(w, rules, node, request, claim);
    case TakeEnds(request, current) => TakeEndSafe(w, rules, request, current);
    case _ => GuestSafe(w, rules, step);
  }

  lemma OwnerStays(w: World, rules: Rules, step: Step)
    requires w.owner in w.desks
    ensures Next(w, rules, step).owner == w.owner
  {
    hide FreshTicket, Issue, Arm, IssueEnd, ConsumeIssued, ConsumeBegin, Consumed, Acts, Pause, InvalidateMember,
      MemberGone,
         Prune, ResolveArm, ResolveAnswer;
  }

  lemma DeliverySafe(w: World, rules: Rules, msg: Msg)
    requires SafeOk(w, rules) && msg in w.net
    ensures w.owner in w.desks && SafeOk(Next(w, rules, Delivers(msg)), rules)
  {
    hide SafeOk, ArmStep, ArmedStep, AskStep, AnswerStep;
    OwnerBooks(w, rules);
    match msg
    case ArmMsg(to, g) => ArmSafe(w, rules, to, g);
    case ArmedMsg(from, g) => ArmedSafe(w, rules, from, g);
    case AskMsg(from, request, claim) => AskSafe(w, rules, from, request, claim);
    case AnswerMsg(to, request, ticket, ok) => AnswerSafe(w, rules, to, request, ticket, ok);
  }

  lemma OpenedSafe(owner: Id, roomId: Id, rules: Rules)
    ensures SafeOk(Opened(owner, roomId), rules)
  {
  }

  lemma {:induction false} RunSafe(rules: Rules, owner: Id, roomId: Id, worlds: seq<World>, steps: seq<Step>, i: nat)
    requires Run(rules, owner, roomId, worlds, steps) && i < |worlds|
    ensures SafeOk(worlds[i], rules)
  {
    hide SafeOk, Next;
    if i == 0 {
      OpenedSafe(owner, roomId, rules);
    } else {
      RunSafe(rules, owner, roomId, worlds, steps, i - 1);
      NextSafe(worlds[i - 1], rules, steps[i - 1]);
      assert worlds[i - 1 + 1] == Next(worlds[i - 1], rules, steps[i - 1]);
    }
  }

  lemma SuccessBacked(w: World, rules: Rules, s: nat) returns (i: nat)
    requires SafeOk(w, rules) && s < |w.successes|
    ensures i < |w.accepted| && w.accepted[i].request == w.successes[s].request
    ensures w.accepted[i].asker == w.successes[s].node && ClaimOf(w.accepted[i].grant) == w.successes[s].claim
    ensures (w.successes[s].node, w.successes[s].claim.ticket) in w.armed
  {
    hide BooksOk, DesksOk, AcceptedOk, LiveOk, Answered;
    var success := w.successes[s];
    i :| 0 <= i < |w.accepted| && w.accepted[i].request == success.request && w.accepted[i].asker == success.node
         && ClaimOf(w.accepted[i].grant) == success.claim;
  }

  /** Single use: over all participants, no two transfers ever begin on the same ticket. */
  lemma SingleUse(rules: Rules, owner: Id, roomId: Id, worlds: seq<World>, steps: seq<Step>, k: nat, a: nat, b: nat)
    requires Run(rules, owner, roomId, worlds, steps) && k < |worlds|
    requires a < |worlds[k].successes| && b < |worlds[k].successes| && a != b
    ensures worlds[k].successes[a].claim.ticket != worlds[k].successes[b].claim.ticket
  {
    hide Run;
    RunSafe(rules, owner, roomId, worlds, steps, k);
    hide DesksOk;
    var w := worlds[k];
    var i := SuccessBacked(w, rules, a);
    var j := SuccessBacked(w, rules, b);
  }

  /**
   * As granted: a transfer that begins does so at the recipient its ticket was
   * asked for, with exactly the kind, sender, transfer and size its sender
   * asked for, in this room, after that recipient was armed; and the owner
   * decided it within the ticket's lifetime, counted from the asking, with both
   * parties online and the room not paused.
   */
  lemma AsGranted(rules: Rules, owner: Id, roomId: Id, worlds: seq<World>, steps: seq<Step>, k: nat,
                  s: nat) returns (i: nat)
    requires Run(rules, owner, roomId, worlds, steps) && k < |worlds| && s < |worlds[k].successes|
    ensures var w := worlds[k];
            var success := w.successes[s];
            var t := success.claim.ticket;
            && t in w.asked && success.claim == w.asked[t].claim.(roomId := roomId)
            && success.node == w.asked[t].claim.recipientId && (success.node, t) in w.armed
            && i < |w.accepted| && w.accepted[i].asker == success.node && w.accepted[i].request == success.request
            && w.accepted[i].time <= w.asked[t].time + rules.ttl
            && !w.accepted[i].paused && w.accepted[i].senderOnline && w.accepted[i].recipientOnline
  {
    hide Run;
    RunSafe(rules, owner, roomId, worlds, steps, k);
    MintedAsAsked(rules, owner, roomId, worlds, steps, k);
    hide DesksOk, CallsOk, NetOk, ArmedOk, DesksTidy;
    i := SuccessBacked(worlds[k], rules, s);
    assert FairDecision(worlds[k].minted, worlds[k].accepted[i]);
    assert AskedFor(worlds[k], rules, roomId, worlds[k].successes[s].claim.ticket);
  }

  /** The owner's books are in order at every point of every run. */
  lemma AuthorityAlways(rules: Rules, owner: Id, roomId: Id, worlds: seq<World>, steps: seq<Step>, k: nat)
    requires Run(rules, owner, roomId, worlds, steps) && k < |worlds|
    ensures worlds[k].owner in worlds[k].desks && OwnerOk(worlds[k].desks[worlds[k].owner], rules)
  {
    hide Run, OwnerOk;
    RunSafe(rules, owner, roomId, worlds, steps, k);
  }

  // ---- Revocation is for good ----

  /**
   * Ticket `t` was minted and is not live: consumed, expired, or revoked by a
   * pause, a removal or the closing of the room.
   */
  ghost predicate Dead(w: World, t: Id) {
    t in w.minted && w.owner in w.desks && forall g :: g in w.desks[w.owner].issued ==> g.ticket != t
  }

  /** The books may lose grants, gain one never minted before, or decide on one that is live. */
  ghost predicate Moves(w: World, v: World) {
    && w.owner in w.desks && v.owner == w.owner && v.owner in v.desks && w.minted.Keys <= v.minted.Keys
    && (forall g :: g in v.desks[v.owner].issued ==> g in w.desks[w.owner].issued || g.ticket !in w.minted)
    && (v.accepted == w.accepted
        || (|v.accepted| == |w.accepted| + 1 && v.accepted[..|w.accepted|] == w.accepted
            && v.accepted[|w.accepted|].grant in w.desks[w.owner].issued))
  }

  lemma MovesDead(w: World, v: World, t: Id)
    requires Moves(w, v) && Dead(w, t)
    ensures Dead(v, t) && (Decided(v.accepted, t) ==> Decided(w.accepted, t))
  {
    if v.accepted != w.accepted && Decided(v.accepted, t) {
      assert v.accepted == w.accepted + [v.accepted[|w.accepted|]];
      DecidedSnoc(w.accepted, v.accepted[|w.accepted|], t);
    }
  }

  lemma OwnerStepMoves(w: World, rules: Rules, step: Step)
    requires SafeOk(w, rules) && (step.OwnerActs? || step.Mint? || step.IssueEnds?)
    ensures Moves(w, Next(w, rules, step))
  {
    hide SafeOk, BooksOk, OwnerOk, Acts, Issue, IssueEnd, FreshTicket;
    OwnerBooks(w, rules);
    var d := w.desks[w.owner];
    assert OwnerOk(d, rules) by { JustOwnerOk(d, rules); }
    match step
    case OwnerActs(act) =>
      if Housekeeping(act) {
        ActsShrink(d, rules, act);
      }
    case Mint(claim, capable) =>
      if claim.ticket !in w.minted && FreshTicket(d, claim.ticket) {
        IssueLists(d, rules, claim, capable);
      }
    case IssueEnds(ticket, current) =>
      if ticket in w.issuing {
        var op := w.issuing[ticket];
        ActsShrink(d, rules, EndsIssue(op.grant, op.armed, current));
        assert Acts(d, rules, EndsIssue(op.grant, op.armed, current))
          == IssueEnd(d, rules, op.grant, op.armed, current).0 by {
          EndsAct(d, rules, op, current);
        }
      }
  }

  lemma JustOwnerOk(d: Desk, rules: Rules)
    requires BooksOk(d, rules)
    ensures OwnerOk(d, rules)
  {
    hide OwnerOk, ArmingApart;
  }

  lemma EndsAct(d: Desk, rules: Rules, op: Op, current: bool)
    ensures Acts(d, rules, EndsIssue(op.grant, op.armed, current)) == IssueEnd(d, rules, op.grant, op.armed, current).0
  {
  }

  lemma AskMoves(w: World, rules: Rules, from: Id, request: Id, claim: Claim)
    requires SafeOk(w, rules)
    ensures Moves(w, AskStep(w, rules, from, request, claim))
  {
    hide SafeOk, ConsumeIssued, Prune, BooksOk, FairDecision, Decided;
    OwnerBooks(w, rules);
    if from != w.owner {
      DecisionFacts(w, rules, claim, from, request);
    }
  }

  lemma TakeMoves(w: World, rules: Rules, node: Id, request: Id, claim: Claim)
    requires SafeOk(w, rules)
    ensures Moves(w, TakeStep(w, rules, node, request, claim))
  {
    hide SafeOk, ConsumeBegin, BooksOk, FairDecision, Decided;
    OwnerBooks(w, rules);
    if node in w.desks {
      BeginFacts(w.desks[node], rules, request, claim);
      if node == w.owner {
        OwnTickets(w.desks[node], rules);
      }
    }
  }

  lemma OwnTickets(d: Desk, rules: Rules)
    requires BooksOk(d, rules)
    ensures forall g :: g in d.tickets ==> g in d.issued
  {
  }

  lemma TakeEndMoves(w: World, rules: Rules, request: Id, current: bool)
    requires SafeOk(w, rules)
    ensures Moves(w, TakeEndStep(w, rules, request, current))
  {
    hide SafeOk, BooksOk, Remember;
    OwnerBooks(w, rules);
  }

  lemma DeliveryMoves(w: World, rules: Rules, msg: Msg)
    requires SafeOk(w, rules) && msg in w.net
    ensures w.owner in w.desks && Moves(w, Next(w, rules, Delivers(msg)))
  {
    hide SafeOk, BooksOk, AskStep, Arm;
    OwnerBooks(w, rules);
    match msg
    case ArmedMsg(from, g) =>
    case AskMsg(from, request, claim) => AskMoves(w, rules, from, request, claim);
    case AnswerMsg(to, request, ticket, ok) =>
    case ArmMsg(to, g) =>
  }

  lemma NextMoves(w: World, rules: Rules, step: Step)
    requires SafeOk(w, rules)
    ensures w.owner in w.desks && Moves(w, Next(w, rules, step))
  {
    hide SafeOk, BooksOk, Moves, TakeStep, TakeEndStep, AskStep, TicketSystem.GuestStep;
    OwnerBooks(w, rules);
    match step
    case OwnerActs(_) => OwnerStepMoves(w, rules, step);
    case Mint(_, _) => OwnerStepMoves(w, rules, step);
    case IssueEnds(_, _) => OwnerStepMoves(w, rules, step);
    case Delivers(msg) =>
      NothingMoves(w);
      if msg in w.net {
        DeliveryMoves(w, rules, msg);
      }
    case Takes(node, request, claim) => TakeMoves(w, rules, node, request, claim);
    case TakeEnds(request, current) => TakeEndMoves(w, rules, request, current);
    case GuestArrives(node, members) => ArrivalMoves(w, node, members);
    case _ => GuestMoves(w, rules, step);
  }

  lemma NothingMoves(w: World)
    requires w.owner in w.desks
    ensures Moves(w, w)
  {
  }

  lemma ArrivalMoves(w: World, node: Id, members: map<Id, Presence>)
    requires w.owner in w.desks
    ensures Moves(w, Arrival(w, node, members))
  {
  }

  lemma GuestMoves(w: World, rules: Rules, step: Step)
    requires w.owner in w.desks && (step.GuestSees? || step.GuestPauses? || step.GuestLoses? || step.GuestSweeps?)
    ensures Moves(w, TicketSystem.GuestStep(w, rules, step))
  {
    hide Pause, MemberGone, InvalidateMember, Prune;
  }

  /**
   * Revocation is immediate and for good: a ticket that is not live at some
   * point of a run is never accepted after it, whatever is still in flight.
   */
  lemma {:induction false} RevokedForGood(rules: Rules, owner: Id, roomId: Id, worlds: seq<World>, steps: seq<Step>,
                                          i: nat, j: nat, t: Id)
    requires Run(rules, owner, roomId, worlds, steps) && i <= j < |worlds| && Dead(worlds[i], t)
    ensures Dead(worlds[j], t) && (Decided(worlds[j].accepted, t) ==> Decided(worlds[i].accepted, t))
  {
    hide SafeOk, Next, Dead, Decided, Moves;
    if i < j {
      RevokedForGood(rules, owner, roomId, worlds, steps, i, j - 1, t);
      RunSafe(rules, owner, roomId, worlds, steps, j - 1);
      NextMoves(worlds[j - 1], rules, steps[j - 1]);
      assert worlds[j - 1 + 1] == Next(worlds[j - 1], rules, steps[j - 1]);
      MovesDead(worlds[j - 1], worlds[j], t);
    }
  }

  lemma KilledNow(d: Desk, rules: Rules, member: Id, g: Grant)
    requires d.owner && member != d.self && member in d.members && !d.closing
    ensures g !in Pause(d, rules, true).issued && g !in Close(d, rules).issued
    ensures g in MemberGone(d, rules, member).issued
      <==> g in d.issued && g.senderId != member && g.recipientId != member
  {
    KeepIn(d.issued, Naming(member), g);
  }

  lemma KilledAll(d: Desk, rules: Rules, g: Grant)
    requires d.owner && !d.closing
    ensures g !in Pause(d, rules, true).issued && g !in Close(d, rules).issued
  {
  }

  /** The owner pauses or closes the room, or removes a party to ticket `t`. */
  predicate Revokes(w: World, step: Step, t: Id)
    requires w.owner in w.desks
  {
    && t in w.minted && !Books(w).closing && step.OwnerActs?
    && match step.act
       case Pauses(flag) => flag
       case Closes => true
       case Loses(member) =>
         member != w.owner && member in Books(w).members
         && (w.minted[t].senderId == member || w.minted[t].recipientId == member)
       case _ => false
  }

  lemma RevokesNow(w: World, rules: Rules, step: Step, t: Id)
    requires SafeOk(w, rules) && w.owner in w.desks && Revokes(w, step, t)
    ensures var v := Next(w, rules, step);
            Dead(v, t) && v.accepted == w.accepted
  {
    var d := Books(w);
    OwnerBooks(w, rules);
    assert LiveOk(w.minted, w.accepted, d.issued);
    hide SafeOk, Pause, Close, MemberGone, BooksOk;
    var v := Next(w, rules, step);
    forall g | g in v.desks[v.owner].issued
      ensures g.ticket != t
    {
      KilledAll(d, rules, g);
      if step.act.Loses? {
        KilledNow(d, rules, step.act.member, g);
      }
    }
  }

  /**
   * Pausing, closing and removing a party revoke in the same segment, and for
   * good: in every run, a ticket so revoked is never accepted after the step,
   * even if its recipient was being armed, or was asking, at that moment.
   */
  lemma RevocationKills(rules: Rules, owner: Id, roomId: Id, worlds: seq<World>, steps: seq<Step>, i: nat, j: nat,
                        t: Id)
    requires Run(rules, owner, roomId, worlds, steps) && i < j < |worlds|
    requires worlds[i].owner in worlds[i].desks && Revokes(worlds[i], steps[i], t)
    ensures Dead(worlds[j], t) && (Decided(worlds[j].accepted, t) ==> Decided(worlds[i].accepted, t))
  {
    hide SafeOk, Next, Dead, Decided, Revokes;
    RunSafe(rules, owner, roomId, worlds, steps, i);
    assert worlds[i + 1] == Next(worlds[i], rules, steps[i]);
    RevokesNow(worlds[i], rules, steps[i], t);
    RevokedForGood(rules, owner, roomId, worlds, steps, i + 1, j, t);
  }
}
