/**
 * What every participant's books keep over whole runs: one grant per ticket in
 * each table, the room they belong to, and that whatever was minted is what a
 * sender asked for.
 */
module TicketRecords {
  import opened RoomTypes
  import opened EventDeduper
  import opened TicketDesk
  import opened TicketAuthority
  import opened TicketSystem
  import opened TicketAnswers

  /** A segment leaves the books tidy and in their room. */
  ghost predicate Orderly(d: Desk, k: Desk) {
    k.roomId == d.roomId && (Tidy(d) ==> Tidy(k))
  }

  lemma OneMoreUnique(grants: seq<Grant>, g: Grant)
    requires Unique(grants) && forall e :: e in grants ==> e.ticket != g.ticket
    ensures Unique(grants + [g])
  {
  }

  lemma KeepsOrder(d: Desk, k: Desk, test: Test)
    requires k.roomId == d.roomId
    requires k.tickets == d.tickets || k.tickets == Keep(d.tickets, test)
    requires k.issued == d.issued || k.issued == Keep(d.issued, test)
    ensures Orderly(d, k)
  {
    hide Unique, Keep;
    if Tidy(d) {
      KeepUnique(d.tickets, test);
      KeepUnique(d.issued, test);
    }
  }

  lemma PruneOrderly(d: Desk)
    ensures Orderly(d, Prune(d))
  {
    hide Lasting;
    KeepsOrder(d, Prune(d), ExpiredBefore(d.now));
  }

  lemma RevokeOrderly(d: Desk, rules: Rules, member: Id)
    ensures Orderly(d, InvalidateMember(d, rules, member)) && Orderly(d, InvalidateAll(d, rules))
  {
    hide RememberAll, Keep, Hits;
    KeepsOrder(d, InvalidateMember(d, rules, member), Naming(member));
  }

  lemma LifecycleOrderly(d: Desk, rules: Rules, flag: bool, member: Id)
    ensures Orderly(d, Pause(d, rules, flag)) && Orderly(d, Close(d, rules)) && Orderly(d, MemberGone(d, rules, member))
  {
    hide InvalidateAll, InvalidateMember, Unique;
    RevokeOrderly(d.(paused := flag), rules, member);
    RevokeOrderly(d.(paused := true, closing := true), rules, member);
    RevokeOrderly(d.(members := d.members - {member}), rules, member);
  }

  lemma IssueOrderly(d: Desk, rules: Rules, claim: Claim, capable: bool)
    requires FreshTicket(d, claim.ticket) && Tidy(d)
    ensures Orderly(d, Issue(d, rules, claim, capable))
  {
    hide Issue, Unique, Has, MayIssue;
    IssueAnswer(d, rules, claim, capable);
    var p := Prune(d);
    var g := Grant(claim.ticket, d.now + rules.ttl, d.roomId, claim.kind, claim.senderId, claim.recipientId,
                   claim.transferId, claim.size);
    var q: Desk :| Pruned(d, q)
      && Issue(d, rules, claim, capable)
         == (if !MayIssue(d, rules, claim, capable) then q
             else if claim.recipientId == d.self then q.(issued := q.issued + [g], tickets := q.tickets + [g])
             else q.(issued := q.issued + [g], arming := q.arming + [g]));
    OneMoreUnique(q.issued, g);
    OneMoreUnique(q.tickets, g);
  }

  lemma ArmOrderly(d: Desk, rules: Rules, g: Grant)
    requires Arm(d, rules, g).Some?
    ensures Orderly(d, Arm(d, rules, g).value)
  {
    hide Arm, Unique, Has;
    ArmAnswer(d, rules, g);
    var own := Grant(g.ticket, d.now + rules.ttl, d.roomId, g.kind, g.senderId, d.self, g.transferId, g.size);
    if Tidy(d) {
      OneMoreUnique(d.tickets, own);
      if !Holds(d.issued, g.ticket) {
        OneMoreUnique(d.issued, own);
      }
    }
  }

  lemma ScrapOrderly(d: Desk, rules: Rules, g: Grant, armed: bool, current: bool, from: Id)
    ensures Orderly(d, IssueEnd(d, rules, g, armed, current).0) && Orderly(d, ResolveArm(d, from, g))
  {
    hide Remember, Keep, Find, Unique;
    KeepsOrder(d, Scrap(d, rules, g.ticket), Holding(g.ticket));
  }

  lemma UseOrderly(d: Desk, rules: Rules, ticket: Id)
    ensures Orderly(d, Consumed(d, rules, ticket))
  {
    hide Remember, Keep;
    KeepsOrder(d, Consumed(d, rules, ticket), Holding(ticket));
  }

  lemma DecideOrderly(d: Desk, rules: Rules, claim: Claim, asker: Id)
    ensures Orderly(d, ConsumeIssued(d, rules, claim, asker).0)
  {
    hide Remember, Keep, Find, Unique, Prune;
    PruneOrderly(d);
    KeepsOrder(Prune(d), ConsumeIssued(d, rules, claim, asker).0, Holding(claim.ticket));
  }

  lemma BeginOrderly(d: Desk, rules: Rules, request: Id, claim: Claim)
    ensures Orderly(d, ConsumeBegin(d, rules, request, claim).0)
  {
    hide Prune, Consumable, ConsumeIssued, Consumed, Unique;
    var p := Prune(d);
    PruneOrderly(d);
    DecideOrderly(p, rules, claim, d.self);
    UseOrderly(p, rules, claim.ticket);
    UseOrderly(ConsumeIssued(p, rules, claim, d.self).0, rules, claim.ticket);
  }

  lemma HouseOrderly(d: Desk, rules: Rules, act: Act)
    requires Housekeeping(act)
    ensures Orderly(d, Acts(d, rules, act))
  {
    hide Prune, Pause, Close, MemberGone, Unique;
    PruneOrderly(d);
    LifecycleOrderly(d, rules, act.Pauses? && act.flag, if act.Loses? then act.member else 0);
  }

  // ---- Runs ----

  /** Grant `g` is what the wish asked for, in this room, good for the configured time from the asking. */
  predicate Fulfils(g: Grant, wish: Wish, rules: Rules, roomId: Id) {
    g == Grant(wish.claim.ticket, wish.time + rules.ttl, roomId, wish.claim.kind, wish.claim.senderId,
               wish.claim.recipientId, wish.claim.transferId, wish.claim.size)
  }

  ghost predicate DesksTidy(w: World, roomId: Id) {
    w.owner in w.desks && forall n :: n in w.desks ==> w.desks[n].roomId == roomId && Tidy(w.desks[n])
  }

  predicate AskedFor(w: World, rules: Rules, roomId: Id, t: Id)
    requires t in w.minted
  {
    t in w.asked && w.asked[t].claim.ticket == t && Fulfils(w.minted[t], w.asked[t], rules, roomId)
  }

  ghost predicate MintsFulfil(w: World, rules: Rules, roomId: Id) {
    forall t :: t in w.minted ==> AskedFor(w, rules, roomId, t)
  }

  lemma OneDesk(w: World, v: World, n: Id, k: Desk, roomId: Id)
    requires DesksTidy(w, roomId) && n in w.desks && Orderly(w.desks[n], k)
    requires v.owner == w.owner && v.desks == w.desks[n := k]
    ensures DesksTidy(v, roomId)
  {
    hide Unique;
  }

  lemma MintTidy(w: World, rules: Rules, roomId: Id, claim: Claim, capable: bool)
    requires DesksTidy(w, roomId) && MintsFulfil(w, rules, roomId)
    ensures DesksTidy(MintStep(w, rules, claim, capable), roomId)
    ensures MintsFulfil(MintStep(w, rules, claim, capable), rules, roomId)
  {
    hide Issue, FreshTicket, Orderly, Unique;
    if claim.ticket !in w.minted && FreshTicket(Books(w), claim.ticket) {
      IssueOrderly(Books(w), rules, claim, capable);
      OneDesk(w, MintStep(w, rules, claim, capable), w.owner, Issue(Books(w), rules, claim, capable), roomId);
    }
  }

  lemma DeliveryTidy(w: World, rules: Rules, roomId: Id, msg: Msg)
    requires DesksTidy(w, roomId) && msg in w.net
    ensures var v := Next(w, rules, Delivers(msg));
            DesksTidy(v, roomId) && v.minted == w.minted && v.asked == w.asked
  {
    hide DesksTidy, Orderly, Arm, ResolveArm, ConsumeIssued, Decision, Prune;
    assert w.owner in w.desks by { OwnerThere(w, roomId); }
    var v := Next(w, rules, Delivers(msg));
    match msg
    case ArmMsg(to, g) =>
      if v != w {
        ArmOrderly(w.desks[to], rules, g);
        OneDesk(w, v, to, Arm(w.desks[to], rules, g).value, roomId);
      }
    case ArmedMsg(from, g) =>
      if v != w {
        ScrapOrderly(Books(w), rules, g, false, false, from);
        OneDesk(w, v, w.owner, ResolveArm(Books(w), from, g), roomId);
      }
    case AskMsg(from, request, claim) =>
      if v != w {
        DecideOrderly(Books(w), rules, claim, from);
        OneDesk(w, v, w.owner, ConsumeIssued(Books(w), rules, claim, from).0, roomId);
      }
    case AnswerMsg(to, request, ticket, ok) =>
      if v != w {
        var k := ResolveAnswer(w.desks[to], request, ticket);
        SameTables(w.desks[to], k);
        OneDesk(w, v, to, k, roomId);
      }
  }

  lemma SameTables(d: Desk, k: Desk)
    requires k.roomId == d.roomId && k.tickets == d.tickets && k.issued == d.issued
    ensures Orderly(d, k)
  {
    hide Unique;
  }

  lemma OwnerThere(w: World, roomId: Id)
    requires DesksTidy(w, roomId)
    ensures w.owner in w.desks && Tidy(w.desks[w.owner]) && w.desks[w.owner].roomId == roomId
  {
  }

  lemma TakeTidy(w: World, rules: Rules, roomId: Id, node: Id, request: Id, claim: Claim)
    requires DesksTidy(w, roomId)
    ensures var v := TakeStep(w, rules, node, request, claim);
            DesksTidy(v, roomId) && v.minted == w.minted && v.asked == w.asked
  {
    hide DesksTidy, Orderly, ConsumeBegin, Decision;
    if node in w.desks && request !in w.requests {
      BeginOrderly(w.desks[node], rules, request, claim);
      OneDesk(w, TakeStep(w, rules, node, request, claim), node,
              ConsumeBegin(w.desks[node], rules, request, claim).0, roomId);
    }
  }

  lemma TakeEndTidy(w: World, rules: Rules, roomId: Id, request: Id, current: bool)
    requires DesksTidy(w, roomId)
    ensures var v := TakeEndStep(w, rules, request, current);
            DesksTidy(v, roomId) && v.minted == w.minted && v.asked == w.asked
  {
    hide DesksTidy, Consumed, Unique;
    if request in w.calls && w.calls[request].node in w.desks {
      var d := w.desks[w.calls[request].node];
      var rest := d.(asking := d.asking - {request});
      SameTables(d, rest);
      UseOrderly(rest, rules, w.calls[request].claim.ticket);
      OneDesk(w, TakeEndStep(w, rules, request, current), w.calls[request].node,
              Consumed(rest, rules, w.calls[request].claim.ticket), roomId);
    }
  }

  lemma GuestTidy(w: World, rules: Rules, roomId: Id, step: Step)
    requires DesksTidy(w, roomId) && (step.GuestSees? || step.GuestPauses? || step.GuestLoses? || step.GuestSweeps?)
    ensures var v := TicketSystem.GuestStep(w, rules, step);
            DesksTidy(v, roomId) && v.minted == w.minted && v.asked == w.asked
  {
    hide DesksTidy, Pause, MemberGone, InvalidateMember, Prune, Unique;
    if step.node in w.desks && step.node != w.owner {
      var d := w.desks[step.node];
      var v := TicketSystem.GuestStep(w, rules, step);
      var member := if step.GuestLoses? then step.member else 0;
      LifecycleOrderly(d, rules, step.GuestPauses? && step.flag, member);
      RevokeOrderly(d, rules, member);
      PruneOrderly(d);
      OneDesk(w, v, step.node, v.desks[step.node], roomId);
    }
  }

  lemma ArrivalTidy(w: World, node: Id, members: map<Id, Presence>, roomId: Id)
    requires DesksTidy(w, roomId)
    ensures var v := Arrival(w, node, members);
            DesksTidy(v, roomId) && v.minted == w.minted && v.asked == w.asked
  {
  }

  lemma OwnerTidy(w: World, rules: Rules, roomId: Id, step: Step)
    requires DesksTidy(w, roomId) && (step.OwnerActs? || step.IssueEnds?)
    ensures w.owner in w.desks
    ensures var v := Next(w, rules, step);
            DesksTidy(v, roomId) && v.minted == w.minted && v.asked == w.asked
  {
    hide DesksTidy, Acts, IssueEnd, Orderly;
    OwnerThere(w, roomId);
    match step
    case OwnerActs(act) =>
      if Housekeeping(act) {
        HouseOrderly(Books(w), rules, act);
        OneDesk(w, Next(w, rules, step), w.owner, Acts(Books(w), rules, act), roomId);
      }
    case IssueEnds(ticket, current) =>
      if ticket in w.issuing {
        var op := w.issuing[ticket];
        ScrapOrderly(Books(w), rules, op.grant, op.armed, current, 0);
        OneDesk(w, Next(w, rules, step), w.owner, IssueEnd(Books(w), rules, op.grant, op.armed, current).0, roomId);
      }
  }

  lemma NextTidy(w: World, rules: Rules, roomId: Id, step: Step)
    requires DesksTidy(w, roomId) && MintsFulfil(w, rules, roomId)
    ensures w.owner in w.desks && DesksTidy(Next(w, rules, step), roomId)
    ensures MintsFulfil(Next(w, rules, step), rules, roomId)
  {
    hide DesksTidy, Fulfils, MintStep, ArmStep, ArmedStep, AskStep, AnswerStep, TakeStep, TakeEndStep, IssueEndStep,
      Arrival, Acts, TicketSystem.GuestStep;
    OwnerThere(w, roomId);
    match step
    case OwnerActs(act) => OwnerTidy(w, rules, roomId, step);
    case IssueEnds(_, _) => OwnerTidy(w, rules, roomId, step);
    case GuestArrives(node, members) => ArrivalTidy(w, node, members, roomId);
    case Mint(claim, capable) => MintTidy(w, rules, roomId, claim, capable);
    case Delivers(msg) =>
      if msg in w.net {
        DeliveryTidy(w, rules, roomId, msg);
      }
    case Takes(node, request, claim) => TakeTidy(w, rules, roomId, node, request, claim);
    case TakeEnds(request, current) => TakeEndTidy(w, rules, roomId, request, current);
    case _ => GuestTidy(w, rules, roomId, step);
  }

  /** At every point of every run, all books are tidy and whatever was minted is what was asked for. */
  lemma {:induction false} MintedAsAsked(rules: Rules, owner: Id, roomId: Id, worlds: seq<World>, steps: seq<Step>,
                                         i: nat)
    requires Run(rules, owner, roomId, worlds, steps) && i < |worlds|
    ensures DesksTidy(worlds[i], roomId) && MintsFulfil(worlds[i], rules, roomId)
  {
    hide Next, Fulfils, Unique;
    if i == 0 {
      Empty(owner, roomId);
    } else {
      MintedAsAsked(rules, owner, roomId, worlds, steps, i - 1);
      NextTidy(worlds[i - 1], rules, roomId, steps[i - 1]);
      assert worlds[i - 1 + 1] == Next(worlds[i - 1], rules, steps[i - 1]);
    }
  }

  lemma Empty(owner: Id, roomId: Id)
    ensures DesksTidy(Opened(owner, roomId), roomId)
  {
  }
}
