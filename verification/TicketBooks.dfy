/**
 * The ticket fields of a room controller and the methods that change them,
 * each proved to move the books exactly as its segment in TicketDesk says.
 */
module TicketBooks {
  import opened Basics
  import opened RoomTypes
  import opened EventDeduper
  import opened TicketDesk

  lemma {:induction false} KeepSnoc(grants: seq<Grant>, g: Grant, test: Test)
    ensures Keep(grants + [g], test) == Keep(grants, test) + if Matches(test, g) then [] else [g]
    ensures Hits(grants + [g], test) == Hits(grants, test) + if Matches(test, g) then [g] else []
  {
    if grants == [] {
      assert [] + [g] == [g] && [g][1..] == [];
    } else {
      assert (grants + [g])[1..] == grants[1..] + [g];
      KeepSnoc(grants[1..], g, test);
    }
  }

  lemma {:induction false} RememberAllSnoc(rules: Rules, tombs: seq<Entry>, gone: seq<Grant>, g: Grant, now: nat)
    ensures RememberAll(rules, tombs, gone + [g], now)
      == Remember(rules, RememberAll(rules, tombs, gone, now), g.ticket, now)
    decreases |gone|
  {
    if gone == [] {
      assert [] + [g] == [g] && [g][1..] == [];
    } else {
      assert (gone + [g])[1..] == gone[1..] + [g];
      RememberAllSnoc(rules, Remember(rules, tombs, gone[0].ticket, now), gone[1..], g, now);
    }
  }

  lemma {:induction false} LastingSnoc(tombs: seq<Entry>, e: Entry, now: nat)
    ensures Lasting(tombs + [e], now) == Lasting(tombs, now) + if e.number < now then [] else [e]
  {
    if tombs == [] {
      assert [] + [e] == [e] && [e][1..] == [];
    } else {
      assert (tombs + [e])[1..] == tombs[1..] + [e];
      LastingSnoc(tombs[1..], e, now);
      var head := if tombs[0].number < now then [] else [tombs[0]];
      var last := if e.number < now then [] else [e];
      assert head + (Lasting(tombs[1..], now) + last) == (head + Lasting(tombs[1..], now)) + last;
    }
  }

  /** Drops the oldest entries past the limit. */
  method Trim(entries: seq<Entry>, maximum: nat) returns (kept: seq<Entry>)
    ensures kept == TakeLast(entries, maximum)
  {
    kept := entries;
    while |kept| > maximum
      invariant |kept| <= |entries| && kept == entries[|entries| - |kept|..]
      invariant |kept| == |entries| || |kept| >= maximum
    {
      kept := kept[1..];
    }
  }

  class TicketBooks {
    const self: Id
    const roomId: Id
    const owner: bool
    const rules: Rules
    var now: nat
    var paused: bool
    var closing: bool
    var recovering: bool
    var members: map<Id, Presence>
    var tickets: seq<Grant>
    var issued: seq<Grant>
    var spent: seq<Entry>
    var consuming: set<Id>
    var arming: seq<Grant>
    var asking: map<Id, Grant>

    function State(): Desk
      reads this
    {
      Desk(self, roomId, owner, now, paused, closing, recovering, members, tickets, issued, spent, consuming, arming,
           asking)
    }

    constructor (self: Id, roomId: Id, owner: bool, rules: Rules, members: map<Id, Presence>)
      ensures State() == Desk(self, roomId, owner, 0, false, false, false, members, [], [], [], {}, [], map[])
      ensures this.rules == rules
    {
      this.self, this.roomId, this.owner, this.rules := self, roomId, owner, rules;
      now, paused, closing, recovering := 0, false, false, false;
      this.members, tickets, issued, spent, consuming, arming, asking := members, [], [], [], {}, [], map[];
    }

    /** A late or repeated control frame finds the tombstone; the oldest ones give way. */
    method RememberTombstone(key: Id)
      modifies this`spent
      ensures spent == Remember(rules, old(spent), key, now)
    {
      spent := Trim(Without(spent, key) + [Entry(key, now + rules.ttl)], rules.tombstones);
    }

    /** Spends every ticket of a list that a test hits, and returns the rest. */
    method Spend(grants: seq<Grant>, test: Test) returns (kept: seq<Grant>)
      modifies this`spent
      ensures kept == Keep(grants, test)
      ensures spent == RememberAll(rules, old(spent), Hits(grants, test), now)
    {
      kept := [];
      for i := 0 to |grants|
        invariant kept == Keep(grants[..i], test)
        invariant spent == RememberAll(rules, old(spent), Hits(grants[..i], test), now)
      {
        assert grants[..i + 1] == grants[..i] + [grants[i]];
        KeepSnoc(grants[..i], grants[i], test);
        if Matches(test, grants[i]) {
          RememberAllSnoc(rules, old(spent), Hits(grants[..i], test), grants[i], now);
          RememberTombstone(grants[i].ticket);
        } else {
          kept := kept + [grants[i]];
          assert Hits(grants[..i], test) + [] == Hits(grants[..i], test);
        }
      }
      assert grants[..|grants|] == grants;
    }

    method SpendAll(grants: seq<Grant>)
      modifies this`spent
      ensures spent == RememberAll(rules, old(spent), grants, now)
    {
      for i := 0 to |grants|
        invariant spent == RememberAll(rules, old(spent), grants[..i], now)
      {
        assert grants[..i + 1] == grants[..i] + [grants[i]];
        RememberAllSnoc(rules, old(spent), grants[..i], grants[i], now);
        RememberTombstone(grants[i].ticket);
      }
      assert grants[..|grants|] == grants;
    }

    method Unexpired(grants: seq<Grant>) returns (kept: seq<Grant>)
      ensures kept == Keep(grants, ExpiredBefore(now))
    {
      kept := [];
      for i := 0 to |grants|
        invariant kept == Keep(grants[..i], ExpiredBefore(now))
      {
        assert grants[..i + 1] == grants[..i] + [grants[i]];
        KeepSnoc(grants[..i], grants[i], ExpiredBefore(now));
        if grants[i].expiresAt >= now {
          kept := kept + [grants[i]];
        }
      }
      assert grants[..|grants|] == grants;
    }

    method LastingTombstones() returns (tombs: seq<Entry>)
      ensures tombs == Lasting(spent, now)
    {
      tombs := [];
      for i := 0 to |spent|
        invariant tombs == Lasting(spent[..i], now)
      {
        assert spent[..i + 1] == spent[..i] + [spent[i]];
        LastingSnoc(spent[..i], spent[i], now);
        if spent[i].number >= now {
          tombs := tombs + [spent[i]];
        }
      }
      assert spent[..|spent|] == spent;
    }

    method PruneTickets()
      modifies this`tickets, this`issued, this`spent
      ensures State() == Prune(old(State()))
    {
      tickets := Unexpired(tickets);
      issued := Unexpired(issued);
      spent := LastingTombstones();
    }

    /** Questions under way about transfers that name the member are given up. */
    method DropQuestions(member: Id)
      modifies this`asking
      ensures asking == map r | r in old(asking) && !Matches(Naming(member), old(asking)[r]) :: old(asking)[r]
    {
      var todo := asking.Keys;
      while todo != {}
        invariant todo <= asking.Keys <= old(asking).Keys
        invariant forall r :: r in old(asking).Keys && r !in todo ==>
          (r in asking <==> !Matches(Naming(member), old(asking)[r]))
        invariant forall r :: r in asking ==> asking[r] == old(asking)[r]
        decreases |todo|
      {
        var r :| r in todo;
        if Matches(Naming(member), asking[r]) {
          asking := asking - {r};
        }
        todo := todo - {r};
      }
    }

    /** Tickets here, tickets issued, arms in flight and questions in flight: all that name the member. */
    method InvalidateMemberTickets(member: Id)
      modifies this`tickets, this`issued, this`arming, this`asking, this`spent
      ensures State() == InvalidateMember(old(State()), rules, member)
    {
      hide RememberAll, Keep, Hits, Matches;
      tickets := Spend(tickets, Naming(member));
      issued := Spend(issued, Naming(member));
      arming := Spend(arming, Naming(member));
      DropQuestions(member);
    }

    method InvalidateAllTickets()
      modifies this`tickets, this`issued, this`arming, this`asking, this`consuming, this`spent
      ensures State() == InvalidateAll(old(State()), rules)
    {
      SpendAll(tickets);
      SpendAll(issued);
      tickets, issued, consuming := [], [], {};
      SpendAll(arming);
      arming, asking := [], map[];
    }

    method SetRoomPaused(requested: bool)
      modifies this
      ensures State() == Pause(old(State()), rules, requested)
    {
      paused := requested;
      if requested {
        InvalidateAllTickets();
      }
    }

    method Close()
      modifies this
      ensures State() == TicketDesk.Close(old(State()), rules)
    {
      if closing {
        return;
      }
      closing := true;
      paused := true;
      InvalidateAllTickets();
    }

    method RemoveMember(member: Id)
      modifies this
      ensures State() == MemberGone(old(State()), rules, member)
    {
      if member == self || (owner && (closing || member !in members)) {
        return;
      }
      members := members - {member};
      InvalidateMemberTickets(member);
    }

    method ArmTicket(grant: Grant) returns (ok: bool)
      modifies this`tickets, this`issued
      ensures ok == Arm(old(State()), rules, grant).Some?
      ensures State() == if ok then Arm(old(State()), rules, grant).value else old(State())
    {
      if grant.roomId != roomId || paused || grant.recipientId != self
         || Find(tickets, grant.ticket).Some? || Lookup(spent, grant.ticket).Some?
         || !IsOnline(State(), grant.senderId) || !IsOnline(State(), grant.recipientId) {
        return false;
      }
      var stored := grant.(expiresAt := now + rules.ttl);
      tickets := tickets + [stored];
      if owner && Find(issued, grant.ticket).None? {
        issued := issued + [stored];
      }
      return true;
    }

    /** How many grants of a sender are live. */
    method Outstanding(sender: Id) returns (count: nat)
      ensures count == |Hits(issued, From(sender))|
    {
      count := 0;
      for i := 0 to |issued|
        invariant count == |Hits(issued[..i], From(sender))|
      {
        assert issued[..i + 1] == issued[..i] + [issued[i]];
        KeepSnoc(issued[..i], issued[i], From(sender));
        if issued[i].senderId == sender {
          count := count + 1;
        }
      }
      assert issued[..|issued|] == issued;
    }

    method ScrapTicket(ticket: Id)
      modifies this`tickets, this`issued, this`arming, this`spent
      ensures State() == Scrap(old(State()), rules, ticket)
    {
      issued := Keep(issued, Holding(ticket));
      tickets := Keep(tickets, Holding(ticket));
      arming := Keep(arming, Holding(ticket));
      RememberTombstone(ticket);
    }

    /** The grant is live before anything is awaited, so that a pause or a removal can revoke it. */
    method IssueTransferTicket(claim: Claim, capable: bool)
      modifies this`tickets, this`issued, this`arming, this`spent
      ensures State() == Issue(old(State()), rules, claim, capable)
    {
      PruneTickets();
      var outstanding := Outstanding(claim.senderId);
      if closing || paused || !capable || claim.senderId == claim.recipientId
         || !IsOnline(State(), claim.senderId) || !IsOnline(State(), claim.recipientId) || outstanding >= rules.cap {
        return;
      }
      var grant := Minted(State(), rules, claim);
      issued := issued + [grant];
      if grant.recipientId == self {
        var ok := ArmTicket(grant);
        if !ok {
          ScrapTicket(grant.ticket);
        }
      } else {
        arming := arming + [grant];
      }
    }

    method FinishIssue(grant: Grant, armed: bool, current: bool) returns (granted: bool)
      modifies this`tickets, this`issued, this`arming, this`spent
      ensures (State(), granted) == IssueEnd(old(State()), rules, grant, armed, current)
    {
      granted := armed && current && !paused && Find(issued, grant.ticket) == Some(grant)
        && IsOnline(State(), grant.senderId) && IsOnline(State(), grant.recipientId);
      if !granted {
        ScrapTicket(grant.ticket);
      }
    }

    method ConsumeIssuedTicket(claim: Claim, asker: Id) returns (ok: bool)
      modifies this`tickets, this`issued, this`spent
      ensures (State(), ok) == ConsumeIssued(old(State()), rules, claim, asker)
    {
      PruneTickets();
      var found := Find(issued, claim.ticket);
      if found.None? {
        return false;
      }
      var grant := found.value;
      ok := !paused && grant.roomId == roomId && claim == ClaimOf(grant) && grant.recipientId == asker
        && now <= grant.expiresAt && IsOnline(State(), grant.senderId) && IsOnline(State(), grant.recipientId);
      if ok {
        issued := Keep(issued, Holding(claim.ticket));
        RememberTombstone(claim.ticket);
      }
    }

    /** Whatever came of it, the ticket is used up here. */
    method FinishConsume(ticket: Id)
      modifies this`tickets, this`consuming, this`spent
      ensures State() == Consumed(old(State()), rules, ticket)
    {
      tickets := Keep(tickets, Holding(ticket));
      RememberTombstone(ticket);
      consuming := consuming - {ticket};
    }

    method ConsumeTransferTicket(request: Id, claim: Claim) returns (outcome: Outcome)
      modifies this`tickets, this`issued, this`consuming, this`asking, this`spent
      ensures (State(), outcome) == ConsumeBegin(old(State()), rules, request, claim)
    {
      PruneTickets();
      var found := Consumable(State(), claim);
      if found.None? {
        return Refused;
      }
      if owner {
        var ok := ConsumeIssuedTicket(claim, self);
        FinishConsume(claim.ticket);
        outcome := if ok then Accepted(found.value) else Failed;
      } else if recovering {
        FinishConsume(claim.ticket);
        outcome := Failed;
      } else {
        consuming := consuming + {claim.ticket};
        asking := asking[request := found.value];
        outcome := Asking(found.value);
      }
    }
  }
}
