/**
 * A ticket that nothing disturbs is good: from any point of any run, a request
 * that may be granted leads to one transfer, exactly as asked.
 */
module TicketUse {
  import opened Basics
  import opened RoomTypes
  import opened EventDeduper
  import opened TicketDesk
  import opened TicketAuthority
  import opened TicketSystem
  import opened TicketAnswers
  import opened TicketRecords
  import opened TicketSafety

  /** The world after some steps in a row. */
  ghost function After(w: World, rules: Rules, steps: seq<Step>): World
    decreases |steps|
  {
    if steps == [] || w.owner !in w.desks then w else After(Next(w, rules, steps[0]), rules, steps[1..])
  }

  lemma OneStep(w: World, rules: Rules, step: Step, rest: seq<Step>)
    requires w.owner in w.desks
    ensures After(w, rules, [step] + rest) == After(Next(w, rules, step), rules, rest)
  {
    assert ([step] + rest)[1..] == rest;
  }

  /** The owner would grant this ticket, and has never seen it. */
  ghost predicate Grantable(w: World, rules: Rules, claim: Claim) {
    && w.owner in w.desks && claim.recipientId in w.desks && claim.ticket !in w.minted
    && FreshTicket(Books(w), claim.ticket) && MayIssue(Books(w), rules, claim, true)
    && claim.roomId == Books(w).roomId
  }

  /** The grant as the owner mints it. */
  function GrantOf(d: Desk, rules: Rules, claim: Claim): Grant {
    Grant(claim.ticket, d.now + rules.ttl, d.roomId, claim.kind, claim.senderId, claim.recipientId, claim.transferId,
          claim.size)
  }

  /** A recipient that has never seen the ticket and sees both parties online. */
  ghost predicate Receptive(d: Desk, n: Id, g: Grant) {
    && d.self == n && !d.owner && !d.recovering && MayArm(d, g) && g.ticket !in d.consuming
  }

  /** Grant `g` is live at the owner, for another participant, and may be used. */
  ghost predicate Live(w: World, rules: Rules, roomId: Id, g: Grant) {
    && DesksTidy(w, roomId) && MintsFulfil(w, rules, roomId) && w.owner in w.desks
    && g.recipientId in w.desks && g.recipientId != w.owner
    && !Books(w).paused && !Books(w).closing && g in Books(w).issued && BothOnline(Books(w), g)
    && g.roomId == Books(w).roomId && g.expiresAt >= Books(w).now
  }

  /** The owner's books and the room's records as far as they matter here did not move. */
  predicate SameOwner(w: World, v: World)
    requires w.owner in w.desks
  {
    v.owner == w.owner && v.desks.Keys == w.desks.Keys && v.desks[w.owner] == w.desks[w.owner]
  }

  lemma StaysLive(w: World, rules: Rules, roomId: Id, g: Grant, step: Step)
    requires Live(w, rules, roomId, g) && SameOwner(w, Next(w, rules, step))
    ensures Live(Next(w, rules, step), rules, roomId, g)
  {
    hide DesksTidy, MintsFulfil, Next;
    NextTidy(w, rules, roomId, step);
  }

  lemma Mints(w: World, rules: Rules, roomId: Id, claim: Claim)
    requires DesksTidy(w, roomId) && MintsFulfil(w, rules, roomId)
    requires Grantable(w, rules, claim) && claim.recipientId != w.owner && Books(w).self == w.owner
    ensures var v := Next(w, rules, Mint(claim, true));
            var g := GrantOf(Books(w), rules, claim);
            && Live(v, rules, roomId, g) && g in Books(v).arming
            && g.ticket in v.issuing && v.issuing[g.ticket] == Op(g, false)
            && ArmMsg(claim.recipientId, g) in v.net
            && v.desks[claim.recipientId] == w.desks[claim.recipientId]
            && v.requests == w.requests && v.successes == w.successes
  {
    hide DesksTidy, MintsFulfil, Issue, Has;
    var d := Books(w);
    var g := GrantOf(d, rules, claim);
    NextTidy(w, rules, roomId, Mint(claim, true));
    OwnerThere(w, roomId);
    hide MayIssue, FreshTicket, Pruned;
    IssuedLive(d, rules, claim);
    var k := Issue(d, rules, claim, true);
    assert g == Minted(d, rules, claim);
    assert MintStep(w, rules, claim, true).desks == w.desks[w.owner := k];
  }

  lemma IssuedLive(d: Desk, rules: Rules, claim: Claim)
    requires Unique(d.issued) && FreshTicket(d, claim.ticket) && MayIssue(d, rules, claim, true)
    ensures var k := Issue(d, rules, claim, true);
            var g := GrantOf(d, rules, claim);
            && g in k.issued && (if claim.recipientId == d.self then g in k.tickets else g in k.arming)
            && !k.paused && !k.closing && k.roomId == d.roomId && k.now == d.now && BothOnline(k, g)
            && k.self == d.self && k.owner == d.owner && k.consuming == d.consuming && k.members == d.members
  {
    hide Issue, Has, Unique, FreshTicket;
    IssueAnswer(d, rules, claim, true);
  }

  lemma Arms(w: World, rules: Rules, roomId: Id, g: Grant)
    requires Live(w, rules, roomId, g) && ArmMsg(g.recipientId, g) in w.net
    requires Receptive(w.desks[g.recipientId], g.recipientId, g)
    ensures var v := Next(w, rules, Delivers(ArmMsg(g.recipientId, g)));
            && Live(v, rules, roomId, g) && SameOwner(w, v) && ArmedMsg(g.recipientId, g) in v.net
            && v.issuing == w.issuing && v.requests == w.requests && v.successes == w.successes
            && Armed(v.desks[g.recipientId], g.recipientId, g)
  {
    hide Live, Arm, Has;
    Lives(w, rules, roomId, g);
    ArmAnswer(w.desks[g.recipientId], rules, g);
    var own := Grant(g.ticket, w.desks[g.recipientId].now + rules.ttl, g.roomId, g.kind, g.senderId, g.recipientId,
                     g.transferId, g.size);
    StaysLive(w, rules, roomId, g, Delivers(ArmMsg(g.recipientId, g)));
    assert MayAskFor(Next(w, rules, Delivers(ArmMsg(g.recipientId, g))).desks[g.recipientId], own, ClaimOf(g));
  }

  lemma Lives(w: World, rules: Rules, roomId: Id, g: Grant)
    requires Live(w, rules, roomId, g)
    ensures w.owner in w.desks && g.recipientId in w.desks && g.recipientId != w.owner
    ensures DesksTidy(w, roomId) && MintsFulfil(w, rules, roomId)
    ensures Unique(Books(w).issued) && Unique(w.desks[g.recipientId].tickets)
    ensures w.desks[g.recipientId].roomId == g.roomId
  {
  }

  /** A recipient that may now use the ticket. */
  ghost predicate Armed(d: Desk, n: Id, g: Grant) {
    && !d.owner && !d.recovering && exists own :: MayAskFor(d, own, ClaimOf(g))
  }

  lemma Confirms(w: World, rules: Rules, roomId: Id, g: Grant)
    requires Live(w, rules, roomId, g) && ArmedMsg(g.recipientId, g) in w.net
    requires g in Books(w).arming && g.ticket in w.issuing && w.issuing[g.ticket] == Op(g, false)
    ensures var v := Next(w, rules, Delivers(ArmedMsg(g.recipientId, g)));
            && Live(v, rules, roomId, g)
            && g.ticket in v.issuing && v.issuing[g.ticket] == Op(g, true)
            && v.requests == w.requests && v.successes == w.successes
            && v.desks[g.recipientId] == w.desks[g.recipientId]
  {
    hide DesksTidy, MintsFulfil;
    NextTidy(w, rules, roomId, Delivers(ArmedMsg(g.recipientId, g)));
  }

  lemma Grants(w: World, rules: Rules, roomId: Id, g: Grant)
    requires Live(w, rules, roomId, g) && g.ticket in w.issuing && w.issuing[g.ticket] == Op(g, true)
    ensures var v := Next(w, rules, IssueEnds(g.ticket, true));
            && IssueEnd(Books(w), rules, g, true, true).1
            && Live(v, rules, roomId, g) && v.requests == w.requests && v.successes == w.successes
            && v.desks[g.recipientId] == w.desks[g.recipientId]
  {
    hide DesksTidy, MintsFulfil, Unique;
    Lives(w, rules, roomId, g);
    FoundIn(Books(w).issued, g.ticket, g);
    StaysLive(w, rules, roomId, g, IssueEnds(g.ticket, true));
  }

  /** The recipient asks the owner about the ticket. */
  predicate Waiting(w: World, n: Id, request: Id, claim: Claim, answer: Option<bool>) {
    && n in w.desks && request in w.calls && w.calls[request] == Call(n, claim, answer)
    && (answer == None ==> request in w.desks[n].asking && w.desks[n].asking[request].ticket == claim.ticket)
  }

  lemma Begins(w: World, rules: Rules, roomId: Id, g: Grant, request: Id)
    requires Live(w, rules, roomId, g) && request !in w.requests
    requires Armed(w.desks[g.recipientId], g.recipientId, g)
    ensures var v := Next(w, rules, Step.Takes(g.recipientId, request, ClaimOf(g)));
            && Live(v, rules, roomId, g) && v.successes == w.successes
            && Waiting(v, g.recipientId, request, ClaimOf(g), None)
            && AskMsg(g.recipientId, request, ClaimOf(g)) in v.net
  {
    hide Live, Prune, Consumable;
    Lives(w, rules, roomId, g);
    ConsumableAnswer(w.desks[g.recipientId], ClaimOf(g));
    assert Prune(w.desks[g.recipientId]).owner == w.desks[g.recipientId].owner
        && Prune(w.desks[g.recipientId]).recovering == w.desks[g.recipientId].recovering by {
      PruneAnswer(w.desks[g.recipientId]);
    }
    StaysLive(w, rules, roomId, g, Step.Takes(g.recipientId, request, ClaimOf(g)));
  }

  lemma Decides(w: World, rules: Rules, roomId: Id, g: Grant, request: Id)
    requires Live(w, rules, roomId, g) && Waiting(w, g.recipientId, request, ClaimOf(g), None)
    requires AskMsg(g.recipientId, request, ClaimOf(g)) in w.net
    ensures var v := Next(w, rules, Delivers(AskMsg(g.recipientId, request, ClaimOf(g))));
            && v.successes == w.successes && Waiting(v, g.recipientId, request, ClaimOf(g), None)
            && AnswerMsg(g.recipientId, request, g.ticket, true) in v.net && v.owner in v.desks
  {
    hide DesksTidy, MintsFulfil, Unique, Prune, ConsumeIssued;
    Lives(w, rules, roomId, g);
    assert Honours(Books(w), g, ClaimOf(g), g.recipientId);
    Accepts(Books(w), rules, g);
  }

  lemma Accepts(d: Desk, rules: Rules, g: Grant)
    requires Unique(d.issued) && g in d.issued && Honours(d, g, ClaimOf(g), g.recipientId)
    ensures ConsumeIssued(d, rules, ClaimOf(g), g.recipientId).1
  {
    hide Unique, Remember;
    PruneAnswer(d);
    KeepUnique(d.issued, ExpiredBefore(d.now));
    FoundIn(Prune(d).issued, g.ticket, g);
  }

  lemma Hears(w: World, rules: Rules, n: Id, request: Id, claim: Claim)
    requires w.owner in w.desks && Waiting(w, n, request, claim, None)
    requires AnswerMsg(n, request, claim.ticket, true) in w.net
    ensures var v := Next(w, rules, Delivers(AnswerMsg(n, request, claim.ticket, true)));
            && v.successes == w.successes && Waiting(v, n, request, claim, Some(true)) && v.owner in v.desks
  {
  }

  lemma Succeeds(w: World, rules: Rules, n: Id, request: Id, claim: Claim)
    requires w.owner in w.desks && Waiting(w, n, request, claim, Some(true))
    ensures Next(w, rules, TakeEnds(request, true)).successes == w.successes + [Success(n, request, claim)]
  {
    hide Consumed;
  }

  /** What happens when nothing comes between. */
  function Steps(g: Grant, request: Id): seq<Step> {
    var n := g.recipientId;
    [Mint(ClaimOf(g), true), Delivers(ArmMsg(n, g)), Delivers(ArmedMsg(n, g)), IssueEnds(g.ticket, true)]
    + [Step.Takes(n, request, ClaimOf(g)), Delivers(AskMsg(n, request, ClaimOf(g)))]
    + [Delivers(AnswerMsg(n, request, g.ticket, true)), TakeEnds(request, true)]
  }

  /**
   * From any point of any run, a request the owner may grant to a participant
   * that sees both parties online leads to one transfer there, on the claim the
   * sender asked for, if only the messages arrive and nothing else happens.
   */
  lemma Undisturbed(rules: Rules, owner: Id, roomId: Id, worlds: seq<World>, steps: seq<Step>, i: nat, claim: Claim,
                    request: Id)
    requires Run(rules, owner, roomId, worlds, steps) && i < |worlds|
    requires Grantable(worlds[i], rules, claim) && request !in worlds[i].requests
    requires claim.recipientId != worlds[i].owner
    requires Receptive(worlds[i].desks[claim.recipientId], claim.recipientId,
                       GrantOf(Books(worlds[i]), rules, claim))
    ensures var w := worlds[i];
            var g := GrantOf(Books(w), rules, claim);
            After(w, rules, Steps(g, request)).successes == w.successes + [Success(claim.recipientId, request, claim)]
  {
    hide Run, Next, DesksTidy, MintsFulfil, After, Live, Armed, Receptive, Waiting, DesksOk, SafeOk, Grantable;
    var w := worlds[i];
    RunSafe(rules, owner, roomId, worlds, steps, i);
    OwnerSelf(w, rules);
    MintedAsAsked(rules, owner, roomId, worlds, steps, i);
    var n := claim.recipientId;
    var g := GrantOf(Books(w), rules, claim);
    assert ClaimOf(g) == claim by { SameClaim(w, rules, claim); }
    FirstHalf(w, rules, roomId, claim, request);
    var first := [Mint(claim, true), Delivers(ArmMsg(n, g)), Delivers(ArmedMsg(n, g)), IssueEnds(g.ticket, true)];
    var rest := [Step.Takes(n, request, claim), Delivers(AskMsg(n, request, claim))]
      + [Delivers(AnswerMsg(n, request, g.ticket, true)), TakeEnds(request, true)];
    Lives(After(w, rules, first), rules, roomId, g);
    SecondHalf(After(w, rules, first), rules, roomId, g, request);
    assert w.owner in w.desks;
    Splits(w, rules, first, rest);
    assert Steps(g, request) == first + rest;
  }

  lemma OwnerSelf(w: World, rules: Rules)
    requires SafeOk(w, rules)
    ensures w.owner in w.desks && w.desks[w.owner].self == w.owner && BooksOk(w.desks[w.owner], rules)
  {
    hide BooksOk;
  }

  lemma SameClaim(w: World, rules: Rules, claim: Claim)
    requires Grantable(w, rules, claim)
    ensures ClaimOf(GrantOf(Books(w), rules, claim)) == claim
  {
  }

  lemma {:induction false} Splits(w: World, rules: Rules, a: seq<Step>, b: seq<Step>)
    requires w.owner in w.desks
    ensures After(w, rules, a + b) == After(After(w, rules, a), rules, b)
    decreases |a|
  {
    hide Next;
    if a == [] {
      assert a + b == b;
    } else {
      assert (a + b)[1..] == a[1..] + b;
      var v := Next(w, rules, a[0]);
      if v.owner in v.desks {
        Splits(v, rules, a[1..], b);
      }
    }
  }

  lemma FirstHalf(w: World, rules: Rules, roomId: Id, claim: Claim, request: Id)
    requires DesksTidy(w, roomId) && MintsFulfil(w, rules, roomId) && request !in w.requests
    requires Grantable(w, rules, claim) && claim.recipientId != w.owner && Books(w).self == w.owner
    requires Receptive(w.desks[claim.recipientId], claim.recipientId, GrantOf(Books(w), rules, claim))
    ensures var n := claim.recipientId;
            var g := GrantOf(Books(w), rules, claim);
            var v := After(w, rules, [Mint(claim, true), Delivers(ArmMsg(n, g)), Delivers(ArmedMsg(n, g)),
                                      IssueEnds(g.ticket, true)]);
            && Live(v, rules, roomId, g) && request !in v.requests && v.successes == w.successes
            && Armed(v.desks[n], n, g)
  {
    hide Next, DesksTidy, MintsFulfil, Live, Armed, Receptive, After;
    var n := claim.recipientId;
    var g := GrantOf(Books(w), rules, claim);
    var s1, s2 := Mint(claim, true), Delivers(ArmMsg(n, g));
    var s3, s4 := Delivers(ArmedMsg(n, g)), IssueEnds(g.ticket, true);
    Mints(w, rules, roomId, claim);
    var w1 := Next(w, rules, s1);
    Lives(w1, rules, roomId, g);
    Arms(w1, rules, roomId, g);
    var w2 := Next(w1, rules, s2);
    Lives(w2, rules, roomId, g);
    Confirms(w2, rules, roomId, g);
    var w3 := Next(w2, rules, s3);
    Lives(w3, rules, roomId, g);
    Grants(w3, rules, roomId, g);
    Lives(Next(w3, rules, s4), rules, roomId, g);
    FourSteps(w, rules, s1, s2, s3, s4);
  }

  lemma FourSteps(w: World, rules: Rules, a: Step, b: Step, c: Step, d: Step)
    requires w.owner in w.desks
    requires var w1 := Next(w, rules, a);
             && w1.owner in w1.desks && var w2 := Next(w1, rules, b);
             && w2.owner in w2.desks && var w3 := Next(w2, rules, c);
             w3.owner in w3.desks
    ensures After(w, rules, [a, b, c, d])
      == Next(Next(Next(Next(w, rules, a), rules, b), rules, c), rules, d)
  {
    hide Next;
    var w1 := Next(w, rules, a);
    var w2 := Next(w1, rules, b);
    var w3 := Next(w2, rules, c);
    assert [a, b, c, d] == [a] + [b, c, d] && [b, c, d] == [b] + [c, d] && [c, d] == [c] + [d] && [d] == [d] + [];
    OneStep(w, rules, a, [b, c, d]);
    OneStep(w1, rules, b, [c, d]);
    OneStep(w2, rules, c, [d]);
    OneStep(w3, rules, d, []);
  }

  lemma SecondHalf(w: World, rules: Rules, roomId: Id, g: Grant, request: Id)
    requires Live(w, rules, roomId, g) && g.recipientId in w.desks && request !in w.requests
    requires Armed(w.desks[g.recipientId], g.recipientId, g)
    ensures var n := g.recipientId;
            After(w, rules, [Step.Takes(n, request, ClaimOf(g)), Delivers(AskMsg(n, request, ClaimOf(g)))]
                            + [Delivers(AnswerMsg(n, request, g.ticket, true)), TakeEnds(request, true)]).successes
              == w.successes + [Success(n, request, ClaimOf(g))]
  {
    hide Next, DesksTidy, MintsFulfil, Live, Armed, After, Waiting;
    var n, claim := g.recipientId, ClaimOf(g);
    var s1, s2 := Step.Takes(n, request, claim), Delivers(AskMsg(n, request, claim));
    var s3, s4 := Delivers(AnswerMsg(n, request, g.ticket, true)), TakeEnds(request, true);
    Lives(w, rules, roomId, g);
    Begins(w, rules, roomId, g, request);
    var w1 := Next(w, rules, s1);
    Lives(w1, rules, roomId, g);
    Decides(w1, rules, roomId, g, request);
    var w2 := Next(w1, rules, s2);
    Hears(w2, rules, n, request, claim);
    var w3 := Next(w2, rules, s3);
    Succeeds(w3, rules, n, request, claim);
    FourSteps(w, rules, s1, s2, s3, s4);
    assert [s1, s2] + [s3, s4] == [s1, s2, s3, s4];
  }

  /** The same for the owner as recipient, in one breath. */
  lemma UndisturbedAtOwner(rules: Rules, owner: Id, roomId: Id, worlds: seq<World>, steps: seq<Step>, i: nat,
                           claim: Claim, request: Id)
    requires Run(rules, owner, roomId, worlds, steps) && i < |worlds| && rules.tombstones >= 1
    requires Grantable(worlds[i], rules, claim) && request !in worlds[i].requests
    requires claim.recipientId == worlds[i].owner && claim.ticket !in Books(worlds[i]).consuming
    ensures var w := worlds[i];
            After(w, rules, [Mint(claim, true), Step.Takes(w.owner, request, claim)]).successes
              == w.successes + [Success(w.owner, request, claim)]
  {
    hide Run, Next, DesksTidy, MintsFulfil, DesksOk, SafeOk, Grantable;
    var w := worlds[i];
    RunSafe(rules, owner, roomId, worlds, steps, i);
    OwnerSelf(w, rules);
    MintedAsAsked(rules, owner, roomId, worlds, steps, i);
    var v := Next(w, rules, Mint(claim, true));
    NextSafe(w, rules, Mint(claim, true));
    NextTidy(w, rules, roomId, Mint(claim, true));
    OwnerSelf(v, rules);
    OwnerThere(w, roomId);
    OwnerThere(v, roomId);
    OwnMint(w, rules, claim);
    OwnTake(v, rules, request, claim, GrantOf(Books(w), rules, claim));
    OneStep(w, rules, Mint(claim, true), [Step.Takes(w.owner, request, claim)]);
    OneStep(v, rules, Step.Takes(w.owner, request, claim), []);
    assert [Mint(claim, true)] + [Step.Takes(w.owner, request, claim)]
        == [Mint(claim, true), Step.Takes(w.owner, request, claim)];
    assert [Step.Takes(w.owner, request, claim)] + [] == [Step.Takes(w.owner, request, claim)];
  }

  lemma OwnMint(w: World, rules: Rules, claim: Claim)
    requires Grantable(w, rules, claim) && claim.recipientId == w.owner && Books(w).self == w.owner
    requires Unique(Books(w).issued) && claim.ticket !in Books(w).consuming
    ensures var v := Next(w, rules, Mint(claim, true));
            && v.owner == w.owner && w.owner in v.desks && v.requests == w.requests && v.successes == w.successes
            && MayAskFor(Books(v), GrantOf(Books(w), rules, claim), claim)
  {
    hide Issue, Has, MayIssue, FreshTicket, Unique;
    IssuedLive(Books(w), rules, claim);
  }

  lemma OwnTake(w: World, rules: Rules, request: Id, claim: Claim, g: Grant)
    requires w.owner in w.desks && BooksOk(Books(w), rules) && Tidy(Books(w)) && rules.tombstones >= 1
    requires MayAskFor(Books(w), g, claim) && request !in w.requests
    ensures Next(w, rules, Step.Takes(w.owner, request, claim)).successes
      == w.successes + [Success(w.owner, request, claim)]
  {
    hide BooksOk, Tidy, MayAskFor, ConsumeBegin, Decision;
    OwnerBeginAnswer(Books(w), rules, request, claim);
  }
}
