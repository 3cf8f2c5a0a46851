/**
 * Transfer tickets as one participant keeps them: those armed here, those it
 * issued (the owner), tombstones of spent ones, and the calls under way.
 * Each function is one synchronous segment.
 */
module TicketDesk {
  import opened Basics
  import opened RoomTypes
  import opened EventDeduper

  datatype Kind = File | Voice

  datatype Grant = Grant(
    ticket: Id,
    expiresAt: nat,
    roomId: Id,
    kind: Kind,
    senderId: Id,
    recipientId: Id,
    transferId: Id,
    size: nat)

  /** What a sender shows to a recipient, and a recipient to the owner. */
  datatype Claim = Claim(ticket: Id, roomId: Id, kind: Kind, senderId: Id, recipientId: Id, transferId: Id, size: nat)

  /** A member as this participant sees it; `link` names its current control stream. */
  datatype Presence = Presence(online: bool, link: nat)

  /** `tombstones` is at least one: a configured value of zero or less means the default of 256. */
  datatype Rules = Rules(ttl: nat, tombstones: nat, cap: nat)

  datatype Desk = Desk(
    self: Id,
    roomId: Id,
    owner: bool,
    now: nat,
    paused: bool,
    closing: bool,
    recovering: bool,
    members: map<Id, Presence>,
    tickets: seq<Grant>,
    issued: seq<Grant>,
    spent: seq<Entry>,
    consuming: set<Id>,
    arming: seq<Grant>,
    asking: map<Id, Grant>)

  // ---- Lists of grants ----

  datatype Test = Naming(member: Id) | ExpiredBefore(time: nat) | Holding(ticket: Id) | From(sender: Id)

  predicate Matches(test: Test, g: Grant) {
    match test
    case Naming(member) => g.senderId == member || g.recipientId == member
    case ExpiredBefore(time) => g.expiresAt < time
    case Holding(ticket) => g.ticket == ticket
    case From(sender) => g.senderId == sender
  }

  function Keep(grants: seq<Grant>, test: Test): seq<Grant> {
    if grants == [] then []
    else (if Matches(test, grants[0]) then [] else [grants[0]]) + Keep(grants[1..], test)
  }

  function Hits(grants: seq<Grant>, test: Test): seq<Grant> {
    if grants == [] then []
    else (if Matches(test, grants[0]) then [grants[0]] else []) + Hits(grants[1..], test)
  }

  function Find(grants: seq<Grant>, ticket: Id): Option<Grant> {
    if grants == [] then None
    else if grants[0].ticket == ticket then Some(grants[0])
    else Find(grants[1..], ticket)
  }

  ghost predicate Unique(grants: seq<Grant>) {
    forall i, j :: 0 <= i < j < |grants| ==> grants[i].ticket != grants[j].ticket
  }

  lemma {:induction false} KeepIn(grants: seq<Grant>, test: Test, g: Grant)
    ensures g in Keep(grants, test) <==> g in grants && !Matches(test, g)
    ensures g in Hits(grants, test) <==> g in grants && Matches(test, g)
  {
    if grants != [] {
      KeepIn(grants[1..], test, g);
      assert g in grants <==> g == grants[0] || g in grants[1..];
    }
  }

  lemma {:induction false} KeepUnique(grants: seq<Grant>, test: Test)
    requires Unique(grants)
    ensures Unique(Keep(grants, test))
  {
    if grants != [] {
      var rest := grants[1..];
      assert forall i :: 0 <= i < |rest| ==> rest[i] == grants[i + 1];
      KeepUnique(rest, test);
      var kept := Keep(rest, test);
      forall i | 0 <= i < |kept|
        ensures kept[i].ticket != grants[0].ticket
      {
        KeepIn(rest, test, kept[i]);
      }
    }
  }

  lemma {:induction false} FindIn(grants: seq<Grant>, ticket: Id)
    ensures Find(grants, ticket).Some? ==>
      Find(grants, ticket).value in grants && Find(grants, ticket).value.ticket == ticket
    ensures Find(grants, ticket).None? ==> forall g :: g in grants ==> g.ticket != ticket
  {
    if grants != [] {
      FindIn(grants[1..], ticket);
      assert forall g :: g in grants <==> g == grants[0] || g in grants[1..];
    }
  }

  lemma {:induction false} FewerHits(grants: seq<Grant>, drop: Test, count: Test)
    ensures |Hits(Keep(grants, drop), count)| <= |Hits(grants, count)|
  {
    if grants != [] {
      FewerHits(grants[1..], drop, count);
      if !Matches(drop, grants[0]) {
        assert Keep(grants, drop)[1..] == Keep(grants[1..], drop);
      } else {
        assert Keep(grants, drop) == Keep(grants[1..], drop);
      }
    }
  }

  lemma {:induction false} OneMoreHit(grants: seq<Grant>, g: Grant, count: Test)
    ensures |Hits(grants + [g], count)| == |Hits(grants, count)| + if Matches(count, g) then 1 else 0
  {
    if grants == [] {
      assert [] + [g] == [g] && [g][1..] == [];
    } else {
      assert (grants + [g])[1..] == grants[1..] + [g];
      OneMoreHit(grants[1..], g, count);
    }
  }

  // ---- Tombstones ----

  function Remember(rules: Rules, tombs: seq<Entry>, key: Id, now: nat): seq<Entry> {
    TakeLast(Without(tombs, key) + [Entry(key, now + rules.ttl)], rules.tombstones)
  }

  function RememberAll(rules: Rules, tombs: seq<Entry>, gone: seq<Grant>, now: nat): seq<Entry>
    decreases |gone|
  {
    if gone == [] then tombs
    else RememberAll(rules, Remember(rules, tombs, gone[0].ticket, now), gone[1..], now)
  }

  function Lasting(tombs: seq<Entry>, now: nat): seq<Entry> {
    if tombs == [] then []
    else (if tombs[0].number < now then [] else [tombs[0]]) + Lasting(tombs[1..], now)
  }

  lemma TakeLastHas(entries: seq<Entry>, n: nat, x: Id)
    requires Has(TakeLast(entries, n), x)
    ensures Has(entries, x)
  {
    var cut := |entries| - |TakeLast(entries, n)|;
    assert entries == entries[..cut] + TakeLast(entries, n);
    HasConcat(entries[..cut], TakeLast(entries, n), x);
  }

  /** Remembering adds nothing but the key, and keeps the key. */
  lemma RememberHas(rules: Rules, tombs: seq<Entry>, key: Id, now: nat, x: Id)
    ensures Has(Remember(rules, tombs, key, now), x) ==> x == key || Has(tombs, x)
    ensures rules.tombstones >= 1 ==> Has(Remember(rules, tombs, key, now), key)
    ensures |Remember(rules, tombs, key, now)| <= rules.tombstones
  {
    var grown := Without(tombs, key) + [Entry(key, now + rules.ttl)];
    if Has(TakeLast(grown, rules.tombstones), x) {
      TakeLastHas(grown, rules.tombstones, x);
      HasConcat(Without(tombs, key), [Entry(key, now + rules.ttl)], x);
      WithoutHas(tombs, key, x);
    }
    if rules.tombstones >= 1 {
      var kept := TakeLast(grown, rules.tombstones);
      assert kept[|kept| - 1] == Entry(key, now + rules.ttl);
    }
  }

  lemma {:induction false} RememberAllHas(rules: Rules, tombs: seq<Entry>, gone: seq<Grant>, now: nat, x: Id)
    ensures Has(RememberAll(rules, tombs, gone, now), x) ==> Has(tombs, x) || exists g :: g in gone && g.ticket == x
    decreases |gone|
  {
    if gone != [] && Has(RememberAll(rules, tombs, gone, now), x) {
      var next := Remember(rules, tombs, gone[0].ticket, now);
      RememberAllHas(rules, next, gone[1..], now, x);
      RememberHas(rules, tombs, gone[0].ticket, now, x);
      if !Has(next, x) {
        var g :| g in gone[1..] && g.ticket == x;
        assert g in gone;
      } else if x == gone[0].ticket {
        assert gone[0] in gone;
      }
    }
  }

  lemma {:induction false} LastingHas(tombs: seq<Entry>, now: nat, x: Id)
    requires Has(Lasting(tombs, now), x)
    ensures Has(tombs, x)
  {
    HasCons(tombs, x);
    if tombs[0].number < now {
      assert Lasting(tombs, now) == Lasting(tombs[1..], now);
      LastingHas(tombs[1..], now, x);
    } else {
      var lasting := Lasting(tombs, now);
      HasCons(lasting, x);
      assert lasting[1..] == Lasting(tombs[1..], now);
      if lasting[0].id != x {
        LastingHas(tombs[1..], now, x);
      }
    }
  }

  // ---- Revocation ----

  function Prune(d: Desk): Desk {
    d.(tickets := Keep(d.tickets, ExpiredBefore(d.now)), issued := Keep(d.issued, ExpiredBefore(d.now)),
       spent := Lasting(d.spent, d.now))
  }

  /** Everything that names a member is revoked. */
  function InvalidateMember(d: Desk, rules: Rules, member: Id): Desk {
    var test := Naming(member);
    var spent := RememberAll(rules, d.spent, Hits(d.tickets, test), d.now);
    var spent' := RememberAll(rules, spent, Hits(d.issued, test), d.now);
    d.(tickets := Keep(d.tickets, test), issued := Keep(d.issued, test), arming := Keep(d.arming, test),
       spent := RememberAll(rules, spent', Hits(d.arming, test), d.now),
       asking := map r | r in d.asking && !Matches(test, d.asking[r]) :: d.asking[r])
  }

  function InvalidateAll(d: Desk, rules: Rules): Desk {
    var spent := RememberAll(rules, d.spent, d.tickets, d.now);
    var spent' := RememberAll(rules, spent, d.issued, d.now);
    d.(tickets := [], issued := [], consuming := {}, arming := [], asking := map[],
       spent := RememberAll(rules, spent', d.arming, d.now))
  }

  /** The owner removes a member, or a guest learns that it is gone. */
  function MemberGone(d: Desk, rules: Rules, member: Id): Desk {
    if member == d.self || (d.owner && (d.closing || member !in d.members)) then d
    else InvalidateMember(d.(members := d.members - {member}), rules, member)
  }

  function Pause(d: Desk, rules: Rules, paused: bool): Desk {
    var flipped := d.(paused := paused);
    if paused then InvalidateAll(flipped, rules) else flipped
  }

  function Close(d: Desk, rules: Rules): Desk {
    if d.closing then d else InvalidateAll(d.(paused := true, closing := true), rules)
  }

  // ---- Issuing and arming ----

  predicate IsOnline(d: Desk, member: Id) {
    member in d.members && d.members[member].online
  }

  /** The recipient of a grant keeps its own deadline, counted from the arming. */
  function Arm(d: Desk, rules: Rules, g: Grant): Option<Desk> {
    if g.roomId != d.roomId || d.paused || g.recipientId != d.self
       || Find(d.tickets, g.ticket).Some? || Lookup(d.spent, g.ticket).Some?
       || !IsOnline(d, g.senderId) || !IsOnline(d, g.recipientId)
    then None
    else
      var stored := g.(expiresAt := d.now + rules.ttl);
      Some(d.(tickets := d.tickets + [stored],
              issued := if d.owner && Find(d.issued, g.ticket).None? then d.issued + [stored] else d.issued))
  }

  function Scrap(d: Desk, rules: Rules, ticket: Id): Desk {
    d.(issued := Keep(d.issued, Holding(ticket)), tickets := Keep(d.tickets, Holding(ticket)),
       arming := Keep(d.arming, Holding(ticket)), spent := Remember(rules, d.spent, ticket, d.now))
  }

  function Minted(d: Desk, rules: Rules, claim: Claim): Grant {
    Grant(claim.ticket, d.now + rules.ttl, d.roomId, claim.kind, claim.senderId, claim.recipientId, claim.transferId,
          claim.size)
  }

  /** `capable` stands for the recipient's announced capabilities and limits, and for a well-formed request. */
  predicate Issuable(d: Desk, rules: Rules, claim: Claim, capable: bool) {
    && !d.closing && !d.paused && capable
    && claim.senderId != claim.recipientId && IsOnline(d, claim.senderId) && IsOnline(d, claim.recipientId)
    && |Hits(d.issued, From(claim.senderId))| < rules.cap
  }

  /** The synchronous part of issuing: the grant is live, and armed at once if the owner is its recipient. */
  function Issue(d: Desk, rules: Rules, claim: Claim, capable: bool): Desk {
    var p := Prune(d);
    if !Issuable(p, rules, claim, capable) then p
    else
      var g := Minted(d, rules, claim);
      var live := p.(issued := p.issued + [g]);
      if g.recipientId == d.self then
        match Arm(live, rules, g)
        case Some(armed) => armed
        case None => Scrap(live, rules, g.ticket)
      else live.(arming := p.arming + [g])
  }

  /** A recipient says it is armed. */
  function ResolveArm(d: Desk, from: Id, g: Grant): Desk {
    if g in d.arming && g.recipientId == from then d.(arming := Keep(d.arming, Holding(g.ticket))) else d
  }

  /** The rest of issuing, after the recipient answered or did not: true if the grant goes to the sender. */
  function IssueEnd(d: Desk, rules: Rules, g: Grant, armed: bool, current: bool): (Desk, bool) {
    if armed && current && !d.paused && Find(d.issued, g.ticket) == Some(g) && IsOnline(d, g.senderId) && IsOnline(d,
      g.recipientId)
    then (d, true)
    else (Scrap(d, rules, g.ticket), false)
  }

  // ---- Consuming ----

  function ClaimOf(g: Grant): Claim {
    Claim(g.ticket, g.roomId, g.kind, g.senderId, g.recipientId, g.transferId, g.size)
  }

  /** The owner's decision, final and exactly once per ticket. */
  function ConsumeIssued(d: Desk, rules: Rules, claim: Claim, asker: Id): (Desk, bool) {
    var p := Prune(d);
    match Find(p.issued, claim.ticket)
    case None => (p, false)
    case Some(g) =>
      if !d.paused && g.roomId == d.roomId && claim == ClaimOf(g) && g.recipientId == asker && d.now <= g.expiresAt
         && IsOnline(d, g.senderId) && IsOnline(d, g.recipientId)
      then (p.(issued := Keep(p.issued, Holding(claim.ticket)),
               spent := Remember(rules, p.spent, claim.ticket, d.now)), true)
      else (p, false)
  }

  /** What a recipient checks before it asks the owner. */
  function Consumable(d: Desk, claim: Claim): Option<Grant> {
    match Find(d.tickets, claim.ticket)
    case None => None
    case Some(g) =>
      if !d.paused && g.roomId == d.roomId && claim == ClaimOf(g) && g.recipientId == d.self && d.now <= g.expiresAt
         && IsOnline(d, g.senderId) && IsOnline(d, g.recipientId) && g.ticket !in d.consuming
      then Some(g) else None
  }

  function Consumed(d: Desk, rules: Rules, ticket: Id): Desk {
    d.(tickets := Keep(d.tickets, Holding(ticket)), spent := Remember(rules, d.spent, ticket, d.now),
       consuming := d.consuming - {ticket})
  }

  datatype Outcome = Refused | Failed | Accepted(grant: Grant) | Asking(grant: Grant)

  /** A transfer begins at its recipient. The owner decides at once; a guest asks the owner. */
  function ConsumeBegin(d: Desk, rules: Rules, request: Id, claim: Claim): (Desk, Outcome) {
    var p := Prune(d);
    match Consumable(p, claim)
    case None => (p, Refused)
    case Some(g) =>
      if d.owner then
        var (decided, ok) := ConsumeIssued(p, rules, claim, d.self);
        (Consumed(decided, rules, claim.ticket), if ok then Accepted(g) else Failed)
      else if d.recovering then (Consumed(p, rules, claim.ticket), Failed)
      else (p.(consuming := p.consuming + {claim.ticket}, asking := p.asking[request := g]), Asking(g))
  }

  /** The owner's answer reaches the call that asked. */
  function ResolveAnswer(d: Desk, request: Id, ticket: Id): Desk {
    if request in d.asking && d.asking[request].ticket == ticket then d.(asking := d.asking - {request}) else d
  }
}
