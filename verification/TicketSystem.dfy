/**
 * Transfer tickets across a whole room: the owner, every other participant,
 * and a network that may delay, reorder, repeat or lose any message. A
 * transfer starts at its recipient with whatever the other side claims.
 */
module TicketSystem {
  import opened Basics
  import opened RoomTypes
  import opened TicketDesk
  import opened TicketAuthority

  datatype Msg =
    | ArmMsg(to: Id, grant: Grant)
    | ArmedMsg(from: Id, grant: Grant)
    | AskMsg(from: Id, request: Id, claim: Claim)
    | AnswerMsg(to: Id, request: Id, ticket: Id, accepted: bool)

  /** A grant whose recipient has not yet confirmed that it is armed, or just did. */
  datatype Op = Op(grant: Grant, armed: bool)

  /** A transfer whose recipient waits for the owner's decision. */
  datatype Call = Call(node: Id, claim: Claim, answer: Option<bool>)

  /** The owner's decision, with what was true when it was taken. */
  datatype Acceptance = Acceptance(grant: Grant, request: Id, asker: Id, time: nat, paused: bool, senderOnline: bool,
    recipientOnline: bool)

  datatype Success = Success(node: Id, request: Id, claim: Claim)

  /** What a sender asked a ticket for, and when. */
  datatype Wish = Wish(claim: Claim, time: nat)

  /** `minted`, `asked`, `requests`, `armed`, `accepted` and `successes` record the past. */
  datatype World = World(
    owner: Id,
    desks: map<Id, Desk>,
    net: set<Msg>,
    issuing: map<Id, Op>,
    calls: map<Id, Call>,
    minted: map<Id, Grant>,
    asked: map<Id, Wish>,
    requests: set<Id>,
    armed: set<(Id, Id)>,
    accepted: seq<Acceptance>,
    successes: seq<Success>)

  datatype Step =
    | OwnerActs(act: Act)
    | GuestArrives(node: Id, members: map<Id, Presence>)
    | GuestSees(node: Id, members: map<Id, Presence>, now: nat, recovering: bool)
    | GuestPauses(node: Id, flag: bool)
    | GuestLoses(node: Id, member: Id, gone: bool)
    | GuestSweeps(node: Id)
    | Mint(claim: Claim, capable: bool)
    | Delivers(msg: Msg)
    | IssueEnds(ticket: Id, current: bool)
    | Takes(node: Id, request: Id, claim: Claim)
    | TakeEnds(request: Id, current: bool)

  /** Segments of the owner that neither issue nor decide. */
  predicate Housekeeping(act: Act) {
    act.Ticks? || act.Sweeps? || act.Pauses? || act.Closes? || act.Sees? || act.Loses?
  }

  function Books(w: World): Desk
    requires w.owner in w.desks
  {
    w.desks[w.owner]
  }

  /** A newly drawn ticket is unlike every ticket in the room's books. */
  ghost function MintStep(w: World, rules: Rules, claim: Claim, capable: bool): World
    requires w.owner in w.desks
  {
    var d := Books(w);
    if claim.ticket in w.minted || !FreshTicket(d, claim.ticket) then w
    else
      var k := Issue(d, rules, claim, capable);
      var g := Minted(d, rules, claim);
      w.(desks := w.desks[w.owner := k],
         minted := w.minted[claim.ticket := g],
         asked := w.asked[claim.ticket := Wish(claim, d.now)],
         issuing := if g in k.arming then w.issuing[claim.ticket := Op(g, false)] else w.issuing,
         net := if g in k.arming then w.net + {ArmMsg(g.recipientId, g)} else w.net,
         armed := if g in k.tickets then w.armed + {(w.owner, claim.ticket)} else w.armed)
  }

  function ArmStep(w: World, rules: Rules, to: Id, g: Grant): World {
    if to !in w.desks || to == w.owner then w
    else
      match Arm(w.desks[to], rules, g)
      case None => w
      case Some(k) =>
        w.(desks := w.desks[to := k], armed := w.armed + {(to, g.ticket)}, net := w.net + {ArmedMsg(to, g)})
  }

  function ArmedStep(w: World, from: Id, g: Grant): World
    requires w.owner in w.desks
  {
    if g in Books(w).arming && g.recipientId == from && g.ticket in w.issuing then
      w.(desks := w.desks[w.owner := ResolveArm(Books(w), from, g)],
         issuing := w.issuing[g.ticket := w.issuing[g.ticket].(armed := true)])
    else w
  }

  function IssueEndStep(w: World, rules: Rules, ticket: Id, current: bool): World
    requires w.owner in w.desks
  {
    if ticket !in w.issuing then w
    else
      var op := w.issuing[ticket];
      w.(desks := w.desks[w.owner := IssueEnd(Books(w), rules, op.grant, op.armed, current).0],
         issuing := w.issuing - {ticket})
  }

  function Decision(d: Desk, g: Grant, request: Id, asker: Id): Acceptance {
    Acceptance(g, request, asker, d.now, d.paused, IsOnline(d, g.senderId), IsOnline(d, g.recipientId))
  }

  /** The owner only answers a member whose control stream is up. */
  function AskStep(w: World, rules: Rules, from: Id, request: Id, claim: Claim): World
    requires w.owner in w.desks
  {
    var d := Books(w);
    if d.closing || from == w.owner || !IsOnline(d, from) then w
    else
      var (k, ok) := ConsumeIssued(d, rules, claim, from);
      w.(desks := w.desks[w.owner := k],
         net := w.net + {AnswerMsg(from, request, claim.ticket, ok)},
         accepted := if ok then w.accepted + [Decision(d, Find(Prune(d).issued, claim.ticket).value, request, from)]
             else w.accepted)
  }

  function AnswerStep(w: World, to: Id, request: Id, ticket: Id, accepted: bool): World {
    if to !in w.desks || request !in w.desks[to].asking || w.desks[to].asking[request].ticket != ticket
        || request !in w.calls then w
    else
      w.(desks := w.desks[to := ResolveAnswer(w.desks[to], request, ticket)],
         calls := w.calls[request := w.calls[request].(answer := Some(accepted))])
  }

  function TakeStep(w: World, rules: Rules, node: Id, request: Id, claim: Claim): World {
    if node !in w.desks || request in w.requests then w
    else
      var d := w.desks[node];
      var (k, outcome) := ConsumeBegin(d, rules, request, claim);
      var begun := w.(desks := w.desks[node := k], requests := w.requests + {request});
      match outcome
      case Refused => begun
      case Failed => begun
      case Accepted(g) =>
        begun.(accepted := w.accepted + [Decision(d, g, request, node)],
               successes := w.successes + [Success(node, request, claim)])
      case Asking(g) =>
        begun.(calls := w.calls[request := Call(node, claim, None)], net := w.net + {AskMsg(node, request, claim)})
  }

  /** The recipient's call goes on: answered, refused, revoked or out of time. */
  function TakeEndStep(w: World, rules: Rules, request: Id, current: bool): World {
    if request !in w.calls || w.calls[request].node !in w.desks then w
    else
      var call := w.calls[request];
      var d := w.desks[call.node];
      var k := Consumed(d.(asking := d.asking - {request}), rules, call.claim.ticket);
      w.(desks := w.desks[call.node := k],
         calls := w.calls - {request},
         successes := if call.answer == Some(true) && current
             then w.successes + [Success(call.node, request, call.claim)]
           else w.successes)
  }

  function Arrival(w: World, node: Id, members: map<Id, Presence>): World
    requires w.owner in w.desks
  {
    if node in w.desks then w
    else w.(desks := w.desks[node := Desk(node, Books(w).roomId, false, 0, false, false, false, members, [], [], [],
                                          {}, [], map[])])
  }

  /** What a guest does on its own account, and what it believes about the room, is unconstrained. */
  function GuestStep(w: World, rules: Rules, step: Step): World
    requires step.GuestSees? || step.GuestPauses? || step.GuestLoses? || step.GuestSweeps?
  {
    if step.node !in w.desks || step.node == w.owner then w
    else
      var d := w.desks[step.node];
      var k := match step
        case GuestSees(_, members, now, recovering) =>
          d.(members := members, now := Max(now, d.now), recovering := recovering)
        case GuestPauses(_, flag) => Pause(d, rules, flag)
        case GuestLoses(_, member, gone) =>
          if gone then MemberGone(d, rules, member) else InvalidateMember(d, rules, member)
        case GuestSweeps(_) => Prune(d)
        case _ => d;
      w.(desks := w.desks[step.node := k])
  }

  ghost function Next(w: World, rules: Rules, step: Step): World
    requires w.owner in w.desks
  {
    match step
    case OwnerActs(act) => if Housekeeping(act) then w.(desks := w.desks[w.owner := Acts(Books(w), rules, act)]) else w
    case GuestArrives(node, members) => Arrival(w, node, members)
    case Mint(claim, capable) => MintStep(w, rules, claim, capable)
    case Delivers(msg) =>
      if msg !in w.net then w
      else (
        match msg
        case ArmMsg(to, g) => ArmStep(w, rules, to, g)
        case ArmedMsg(from, g) => ArmedStep(w, from, g)
        case AskMsg(from, request, claim) => AskStep(w, rules, from, request, claim)
        case AnswerMsg(to, request, ticket, ok) => AnswerStep(w, to, request, ticket, ok)
      )
    case IssueEnds(ticket, current) => IssueEndStep(w, rules, ticket, current)
    case Takes(node, request, claim) => TakeStep(w, rules, node, request, claim)
    case TakeEnds(request, current) => TakeEndStep(w, rules, request, current)
    case _ => GuestStep(w, rules, step)
  }

  /** A room just opened: only its owner, with empty books. */
  function Opened(owner: Id, roomId: Id): World {
    World(owner,
          map[owner := Desk(owner, roomId, true, 0, false, false, false, map[owner := Presence(true, 0)], [], [], [],
                            {}, [], map[])],
          {}, map[], map[], map[], map[], {}, {}, [], [])
  }

  ghost predicate Run(rules: Rules, owner: Id, roomId: Id, worlds: seq<World>, steps: seq<Step>) {
    && |worlds| == |steps| + 1
    && worlds[0] == Opened(owner, roomId)
    && forall i :: 0 <= i < |steps| ==>
         worlds[i].owner in worlds[i].desks && worlds[i + 1] == Next(worlds[i], rules, steps[i])
  }
}
