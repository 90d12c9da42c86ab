/** The write-slot protocol of `ConsoleManager` as a step system. Each request is
    a coroutine cut where it really suspends; between two cuts it runs alone.
    A segment also lists the PortManager calls it made, in order. */
module Protocol {
  import opened Prelude
  import opened AccessControl
  import opened PortSeats
  import opened AccessDecision
  import opened AccessLadder

  datatype World = World(
    ports: map<PortName, PortState>,
    seat: map<ClientId, PortName>,
    tasks: map<ClientId, PortName>)
  {
    predicate SeatedAt(c: ClientId, p: PortName) { c in seat && seat[c] == p }

    function Port(p: PortName): PortState { if p in ports then ports[p] else NEW_PORT }
  }

  // A call made on one named port.
  datatype PortCall = At(port: PortName, call: Call)

  datatype Request =
    | Connect(client: ClientId, port: PortName, username: Username)
    | Disconnect(client: ClientId, port: PortName)
    | RequestWrite(client: ClientId, port: PortName)
    | GiveUpWrite(client: ClientId, port: PortName, notifyOrigin: bool)
    | Take(client: ClientId, port: PortName, target: Option<string>)

  // What the origin of a federated port answers, or fails to.
  datatype Reply = Nothing | OriginSays(mode: string) | OriginFails
  {
    predicate GrantsWrite() { this == OriginSays("read-write") }
  }

  // Where a suspended request waits.
  datatype Phase =
    | ConnectClosing                                  // closing the stream of the old, federated port
    | ConnectLeft                                     // presence broadcast after leaving the old port
    | AttachOpening(entitled: Mode, code: Code)       // opening the stream of a federated port
    | AttachAsking                                    // origin asked for the slot
    | AttachAnnounce(mode: Mode, code: Code)          // presence broadcast after the attach
    | DetachClosing
    | DetachAnnounce
    | PromoteAsking
    | PromoteAnnounce
    | DemoteReleasing
    | DemoteAnnounce
    | TakeDemoted(victim: ClientId)                   // presence broadcast after the victim's demotion
    | TakePromoted(victim: ClientId)                  // presence broadcast after the taker's promotion
    | TakeNotify(victim: ClientId)                    // notice to the victim
    | TakeEmptyAnnounce
    | TakeAsking                                      // origin asked for the take
    | TakeMirrorAsking                                // origin asked again by the local mirror
    | TakeMirrorAnnounce

  datatype Answer = Decided(decision: Decision) | Detached(ok: bool) | Raised

  datatype Outcome = Done(answer: Answer) | Wait(phase: Phase)

  datatype Seg = Seg(world: World, outcome: Outcome, calls: seq<PortCall>)

  // ------------------------------------------------------------ port calls

  predicate Did(cfg: Config, w: World, p: PortName, call: Call) {
    p in w.ports && p in cfg.ports && Accepts(cfg.ports[p], w.ports[p], call)
  }

  function Do(cfg: Config, w: World, p: PortName, call: Call): World {
    if p in w.ports && p in cfg.ports then
      w.(ports := w.ports[p := Apply(cfg.ports[p], w.ports[p], call)])
    else w
  }

  function DoAll(cfg: Config, w: World, calls: seq<PortCall>): World
    decreases calls
  {
    if calls == [] then w else DoAll(cfg, Do(cfg, w, calls[0].port, calls[0].call), calls[1..])
  }

  predicate Federated(cfg: Config, p: PortName) { p in cfg.ports && cfg.ports[p].federated }

  function Answered(code: Code, mode: Mode): Outcome
    requires !KindOf(code).Notice?
  {
    Done(Decided(Decide(code, mode)))
  }

  // ---------------------------------------------------------------- detach

  // Stop the forwarding task and forget the seat; a missing seat is a KeyError.
  function ForgetSeat(w: World, c: ClientId, next: Phase, calls: seq<PortCall>): Seg {
    if c in w.seat then Seg(w.(tasks := w.tasks - {c}, seat := w.seat - {c}), Wait(next), calls)
    else Seg(w.(tasks := w.tasks - {c}), Done(Raised), calls)
  }

  function LeavePort(cfg: Config, w: World, c: ClientId, p: PortName, closing: Phase, next: Phase): Seg {
    var calls := [At(p, Remove(c))];
    var left := Do(cfg, w, p, Remove(c));
    if Did(cfg, w, p, Remove(c)) && Federated(cfg, p) then Seg(left, Wait(closing), calls)
    else ForgetSeat(left, c, next, calls)
  }

  // ---------------------------------------------------------------- attach

  function TakeSeat(w: World, c: ClientId, p: PortName): World {
    w.(seat := w.seat[c := p], tasks := w.tasks[c := p])
  }

  function Admit(w: World, c: ClientId, p: PortName, federated: bool, entitled: Mode, mode: Mode, code: Code,
                 calls: seq<PortCall>): Seg
  {
    if federated then Seg(w, Wait(AttachOpening(entitled, code)), calls)
    else Seg(TakeSeat(w, c, p), Wait(AttachAnnounce(mode, code)), calls)
  }

  function AttachSeg(cfg: Config, w: World, c: ClientId, p: PortName, u: Username, now: real): Seg {
    if u !in cfg.permissions then Seg(w, Answered(NoPermissions, ReadOnly), [])
    else
      var (code, entitled) := ResolveAccessMode(cfg, cfg.Port(p), w.Port(p), cfg.permissions[u], u);
      if !Ok(code) then Seg(w, Answered(code, ReadOnly), [])
      else
        var federated := Federated(cfg, p);
        var mode := if federated then ReadOnly else entitled;
        var first, second := Add(c, u, mode, now), Add(c, u, ReadOnly, now);
        if Did(cfg, w, p, first) then
          Admit(Do(cfg, w, p, first), c, p, federated, entitled, mode, code, [At(p, first)])
        else if mode.ReadWrite? && Did(cfg, w, p, second) then
          Admit(Do(cfg, w, p, second), c, p, federated, entitled, ReadOnly, CapacityFull, [At(p, first), At(p, second)])
        else
          Seg(w, Answered(PortUnavailable, ReadOnly),
              if mode.ReadWrite? then [At(p, first), At(p, second)] else [At(p, first)])
  }

  // --------------------------------------------------------------- promote

  datatype Promotion =
    | Refused(code: Code, world: World, calls: seq<PortCall>)
    | MustAsk
    | Promoted(world: World, calls: seq<PortCall>)

  function SeatRefusalCode(port: Option<PortConfig>): (code: Code)
    ensures KindOf(code).Unavailable?
  {
    match (if port.Some? then port.value.Capacity() else Finite(1))
    case Unlimited => TakeWithoutSlot
    case Finite(n) => if n == 0 then NoWriteSlot else if n > 1 then TakeWithoutSlot else PromoteFailed
  }

  // The name and global permission the ladder is asked about.
  function Credentials(cfg: Config, w: World, c: ClientId, p: PortName): Option<(Username, string)> {
    var record := RecordOf(w.Port(p), c);
    var name := if record.Some? then record.value.username else "";
    if name != "" && name in cfg.permissions then Some((name, cfg.permissions[name]))
    else if c in cfg.adapterNames && cfg.adapterNames[c] != "" && cfg.adapterNames[c] in cfg.permissions then
      Some((name, cfg.permissions[cfg.adapterNames[c]]))
    else None
  }

  function Standing(cfg: Config, w: World, c: ClientId, p: PortName): (e: Entitlement)
    ensures e.Denied? ==> KindOf(e.code).Refusal?
  {
    match Credentials(cfg, w, c, p)
    case None => Denied(NotEntitled)
    case Some((name, permissions)) =>
      TakerEntitled(cfg, cfg.Port(p), permissions, if name != "" then name else c)
  }

  function RefusalCode(e: Entitlement): (code: Code)
    requires e.Denied? ==> KindOf(e.code).Refusal?
    ensures KindOf(code).Refusal?
  {
    if e.Denied? then e.code else NotEntitled
  }

  function PromoteNow(cfg: Config, w: World, c: ClientId, p: PortName): (r: Promotion)
    ensures !r.MustAsk?
    ensures r.Refused? ==> KindOf(r.code).Unavailable?
  {
    if Did(cfg, w, p, Promote(c)) then Promoted(Do(cfg, w, p, Promote(c)), [At(p, Promote(c))])
    else Refused(SeatRefusalCode(cfg.Port(p)), w, [At(p, Promote(c))])
  }

  function StartPromotion(cfg: Config, w: World, c: ClientId, p: PortName): (r: Promotion)
    ensures r.Refused? ==> KindOf(r.code).Refusal? || KindOf(r.code).Unavailable?
  {
    if !w.SeatedAt(c, p) then Refused(NotAttached, w, [])
    else if p in cfg.ports && !Standing(cfg, w, c, p).MayWrite? then
      Refused(RefusalCode(Standing(cfg, w, c, p)), w, [])
    else if Federated(cfg, p) then MustAsk
    else PromoteNow(cfg, w, c, p)
  }

  // The origin has answered: promote the local record, then promote it once more.
  function AnswerPromotion(cfg: Config, w: World, c: ClientId, p: PortName, reply: Reply): (r: Promotion)
    ensures !r.MustAsk?
    ensures r.Refused? ==> KindOf(r.code).Unavailable?
  {
    if reply.GrantsWrite() && Did(cfg, w, p, Promote(c)) then
      var again := PromoteNow(cfg, Do(cfg, w, p, Promote(c)), c, p);
      again.(calls := [At(p, Promote(c))] + again.calls)
    else Refused(FederationDenied, w, if reply.GrantsWrite() then [At(p, Promote(c))] else [])
  }

  // ------------------------------------------------------------------ take

  function Holders(rs: seq<Record>, taker: ClientId): (hs: seq<Record>)
    ensures forall h :: h in hs <==> h in rs && h.mode.ReadWrite? && h.client != taker
  {
    if rs == [] then []
    else
      (if rs[0].mode.ReadWrite? && rs[0].client != taker then [rs[0]] else []) + Holders(rs[1..], taker)
  }

  function Printed(hs: seq<Record>, target: string): (rs: seq<Record>)
    ensures forall r :: r in rs <==> r in hs && HolderIdShort(r.client) == target
  {
    if hs == [] then []
    else (if HolderIdShort(hs[0].client) == target then [hs[0]] else []) + Printed(hs[1..], target)
  }

  // The holder a console named: its exact id first, else the one that prints so.
  function MatchTakeTarget(hs: seq<Record>, target: string): (r: Option<Record>)
    ensures r.Some? ==> r.value in hs && (r.value.client == target || HolderIdShort(r.value.client) == target)
  {
    var i := IndexOf(hs, target);
    if i < |hs| then Some(hs[i])
    else
      var printed := Printed(hs, target);
      if |printed| == 1 then assert printed[0] in printed; Some(printed[0]) else None
  }

  // The first among the latest attached.
  function Latest(hs: seq<Record>): (r: Record)
    requires hs != []
    ensures r in hs
    ensures forall h :: h in hs ==> h.connectedAt <= r.connectedAt
  {
    if |hs| == 1 then hs[0]
    else
      var best, last := Latest(hs[..|hs| - 1]), hs[|hs| - 1];
      assert forall h :: h in hs ==> h in hs[..|hs| - 1] || h == last;
      if last.connectedAt > best.connectedAt then last else best
  }

  datatype Choice = Chosen(victim: Record) | NoChoice(code: Code)

  function ResolveTakeTarget(ps: PortState, taker: ClientId, target: Option<string>): (choice: Choice)
    ensures choice.Chosen? ==>
      choice.victim in ps.records && choice.victim.mode.ReadWrite? && choice.victim.client != taker
    ensures choice.NoChoice? ==> choice.code.NoHolder? || choice.code.InvalidTarget?
  {
    var hs := Holders(ps.records, taker);
    if hs == [] then NoChoice(NoHolder)
    else if target.None? then Chosen(Latest(hs))
    else
      match MatchTakeTarget(hs, target.value)
      case None => NoChoice(InvalidTarget)
      case Some(r) => Chosen(r)
  }

  function SeatRefusal(cfg: Config, p: PortName): Outcome { Answered(SeatRefusalCode(cfg.Port(p)), ReadOnly) }

  function TakeEmpty(cfg: Config, w: World, taker: ClientId, p: PortName): Seg {
    if HoldsSeat(w.Port(p).records, taker) then Seg(w, Answered(AlreadyRw, ReadWrite), [])
    else
      match StartPromotion(cfg, w, taker, p)
      case Promoted(world, calls) => Seg(world, Wait(TakeEmptyAnnounce), calls)
      case Refused(_, world, calls) => Seg(world, SeatRefusal(cfg, p), calls)
      case MustAsk => Seg(w, SeatRefusal(cfg, p), [])
  }

  function DemoteVictim(cfg: Config, w: World, victim: ClientId, p: PortName): Seg {
    if w.SeatedAt(victim, p) && Did(cfg, w, p, Demote(victim)) then
      Seg(Do(cfg, w, p, Demote(victim)), Wait(TakeDemoted(victim)), [At(p, Demote(victim))])
    else Seg(w, Answered(VictimNotCurrent, ReadOnly), if w.SeatedAt(victim, p) then [At(p, Demote(victim))] else [])
  }

  function TakeLocal(cfg: Config, w: World, taker: ClientId, p: PortName, target: Option<string>): Seg
    requires p in cfg.ports
  {
    match WireToMode(cfg.ports[p].maxReadWriteUsers)
    case ManyWriters =>
      if HoldsSeat(w.Port(p).records, taker) then Seg(w, Answered(AlreadyRw, ReadWrite), [])
      else Seg(w, SeatRefusal(cfg, p), [])
    case NoWriter => Seg(w, SeatRefusal(cfg, p), [])
    case OneWriter =>
      match ResolveTakeTarget(w.Port(p), taker, target)
      case Chosen(victim) => DemoteVictim(cfg, w, victim.client, p)
      case NoChoice(code) =>
        if target.Some? || !code.NoHolder? then Seg(w, Answered(code, ReadOnly), [])
        else TakeEmpty(cfg, w, taker, p)
  }

  function BeginTake(cfg: Config, w: World, taker: ClientId, p: PortName, target: Option<string>): Seg {
    if !w.SeatedAt(taker, p) then Seg(w, Answered(NotAttached, ReadOnly), [])
    else if p !in cfg.ports then Seg(w, Answered(PortMissing, ReadOnly), [])
    else if !Standing(cfg, w, taker, p).MayWrite? then
      Seg(w, Answered(RefusalCode(Standing(cfg, w, taker, p)), ReadOnly), [])
    else if Federated(cfg, p) then Seg(w, Wait(TakeAsking), [])
    else TakeLocal(cfg, w, taker, p, target)
  }

  // Promote the taker, or put the victim back: one segment.
  function PromoteOrRestore(cfg: Config, w: World, taker: ClientId, p: PortName, victim: ClientId): Seg {
    match StartPromotion(cfg, w, taker, p)
    case Promoted(world, calls) => Seg(world, Wait(TakePromoted(victim)), calls)
    case Refused(_, world, calls) =>
      Seg(Do(cfg, world, p, Promote(victim)), SeatRefusal(cfg, p), calls + [At(p, Promote(victim))])
    case MustAsk => Seg(Do(cfg, w, p, Promote(victim)), SeatRefusal(cfg, p), [At(p, Promote(victim))])
  }

  // The local record a federated take names as the one displaced.
  function NamedVictim(w: World, p: PortName, target: Option<string>): Option<ClientId> {
    if target.Some? && target.value != "" && Attached(w.Port(p), target.value) then target else None
  }

  function TakeGranted(victim: Option<ClientId>): Outcome { Done(Decided(Decision(Granted, ReadWrite, victim))) }

  // ------------------------------------------------------------ coroutines

  // From the start of a request to its first suspension, or to its answer.
  function Begin(cfg: Config, w: World, req: Request, now: real): Seg {
    match req
    case Connect(c, p, u) =>
      if c in w.seat then LeavePort(cfg, w, c, w.seat[c], ConnectClosing, ConnectLeft)
      else AttachSeg(cfg, w, c, p, u, now)
    case Disconnect(c, p) =>
      if !w.SeatedAt(c, p) then Seg(w, Done(Detached(false)), [])
      else LeavePort(cfg, w, c, p, DetachClosing, DetachAnnounce)
    case RequestWrite(c, p) =>
      (match StartPromotion(cfg, w, c, p)
       case Refused(code, world, calls) => Seg(world, Answered(code, ReadOnly), calls)
       case MustAsk => Seg(w, Wait(PromoteAsking), [])
       case Promoted(world, calls) => Seg(world, Wait(PromoteAnnounce), calls))
    case GiveUpWrite(c, p, notify) =>
      if !w.SeatedAt(c, p) then Seg(w, Answered(NotAttached, ReadWrite), [])
      else if !Did(cfg, w, p, Demote(c)) then Seg(w, Answered(DemoteFailed, ReadWrite), [At(p, Demote(c))])
      else
        Seg(Do(cfg, w, p, Demote(c)),
            Wait(if notify && Federated(cfg, p) then DemoteReleasing else DemoteAnnounce),
            [At(p, Demote(c))])
    case Take(c, p, target) => BeginTake(cfg, w, c, p, target)
  }

  // From one suspension of a request to the next, or to its answer.
  function Resume(cfg: Config, w: World, req: Request, phase: Phase, reply: Reply, now: real): Seg {
    var c, p := req.client, req.port;
    match phase
    case ConnectClosing => ForgetSeat(w, c, ConnectLeft, [])
    case ConnectLeft => AttachSeg(cfg, w, c, p, if req.Connect? then req.username else "", now)
    case AttachOpening(entitled, code) =>
      Seg(TakeSeat(w, c, p), Wait(if entitled.ReadWrite? then AttachAsking else AttachAnnounce(ReadOnly, code)), [])
    case AttachAsking =>
      var calls := if reply.GrantsWrite() then [At(p, Promote(c))] else [];
      if reply.GrantsWrite() && Did(cfg, w, p, Promote(c)) then
        Seg(Do(cfg, w, p, Promote(c)), Wait(AttachAnnounce(ReadWrite, AttachedCode)), calls)
      else Seg(w, Wait(AttachAnnounce(ReadOnly, CapacityFull)), calls)
    case AttachAnnounce(mode, code) =>
      Seg(w, if KindOf(code).Notice? then Done(Raised) else Answered(code, mode), [])
    case DetachClosing => ForgetSeat(w, c, DetachAnnounce, [])
    case DetachAnnounce => Seg(w, Done(Detached(true)), [])
    case PromoteAsking =>
      (match AnswerPromotion(cfg, w, c, p, reply)
       case Promoted(world, calls) => Seg(world, Wait(PromoteAnnounce), calls)
       case Refused(code, world, calls) => Seg(world, Answered(code, ReadOnly), calls))
    case PromoteAnnounce => Seg(w, Answered(Granted, ReadWrite), [])
    case DemoteReleasing => Seg(w, Wait(DemoteAnnounce), [])
    case DemoteAnnounce => Seg(w, Answered(Released, ReadOnly), [])
    case TakeDemoted(victim) => PromoteOrRestore(cfg, w, c, p, victim)
    case TakePromoted(victim) => Seg(w, Wait(TakeNotify(victim)), [])
    case TakeNotify(victim) => Seg(w, TakeGranted(Some(victim)), [])
    case TakeEmptyAnnounce => Seg(w, TakeGranted(None), [])
    case TakeAsking =>
      if !reply.GrantsWrite() then Seg(w, Answered(FederationDenied, ReadOnly), [])
      else
        (match StartPromotion(cfg, w, c, p)
         case Promoted(world, calls) => Seg(world, Wait(TakeMirrorAnnounce), calls)
         case MustAsk => Seg(w, Wait(TakeMirrorAsking), [])
         case Refused(_, world, calls) => Seg(world, Answered(PromoteFailed, ReadOnly), calls))
    case TakeMirrorAsking =>
      (match AnswerPromotion(cfg, w, c, p, reply)
       case Promoted(world, calls) => Seg(world, Wait(TakeMirrorAnnounce), calls)
       case Refused(_, world, calls) => Seg(world, Answered(PromoteFailed, ReadOnly), calls))
    case TakeMirrorAnnounce =>
      Seg(w, TakeGranted(NamedVictim(w, p, if req.Take? then req.target else None)), [])
  }
}
