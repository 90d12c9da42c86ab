/** Runs in which each session speaks for one client and has one request open:
    the seat map, the records, the delivery queues and the forwarding tasks
    agree, and only users whom the ladder lets drive a port hold its seat. */
module ProtocolAgreement {
  import opened Prelude
  import opened PortSeats
  import opened PortDelivery
  import opened AccessDecision
  import opened AccessLadder
  import opened Protocol
  import opened ProtocolCases
  import opened ProtocolSafety

  // Anyone may demote a client; everything else a client asks for itself, in
  // the one session that carries its name.
  predicate OwnSession(input: Input) {
    input.Start? ==> input.req.GiveUpWrite? || input.session == input.req.client
  }

  predicate SerialRun(run: seq<Input>) { forall i :: 0 <= i < |run| ==> OwnSession(run[i]) }

  predicate NamedClients(cfg: Config) { forall c :: c in cfg.clients ==> cfg.clients[c] != "" }

  // ------------------------------------------------------------- the invariant

  predicate Closes(phase: Phase) { phase.ConnectClosing? || phase.DetachClosing? }

  predicate Unseated(phase: Phase) { phase.ConnectLeft? || phase.AttachOpening? }

  function PendingOf(s: System, c: ClientId): Option<Pending> {
    if c in s.pending then Some(s.pending[c]) else None
  }

  // The port that lists the client.
  function Where(w: World, c: ClientId, pending: Option<Pending>): Option<PortName> {
    if pending.Some? && pending.value.phase.AttachOpening? then Some(pending.value.req.port)
    else if pending.Some? && Closes(pending.value.phase) then None
    else if c in w.seat then Some(w.seat[c])
    else None
  }

  ghost predicate SeatFits(cfg: Config, w: World, c: ClientId) {
    && (c in w.seat <==> c in w.tasks)
    && (c in w.seat ==> w.tasks[c] == w.seat[c] && w.seat[c] in cfg.ports)
  }

  ghost predicate Placed(cfg: Config, w: World, c: ClientId, pending: Option<Pending>) {
    && (forall p :: p in cfg.ports && p in w.ports ==> (Attached(w.ports[p], c) <==> Where(w, c, pending) == Some(p)))
    && SeatFits(cfg, w, c)
    && (pending.Some? ==>
          var phase := pending.value.phase;
          && (Unseated(phase) ==> c !in w.seat)
          && (Closes(phase) ==> c in w.seat && Federated(cfg, w.seat[c]))
          && (phase.AttachOpening? ==> Federated(cfg, pending.value.req.port)))
  }

  ghost predicate RecordFits(cfg: Config, p: PortName, c: ClientId, r: Option<Record>) {
    r.Some? ==>
      && c in cfg.clients
      && r.value.username == cfg.clients[c]
      && r.value.username in cfg.permissions
      && (r.value.mode.ReadWrite? ==> MayDrive(cfg, p, r.value.username))
  }

  ghost predicate PortFits(cfg: Config, p: PortName, ps: PortState) {
    QueuesFit(ps) && (forall c :: RecordFits(cfg, p, c, RecordOf(ps, c)))
  }

  ghost predicate Fit(cfg: Config, w: World) {
    PortsSound(cfg, w) && (forall p :: p in cfg.ports ==> PortFits(cfg, p, w.ports[p]))
  }

  predicate DrivesFor(cfg: Config, c: ClientId, p: PortName) {
    c in cfg.clients && MayDrive(cfg, p, cfg.clients[c])
  }

  // What a suspended request has already been cleared for.
  ghost predicate Cleared(cfg: Config, pending: Pending) {
    var c, p := pending.req.client, pending.req.port;
    && c in cfg.clients
    && (pending.req.Connect? ==> pending.req.username == cfg.clients[c])
    && (pending.req.GiveUpWrite? ==> pending.phase.DemoteReleasing? || pending.phase.DemoteAnnounce?)
    && (pending.phase.ConnectLeft? || pending.phase.ConnectClosing? ==> pending.req.Connect?)
    && (pending.phase.TakeDemoted? ==> pending.req.Take?)
    && match pending.phase
       case AttachOpening(entitled, _) => entitled.ReadWrite? ==> DrivesFor(cfg, c, p)
       case AttachAsking => DrivesFor(cfg, c, p)
       case PromoteAsking => DrivesFor(cfg, c, p)
       case TakeMirrorAsking => DrivesFor(cfg, c, p)
       case TakeDemoted(victim) => DrivesFor(cfg, victim, p) && !Federated(cfg, p)
       case _ => true
  }

  ghost predicate Agreed(cfg: Config, s: System) {
    && Fit(cfg, s.world)
    && (forall c :: Placed(cfg, s.world, c, PendingOf(s, c)))
    && (forall id :: id in s.pending ==>
          Cleared(cfg, s.pending[id]) && (s.pending[id].req.GiveUpWrite? || id == s.pending[id].req.client))
  }

  // ---------------------------------------------------------------- one call

  // A call whose seat, if it grants one, goes to a user the ladder lets drive.
  ghost predicate Rightful(cfg: Config, w: World, p: PortName, call: Call) {
    && (call.Add? ==>
          && call.client in cfg.clients && call.username == cfg.clients[call.client]
          && call.username in cfg.permissions
          && (call.mode.ReadWrite? ==> MayDrive(cfg, p, call.username)))
    && (call.Promote? && Attached(w.Port(p), call.client) ==> DrivesFor(cfg, call.client, p))
  }

  lemma RightfulCallFits(cfg: Config, p: PortName, w: World, call: Call, c: ClientId)
    requires p in cfg.ports && p in w.ports && UniqueIds(w.ports[p].records)
    requires RecordFits(cfg, p, c, RecordOf(w.ports[p], c)) && Rightful(cfg, w, p, call)
    ensures RecordFits(cfg, p, c, RecordOf(Apply(cfg.ports[p], w.ports[p], call), c))
  {
    CallMovesRecords(cfg.ports[p], w.ports[p], call, c);
  }

  lemma DoFits(cfg: Config, w: World, p: PortName, call: Call)
    requires Fit(cfg, w) && Rightful(cfg, w, p, call)
    ensures Fit(cfg, Do(cfg, w, p, call))
  {
    if p in cfg.ports {
      var ps := Apply(cfg.ports[p], w.ports[p], call);
      CallKeepsSound(cfg.ports[p], w.ports[p], call);
      CallKeepsQueuesFit(cfg.ports[p], w.ports[p], call);
      forall c ensures RecordFits(cfg, p, c, RecordOf(ps, c)) {
        RightfulCallFits(cfg, p, w, call, c);
      }
    }
  }

  // The same clients are attached to the same ports, but for `c`.
  ghost predicate SameBut(cfg: Config, w: World, w': World, c: ClientId) {
    && w'.ports.Keys == w.ports.Keys
    && (forall d, p :: d != c && p in w.ports && p in w'.ports ==>
          (Attached(w'.ports[p], d) <==> Attached(w.ports[p], d)))
    && (forall d :: d != c ==> (d in w'.seat <==> d in w.seat) && (d in w'.tasks <==> d in w.tasks))
    && (forall d :: d != c && d in w.seat ==> w'.seat[d] == w.seat[d])
    && (forall d :: d != c && d in w.tasks ==> w'.tasks[d] == w.tasks[d])
  }

  // The same clients are attached to the same ports, and seats did not move.
  ghost predicate SameSeats(cfg: Config, w: World, w': World) {
    && w'.ports.Keys == w.ports.Keys && w'.seat == w.seat && w'.tasks == w.tasks
    && (forall d, p :: p in w.ports && p in w'.ports ==> (Attached(w'.ports[p], d) <==> Attached(w.ports[p], d)))
  }

  lemma ModeCallKeepsListed(cfg: Config, w: World, p: PortName, call: Call, q: PortName, d: ClientId)
    requires PortsSound(cfg, w) && !call.Add? && !call.Remove? && q in w.ports
    ensures Attached(Do(cfg, w, p, call).ports[q], d) <==> Attached(w.ports[q], d)
  {
    if q == p {
      CallMovesRecords(cfg.ports[p], w.ports[p], call, d);
    }
  }

  lemma ModeCallMovesNobody(cfg: Config, w: World, p: PortName, call: Call)
    requires PortsSound(cfg, w) && !call.Add? && !call.Remove?
    ensures SameSeats(cfg, w, Do(cfg, w, p, call))
  {
    forall d, q | q in w.ports
      ensures Attached(Do(cfg, w, p, call).ports[q], d) <==> Attached(w.ports[q], d)
    {
      ModeCallKeepsListed(cfg, w, p, call, q, d);
    }
  }

  lemma SamePlace(cfg: Config, w: World, w': World, c: ClientId, pending: Option<Pending>)
    requires SameSeats(cfg, w, w') && Placed(cfg, w, c, pending)
    ensures Placed(cfg, w', c, pending)
  {
  }

  lemma OthersKeepPlace(cfg: Config, w: World, w': World, c: ClientId, d: ClientId, pending: Option<Pending>)
    requires SameBut(cfg, w, w', c) && d != c && Placed(cfg, w, d, pending)
    ensures Placed(cfg, w', d, pending)
  {
    forall p | p in cfg.ports && p in w'.ports
      ensures Attached(w'.ports[p], d) <==> Where(w', d, pending) == Some(p)
    {
      assert Attached(w'.ports[p], d) <==> Attached(w.ports[p], d);
    }
  }

  lemma MovesOnlyNamed(cfg: Config, w: World, p: PortName, call: Call, c: ClientId)
    requires PortsSound(cfg, w) && (call.Add? || call.Remove?) && call.client == c
    ensures SameBut(cfg, w, Do(cfg, w, p, call), c)
    ensures forall q :: q in w.ports && q != p ==> Do(cfg, w, p, call).ports[q] == w.ports[q]
    ensures Did(cfg, w, p, call) ==> (Attached(Do(cfg, w, p, call).ports[p], c) <==> call.Add?)
  {
    if p in w.ports {
      CallMovesRecords(cfg.ports[p], w.ports[p], call, c);
      OthersStayAttached(cfg, w, p, call, c);
    }
  }

  lemma OthersStayAttached(cfg: Config, w: World, p: PortName, call: Call, c: ClientId)
    requires PortsSound(cfg, w) && (call.Add? || call.Remove?) && call.client == c && p in w.ports
    ensures forall d, q :: d != c && q in w.ports ==>
      (Attached(Do(cfg, w, p, call).ports[q], d) <==> Attached(w.ports[q], d))
  {
    forall d | d != c ensures Attached(Do(cfg, w, p, call).ports[p], d) <==> Attached(w.ports[p], d) {
      CallMovesRecords(cfg.ports[p], w.ports[p], call, d);
    }
  }

  // -------------------------------------------------------------- one segment

  // What a segment of a client's own request leaves behind.
  ghost predicate SegKeeps(cfg: Config, w: World, req: Request, seg: Seg) {
    && Fit(cfg, seg.world)
    && SameBut(cfg, w, seg.world, req.client)
    && (seg.outcome.Done? ==> Placed(cfg, seg.world, req.client, None))
    && (seg.outcome.Wait? ==>
          var pending := Pending(req, seg.outcome.phase);
          Placed(cfg, seg.world, req.client, Some(pending)) && Cleared(cfg, pending))
  }

  lemma SamePortsFit(cfg: Config, w: World, w': World)
    requires Fit(cfg, w) && w'.ports == w.ports
    ensures Fit(cfg, w')
  {
  }

  // Attached nowhere and seated nowhere.
  lemma GoneIsPlaced(cfg: Config, w: World, c: ClientId, pending: Option<Pending>)
    requires forall p :: p in cfg.ports && p in w.ports ==> !Attached(w.ports[p], c)
    requires c !in w.seat && c !in w.tasks
    requires pending.Some? ==> !Closes(pending.value.phase) && !pending.value.phase.AttachOpening?
    ensures Placed(cfg, w, c, pending)
  {
  }

  // Attached to one port, which the seat or the open stream names.
  lemma AttachedIsPlaced(cfg: Config, w: World, c: ClientId, p: PortName, pending: Pending)
    requires p in cfg.ports && p in w.ports && Attached(w.ports[p], c)
    requires forall q :: q in cfg.ports && q in w.ports && q != p ==> !Attached(w.ports[q], c)
    requires SeatFits(cfg, w, c) && !Closes(pending.phase) && !pending.phase.ConnectLeft?
    requires if pending.phase.AttachOpening? then c !in w.seat && pending.req.port == p && Federated(cfg, p)
             else w.SeatedAt(c, p)
    ensures Placed(cfg, w, c, Some(pending))
  {
  }

  // The record is gone and the stream of the port it was on is closing.
  lemma ClosingIsPlaced(cfg: Config, w: World, c: ClientId, pending: Pending)
    requires forall p :: p in cfg.ports && p in w.ports ==> !Attached(w.ports[p], c)
    requires SeatFits(cfg, w, c) && c in w.seat && Federated(cfg, w.seat[c]) && Closes(pending.phase)
    ensures Placed(cfg, w, c, Some(pending))
  {
  }

  lemma SeatedIsListedOnce(cfg: Config, w: World, c: ClientId, p: PortName)
    requires PortsSound(cfg, w) && Placed(cfg, w, c, None) && w.SeatedAt(c, p)
    ensures p in cfg.ports && p in w.ports && Attached(w.ports[p], c)
    ensures forall q :: q in cfg.ports && q in w.ports && q != p ==> !Attached(w.ports[q], c)
  {
    assert Where(w, c, None) == Some(p);
  }

  lemma RemovedEverywhere(cfg: Config, w: World, c: ClientId, p: PortName)
    requires Fit(cfg, w) && Placed(cfg, w, c, None) && w.SeatedAt(c, p)
    ensures p in cfg.ports && Did(cfg, w, p, Remove(c))
    ensures forall q :: q in cfg.ports && q in w.ports ==> !Attached(Do(cfg, w, p, Remove(c)).ports[q], c)
    ensures Fit(cfg, Do(cfg, w, p, Remove(c)))
    ensures SameBut(cfg, w, Do(cfg, w, p, Remove(c)), c)
    ensures Do(cfg, w, p, Remove(c)).seat == w.seat && Do(cfg, w, p, Remove(c)).tasks == w.tasks
  {
    SeatedIsListedOnce(cfg, w, c, p);
    DoFits(cfg, w, p, Remove(c));
    MovesOnlyNamed(cfg, w, p, Remove(c), c);
  }

  lemma ForgetKeeps(cfg: Config, w: World, left: World, req: Request, next: Phase, calls: seq<PortCall>)
    requires Fit(cfg, left) && SameBut(cfg, w, left, req.client)
    requires forall p :: p in cfg.ports && p in left.ports ==> !Attached(left.ports[p], req.client)
    requires req.client in left.seat && Cleared(cfg, Pending(req, next)) && (next.ConnectLeft? || next.DetachAnnounce?)
    ensures SegKeeps(cfg, w, req, ForgetSeat(left, req.client, next, calls))
  {
    var seg := ForgetSeat(left, req.client, next, calls);
    SamePortsFit(cfg, left, seg.world);
    GoneIsPlaced(cfg, seg.world, req.client, Some(Pending(req, next)));
  }

  lemma LeaveKeeps(cfg: Config, w: World, req: Request, p: PortName, closing: Phase, next: Phase)
    requires Fit(cfg, w) && Placed(cfg, w, req.client, None) && w.SeatedAt(req.client, p)
    requires Cleared(cfg, Pending(req, closing)) && Cleared(cfg, Pending(req, next))
    requires Closes(closing) && (next.ConnectLeft? || next.DetachAnnounce?)
    ensures SegKeeps(cfg, w, req, LeavePort(cfg, w, req.client, p, closing, next))
  {
    var c := req.client;
    RemovedEverywhere(cfg, w, c, p);
    var left := Do(cfg, w, p, Remove(c));
    if Federated(cfg, p) {
      ClosingIsPlaced(cfg, left, c, Pending(req, closing));
    } else {
      ForgetKeeps(cfg, w, left, req, next, [At(p, Remove(c))]);
    }
  }

  lemma AddedOnly(cfg: Config, w: World, p: PortName, call: Call)
    requires Fit(cfg, w) && call.Add? && Placed(cfg, w, call.client, None) && call.client !in w.seat
    requires Rightful(cfg, w, p, call) && Did(cfg, w, p, call)
    ensures Fit(cfg, Do(cfg, w, p, call)) && SameBut(cfg, w, Do(cfg, w, p, call), call.client)
    ensures Do(cfg, w, p, call).ports.Keys == w.ports.Keys && Attached(Do(cfg, w, p, call).ports[p], call.client)
    ensures forall q :: q in cfg.ports && q in w.ports && q != p ==>
      !Attached(Do(cfg, w, p, call).ports[q], call.client)
    ensures Do(cfg, w, p, call).seat == w.seat && Do(cfg, w, p, call).tasks == w.tasks
  {
    DoFits(cfg, w, p, call);
    MovesOnlyNamed(cfg, w, p, call, call.client);
  }

  lemma TakeSeatMovesOnlyNamed(cfg: Config, w: World, added: World, c: ClientId, p: PortName)
    requires SameBut(cfg, w, added, c)
    ensures SameBut(cfg, w, TakeSeat(added, c, p), c)
  {
  }

  lemma TakeSeatKeeps(cfg: Config, w: World, added: World, req: Request, next: Phase, calls: seq<PortCall>)
    requires var c, p := req.client, req.port;
      && Fit(cfg, added) && SameBut(cfg, w, added, c)
      && p in cfg.ports && p in added.ports && Attached(added.ports[p], c)
      && (forall q :: q in cfg.ports && q in added.ports && q != p ==> !Attached(added.ports[q], c))
    requires !Closes(next) && !Unseated(next) && Cleared(cfg, Pending(req, next))
    ensures SegKeeps(cfg, w, req, Seg(TakeSeat(added, req.client, req.port), Wait(next), calls))
  {
    var c, p := req.client, req.port;
    SamePortsFit(cfg, added, TakeSeat(added, c, p));
    TakeSeatMovesOnlyNamed(cfg, w, added, c, p);
    AttachedIsPlaced(cfg, TakeSeat(added, c, p), c, p, Pending(req, next));
  }

  lemma AdmitKeeps(cfg: Config, w: World, added: World, req: Request, entitled: Mode, mode: Mode, code: Code,
                   calls: seq<PortCall>)
    requires var c, p := req.client, req.port;
      && Fit(cfg, added) && SameBut(cfg, w, added, c)
      && p in cfg.ports && p in added.ports && Attached(added.ports[p], c)
      && (forall q :: q in cfg.ports && q in added.ports && q != p ==> !Attached(added.ports[q], c))
      && c !in added.seat && c !in added.tasks
    requires Cleared(cfg, Pending(req, AttachOpening(entitled, code))) && req.Connect?
    ensures SegKeeps(cfg, w, req,
                     Admit(added, req.client, req.port, Federated(cfg, req.port), entitled, mode, code, calls))
  {
    if Federated(cfg, req.port) {
      AttachedIsPlaced(cfg, added, req.client, req.port, Pending(req, AttachOpening(entitled, code)));
    } else {
      TakeSeatKeeps(cfg, w, added, req, AttachAnnounce(mode, code), calls);
    }
  }

  lemma AttachKeeps(cfg: Config, w: World, req: Request, now: real)
    requires Fit(cfg, w) && req.Connect? && req.client in cfg.clients && req.username == cfg.clients[req.client]
    requires Placed(cfg, w, req.client, None) && req.client !in w.seat
    ensures SegKeeps(cfg, w, req, AttachSeg(cfg, w, req.client, req.port, req.username, now))
  {
    var c, p, u := req.client, req.port, req.username;
    if u in cfg.permissions {
      var (code, entitled) := ResolveAccessMode(cfg, cfg.Port(p), w.Port(p), cfg.permissions[u], u);
      var mode := if Federated(cfg, p) then ReadOnly else entitled;
      var first, second := Add(c, u, mode, now), Add(c, u, ReadOnly, now);
      if Ok(code) {
        if Did(cfg, w, p, first) {
          AddedOnly(cfg, w, p, first);
          AdmitKeeps(cfg, w, Do(cfg, w, p, first), req, entitled, mode, code, [At(p, first)]);
        } else if mode.ReadWrite? && Did(cfg, w, p, second) {
          AddedOnly(cfg, w, p, second);
          AdmitKeeps(cfg, w, Do(cfg, w, p, second), req, entitled, ReadOnly, CapacityFull,
                     [At(p, first), At(p, second)]);
        }
      }
    }
  }

  // An attached client that passes the ladder is a user who may drive.
  lemma StandingIsRightful(cfg: Config, w: World, c: ClientId, p: PortName)
    requires Fit(cfg, w) && NamedClients(cfg) && p in cfg.ports
    requires Attached(w.ports[p], c) && Standing(cfg, w, c, p).MayWrite?
    ensures DrivesFor(cfg, c, p)
  {
    assert RecordFits(cfg, p, c, RecordOf(w.ports[p], c));
  }

  lemma ModeCallKeeps(cfg: Config, w: World, p: PortName, call: Call)
    requires Fit(cfg, w) && !call.Add? && !call.Remove?
    requires call.Promote? && Attached(w.Port(p), call.client) ==> DrivesFor(cfg, call.client, p)
    ensures Fit(cfg, Do(cfg, w, p, call)) && SameSeats(cfg, w, Do(cfg, w, p, call))
  {
    DoFits(cfg, w, p, call);
    ModeCallMovesNobody(cfg, w, p, call);
  }

  lemma PromotionKeeps(cfg: Config, w: World, c: ClientId, p: PortName)
    requires Fit(cfg, w) && NamedClients(cfg)
    ensures var r := StartPromotion(cfg, w, c, p); !r.MustAsk? ==> Fit(cfg, r.world) && SameSeats(cfg, w, r.world)
  {
    var r := StartPromotion(cfg, w, c, p);
    if r.Promoted? {
      StandingIsRightful(cfg, w, c, p);
      ModeCallKeeps(cfg, w, p, Promote(c));
    } else if r.Refused? {
      PromotionExplained(cfg, w, c, p);
    }
  }

  lemma AnswerKeeps(cfg: Config, w: World, c: ClientId, p: PortName, reply: Reply)
    requires Fit(cfg, w) && DrivesFor(cfg, c, p)
    ensures Fit(cfg, AnswerPromotion(cfg, w, c, p, reply).world)
    ensures SameSeats(cfg, w, AnswerPromotion(cfg, w, c, p, reply).world)
  {
    var once := Do(cfg, w, p, Promote(c));
    var twice := Do(cfg, once, p, Promote(c));
    AnswerWorlds(cfg, w, c, p, reply);
    ModeCallKeeps(cfg, w, p, Promote(c));
    ModeCallKeeps(cfg, once, p, Promote(c));
    SameSeatsTwice(cfg, w, once, twice);
  }

  lemma SameSeatsTwice(cfg: Config, w: World, once: World, twice: World)
    requires SameSeats(cfg, w, once) && SameSeats(cfg, once, twice)
    ensures SameSeats(cfg, w, twice)
  {
    forall d, p | p in w.ports && p in twice.ports ensures Attached(twice.ports[p], d) <==> Attached(w.ports[p], d) {
      assert Attached(once.ports[p], d) <==> Attached(w.ports[p], d);
    }
  }

  // A segment that moves nobody keeps its client placed under any quiet phase.
  lemma StillSegKeeps(cfg: Config, w: World, req: Request, seg: Seg)
    requires Fit(cfg, seg.world) && SameSeats(cfg, w, seg.world) && Placed(cfg, w, req.client, None)
    requires seg.outcome.Wait? ==>
      && !Closes(seg.outcome.phase) && !Unseated(seg.outcome.phase)
      && Cleared(cfg, Pending(req, seg.outcome.phase))
    ensures SegKeeps(cfg, w, req, seg)
  {
  }

  lemma VictimMayDrive(cfg: Config, w: World, p: PortName, victim: Record)
    requires Fit(cfg, w) && p in cfg.ports && victim in w.ports[p].records && victim.mode.ReadWrite?
    ensures DrivesFor(cfg, victim.client, p)
  {
    var rs := w.ports[p].records;
    var i :| 0 <= i < |rs| && rs[i] == victim;
    IndexIs(rs, i);
    assert RecordFits(cfg, p, victim.client, RecordOf(w.ports[p], victim.client));
  }

  lemma VictimDemotedKeeps(cfg: Config, w: World, req: Request, victim: ClientId)
    requires Fit(cfg, w) && req.Take? && req.client in cfg.clients
    requires Placed(cfg, w, req.client, None) && DrivesFor(cfg, victim, req.port) && !Federated(cfg, req.port)
    ensures SegKeeps(cfg, w, req, DemoteVictim(cfg, w, victim, req.port))
  {
    DemoteVictimCases(cfg, w, victim, req.port);
    ModeCallKeeps(cfg, w, req.port, Demote(victim));
    DemotedSegKeeps(cfg, w, req, victim, DemoteVictim(cfg, w, victim, req.port));
  }

  lemma DemotedSegKeeps(cfg: Config, w: World, req: Request, victim: ClientId, seg: Seg)
    requires Fit(cfg, seg.world) && SameSeats(cfg, w, seg.world) && req.Take? && req.client in cfg.clients
    requires Placed(cfg, w, req.client, None) && DrivesFor(cfg, victim, req.port) && !Federated(cfg, req.port)
    requires seg.outcome.Wait? ==> seg.outcome.phase == TakeDemoted(victim)
    ensures SegKeeps(cfg, w, req, seg)
  {
    StillSegKeeps(cfg, w, req, seg);
  }

  // A request that only has its result to announce needs no clearance.
  lemma AnnouncementIsCleared(cfg: Config, req: Request, phase: Phase)
    requires req.client in cfg.clients && !req.GiveUpWrite? && Announces(phase)
    requires req.Connect? ==> req.username == cfg.clients[req.client]
    ensures !Closes(phase) && !Unseated(phase) && Cleared(cfg, Pending(req, phase))
  {
  }

  lemma EmptyTakeKeeps(cfg: Config, w: World, req: Request)
    requires Fit(cfg, w) && NamedClients(cfg) && req.Take? && req.client in cfg.clients
    requires Placed(cfg, w, req.client, None)
    ensures SegKeeps(cfg, w, req, TakeEmpty(cfg, w, req.client, req.port))
  {
    TakeEmptyCases(cfg, w, req.client, req.port);
    PromotionKeeps(cfg, w, req.client, req.port);
    AnnouncementIsCleared(cfg, req, TakeEmptyAnnounce);
    StillSegKeeps(cfg, w, req, TakeEmpty(cfg, w, req.client, req.port));
  }

  lemma LocalTakeKeeps(cfg: Config, w: World, req: Request)
    requires Fit(cfg, w) && NamedClients(cfg) && req.Take? && req.client in cfg.clients
    requires Placed(cfg, w, req.client, None) && req.port in cfg.ports && !Federated(cfg, req.port)
    ensures SegKeeps(cfg, w, req, TakeLocal(cfg, w, req.client, req.port, req.target))
  {
    var seg := TakeLocal(cfg, w, req.client, req.port, req.target);
    var choice := ResolveTakeTarget(w.Port(req.port), req.client, req.target);
    TakeLocalCases(cfg, w, req.client, req.port, req.target);
    if seg.outcome.Done? && seg.world == w {
      StillSegKeeps(cfg, w, req, seg);
    } else if choice.Chosen? {
      VictimMayDrive(cfg, w, req.port, choice.victim);
      VictimDemotedKeeps(cfg, w, req, choice.victim.client);
    } else {
      EmptyTakeKeeps(cfg, w, req);
    }
  }

  lemma TakeKeeps(cfg: Config, w: World, req: Request)
    requires Fit(cfg, w) && NamedClients(cfg) && req.Take? && req.client in cfg.clients
    requires Placed(cfg, w, req.client, None)
    ensures SegKeeps(cfg, w, req, BeginTake(cfg, w, req.client, req.port, req.target))
  {
    var seg := BeginTake(cfg, w, req.client, req.port, req.target);
    BeginTakeCases(cfg, w, req.client, req.port, req.target);
    if RefusedAtOnce(w, seg) || Federated(cfg, req.port) {
      TakeAskingIsCleared(cfg, req);
      StillSegKeeps(cfg, w, req, seg);
    } else {
      LocalTakeKeeps(cfg, w, req);
    }
  }

  lemma TakeAskingIsCleared(cfg: Config, req: Request)
    requires req.Take? && req.client in cfg.clients
    ensures Cleared(cfg, Pending(req, TakeAsking))
  {
  }

  // ---------------------------------------------------------- begin and resume

  lemma RequestWriteKeeps(cfg: Config, w: World, req: Request, now: real)
    requires Fit(cfg, w) && NamedClients(cfg) && req.RequestWrite? && req.client in cfg.clients
    requires Placed(cfg, w, req.client, None)
    ensures SegKeeps(cfg, w, req, Begin(cfg, w, req, now))
  {
    RequestCases(cfg, w, req, now);
    PromotionCases(cfg, w, req.client, req.port);
    PromotionKeeps(cfg, w, req.client, req.port);
    AnnouncementIsCleared(cfg, req, PromoteAnnounce);
    if StartPromotion(cfg, w, req.client, req.port).MustAsk? {
      StandingIsRightful(cfg, w, req.client, req.port);
      AskingIsCleared(cfg, req, PromoteAsking);
    }
    StillSegKeeps(cfg, w, req, Begin(cfg, w, req, now));
  }

  lemma AskingIsCleared(cfg: Config, req: Request, phase: Phase)
    requires req.client in cfg.clients && !req.GiveUpWrite? && DrivesFor(cfg, req.client, req.port)
    requires req.Connect? ==> req.username == cfg.clients[req.client]
    requires phase.PromoteAsking? || phase.TakeMirrorAsking? || phase.AttachAsking?
    ensures !Closes(phase) && !Unseated(phase) && Cleared(cfg, Pending(req, phase))
  {
  }

  lemma BeginKeeps(cfg: Config, w: World, req: Request, now: real)
    requires Fit(cfg, w) && NamedClients(cfg) && req.client in cfg.clients && !req.GiveUpWrite?
    requires req.Connect? ==> req.username == cfg.clients[req.client]
    requires Placed(cfg, w, req.client, None)
    ensures SegKeeps(cfg, w, req, Begin(cfg, w, req, now))
  {
    var c := req.client;
    match req
    case Connect(_, p, u) =>
      if c in w.seat {
        LeaveKeeps(cfg, w, req, w.seat[c], ConnectClosing, ConnectLeft);
      } else {
        AttachKeeps(cfg, w, req, now);
      }
    case Disconnect(_, p) =>
      if w.SeatedAt(c, p) {
        LeaveKeeps(cfg, w, req, p, DetachClosing, DetachAnnounce);
      }
    case RequestWrite(_, _) => RequestWriteKeeps(cfg, w, req, now);
    case Take(_, p, _) => TakeKeeps(cfg, w, req);
    case GiveUpWrite(_, _, _) =>
  }

  lemma RestoreKeeps(cfg: Config, w: World, req: Request, victim: ClientId)
    requires Fit(cfg, w) && NamedClients(cfg) && Placed(cfg, w, req.client, None)
    requires req.Take? && req.client in cfg.clients && DrivesFor(cfg, victim, req.port) && !Federated(cfg, req.port)
    ensures SegKeeps(cfg, w, req, PromoteOrRestore(cfg, w, req.client, req.port, victim))
  {
    RestoreWorlds(cfg, w, req.client, req.port, victim);
    PromotionKeeps(cfg, w, req.client, req.port);
    ModeCallKeeps(cfg, w, req.port, Promote(victim));
    AnnouncementIsCleared(cfg, req, TakePromoted(victim));
    StillSegKeeps(cfg, w, req, PromoteOrRestore(cfg, w, req.client, req.port, victim));
  }

  lemma OpenedKeeps(cfg: Config, w: World, req: Request, entitled: Mode, code: Code, reply: Reply, now: real)
    requires Fit(cfg, w) && Placed(cfg, w, req.client, Some(Pending(req, AttachOpening(entitled, code))))
    requires Cleared(cfg, Pending(req, AttachOpening(entitled, code))) && !req.GiveUpWrite?
    ensures SegKeeps(cfg, w, req, Resume(cfg, w, req, AttachOpening(entitled, code), reply, now))
  {
    OpenedCases(cfg, w, req, entitled, code, reply, now);
    assert Attached(w.ports[req.port], req.client);
    if entitled.ReadWrite? {
      AskingIsCleared(cfg, req, AttachAsking);
    } else {
      AnnouncementIsCleared(cfg, req, AttachAnnounce(ReadOnly, code));
    }
    TakeSeatKeeps(cfg, w, w, req, if entitled.ReadWrite? then AttachAsking else AttachAnnounce(ReadOnly, code), []);
  }

  // The facts shared by the requests that wait without moving their client.
  ghost predicate Resting(cfg: Config, w: World, req: Request, phase: Phase) {
    && Fit(cfg, w) && NamedClients(cfg) && !req.GiveUpWrite?
    && Cleared(cfg, Pending(req, phase)) && Placed(cfg, w, req.client, None)
  }

  // A segment that moves nobody and leaves at most its result to announce.
  lemma AnnouncedSegKeeps(cfg: Config, w: World, req: Request, phase: Phase, seg: Seg)
    requires Resting(cfg, w, req, phase) && Fit(cfg, seg.world) && SameSeats(cfg, w, seg.world)
    requires seg.outcome.Wait? ==> Announces(seg.outcome.phase)
    ensures SegKeeps(cfg, w, req, seg)
  {
    if seg.outcome.Wait? {
      AnnouncementIsCleared(cfg, req, seg.outcome.phase);
    }
    StillSegKeeps(cfg, w, req, seg);
  }

  lemma AttachAskedKeeps(cfg: Config, w: World, req: Request, reply: Reply, now: real)
    requires Resting(cfg, w, req, AttachAsking)
    ensures SegKeeps(cfg, w, req, Resume(cfg, w, req, AttachAsking, reply, now))
  {
    var seg := Resume(cfg, w, req, AttachAsking, reply, now);
    AttachAskedCases(cfg, w, req, reply, now);
    ModeCallKeeps(cfg, w, req.port, Promote(req.client));
    AnnouncedSegKeeps(cfg, w, req, AttachAsking, seg);
  }

  lemma AskerMayDrive(cfg: Config, req: Request, phase: Phase)
    requires Cleared(cfg, Pending(req, phase)) && (phase.PromoteAsking? || phase.TakeMirrorAsking?)
    ensures DrivesFor(cfg, req.client, req.port)
  {
  }

  lemma AnsweredKeeps(cfg: Config, w: World, req: Request, phase: Phase, reply: Reply, now: real)
    requires Resting(cfg, w, req, phase) && (phase.PromoteAsking? || phase.TakeMirrorAsking?)
    ensures SegKeeps(cfg, w, req, Resume(cfg, w, req, phase, reply, now))
  {
    AnsweredCases(cfg, w, req, phase, reply, now);
    AskerMayDrive(cfg, req, phase);
    AnswerKeeps(cfg, w, req.client, req.port, reply);
    AnnouncedSegKeeps(cfg, w, req, phase, Resume(cfg, w, req, phase, reply, now));
  }

  lemma TakeAskedKeeps(cfg: Config, w: World, req: Request, reply: Reply, now: real)
    requires Resting(cfg, w, req, TakeAsking)
    ensures SegKeeps(cfg, w, req, Resume(cfg, w, req, TakeAsking, reply, now))
  {
    TakeAskedCases(cfg, w, req, reply, now);
    PromotionCases(cfg, w, req.client, req.port);
    PromotionKeeps(cfg, w, req.client, req.port);
    AnnouncementIsCleared(cfg, req, TakeMirrorAnnounce);
    if StartPromotion(cfg, w, req.client, req.port).MustAsk? {
      StandingIsRightful(cfg, w, req.client, req.port);
      AskingIsCleared(cfg, req, TakeMirrorAsking);
    }
    StillSegKeeps(cfg, w, req, Resume(cfg, w, req, TakeAsking, reply, now));
  }

  lemma AnnouncingKeeps(cfg: Config, w: World, req: Request, phase: Phase, reply: Reply, now: real)
    requires Resting(cfg, w, req, phase) && Announces(phase)
    ensures SegKeeps(cfg, w, req, Resume(cfg, w, req, phase, reply, now))
  {
    var seg := Resume(cfg, w, req, phase, reply, now);
    AnnouncingCases(cfg, w, req, phase, reply, now);
    AnnouncedSegKeeps(cfg, w, req, phase, seg);
  }

  lemma RestingKeeps(cfg: Config, w: World, req: Request, phase: Phase, reply: Reply, now: real)
    requires Resting(cfg, w, req, phase)
    requires !Closes(phase) && !Unseated(phase) && !phase.TakeDemoted?
    ensures SegKeeps(cfg, w, req, Resume(cfg, w, req, phase, reply, now))
  {
    if phase.AttachAsking? {
      AttachAskedKeeps(cfg, w, req, reply, now);
    } else if phase.PromoteAsking? || phase.TakeMirrorAsking? {
      AnsweredKeeps(cfg, w, req, phase, reply, now);
    } else if phase.TakeAsking? {
      TakeAskedKeeps(cfg, w, req, reply, now);
    } else {
      AnnouncingKeeps(cfg, w, req, phase, reply, now);
    }
  }

  lemma ResumeKeeps(cfg: Config, w: World, req: Request, phase: Phase, reply: Reply, now: real)
    requires Fit(cfg, w) && NamedClients(cfg) && !req.GiveUpWrite?
    requires Cleared(cfg, Pending(req, phase)) && Placed(cfg, w, req.client, Some(Pending(req, phase)))
    ensures SegKeeps(cfg, w, req, Resume(cfg, w, req, phase, reply, now))
  {
    ClosingCases(cfg, w, req, reply, now);
    if phase.ConnectClosing? {
      ForgetKeeps(cfg, w, w, req, ConnectLeft, []);
    } else if phase.DetachClosing? {
      ForgetKeeps(cfg, w, w, req, DetachAnnounce, []);
    } else if phase.AttachOpening? {
      OpenedKeeps(cfg, w, req, phase.entitled, phase.code, reply, now);
    } else if phase.ConnectLeft? {
      LeftCases(cfg, w, req, reply, now);
      AttachKeeps(cfg, w, req, now);
    } else {
      QuietPendingsPlaceAlike(cfg, w, req.client, Some(Pending(req, phase)), None);
      if phase.TakeDemoted? {
        DemotedCases(cfg, w, req, phase.victim, reply, now);
        RestoreKeeps(cfg, w, req, phase.victim);
      } else {
        RestingKeeps(cfg, w, req, phase, reply, now);
      }
    }
  }

  // ------------------------------------------------------------------- steps

  lemma OwnStepAgrees(cfg: Config, s: System, session: SessionId, req: Request, seg: Seg)
    requires Agreed(cfg, s) && session == req.client && SegKeeps(cfg, s.world, req, seg) && !req.GiveUpWrite?
    ensures Agreed(cfg, Settle(s, session, req, seg))
  {
    var s' := Settle(s, session, req, seg);
    forall c ensures Placed(cfg, s'.world, c, PendingOf(s', c)) {
      if c != session {
        assert PendingOf(s', c) == PendingOf(s, c);
        OthersKeepPlace(cfg, s.world, s'.world, session, c, PendingOf(s, c));
      }
    }
  }

  predicate QuietPending(pending: Option<Pending>) {
    pending.Some? ==> !Closes(pending.value.phase) && !Unseated(pending.value.phase)
  }

  lemma QuietPendingsPlaceAlike(cfg: Config, w: World, c: ClientId, a: Option<Pending>, b: Option<Pending>)
    requires Placed(cfg, w, c, a) && QuietPending(a) && QuietPending(b)
    ensures Placed(cfg, w, c, b)
  {
    assert Where(w, c, a) == Where(w, c, b);
  }

  // A change of modes or queues, with nobody moved.
  lemma StillWorldAgrees(cfg: Config, s: System, w: World)
    requires Agreed(cfg, s) && Fit(cfg, w) && SameSeats(cfg, s.world, w)
    ensures Agreed(cfg, s.(world := w))
  {
    var s' := s.(world := w);
    assert s'.pending == s.pending;
    forall c ensures Placed(cfg, s'.world, c, PendingOf(s', c)) {
      assert PendingOf(s', c) == PendingOf(s, c);
      assert Placed(cfg, s.world, c, PendingOf(s, c));
      SamePlace(cfg, s.world, w, c, PendingOf(s, c));
    }
    assert forall id :: id in s'.pending ==> Cleared(cfg, s'.pending[id]);
  }

  // A demotion asked for in any session moves nobody.
  lemma DemotionStepAgrees(cfg: Config, s: System, session: SessionId, req: Request, seg: Seg)
    requires Agreed(cfg, s) && req.GiveUpWrite? && req.client in cfg.clients
    requires session in s.pending ==> s.pending[session].req.GiveUpWrite?
    requires Fit(cfg, seg.world) && SameSeats(cfg, s.world, seg.world)
    requires seg.outcome.Wait? ==> seg.outcome.phase.DemoteReleasing? || seg.outcome.phase.DemoteAnnounce?
    ensures Agreed(cfg, Settle(s, session, req, seg))
  {
    var s', still := Settle(s, session, req, seg), s.(world := seg.world);
    StillWorldAgrees(cfg, s, seg.world);
    forall c ensures Placed(cfg, s'.world, c, PendingOf(s', c)) {
      assert Placed(cfg, still.world, c, PendingOf(still, c));
      if c == session {
        assert session in s.pending ==> Cleared(cfg, s.pending[session]);
        QuietPendingsPlaceAlike(cfg, seg.world, c, PendingOf(still, c), PendingOf(s', c));
      } else {
        assert PendingOf(s', c) == PendingOf(still, c);
      }
    }
  }

  lemma IoAgrees(cfg: Config, s: System, p: PortName, call: Call)
    requires Agreed(cfg, s) && IsIo(call)
    ensures Agreed(cfg, s.(world := Do(cfg, s.world, p, call)))
  {
    ModeCallKeeps(cfg, s.world, p, call);
    StillWorldAgrees(cfg, s, Do(cfg, s.world, p, call));
  }

  lemma BeginDemotion(cfg: Config, w: World, req: Request, now: real)
    requires Fit(cfg, w) && req.GiveUpWrite?
    ensures var seg := Begin(cfg, w, req, now);
      && Fit(cfg, seg.world) && SameSeats(cfg, w, seg.world)
      && (seg.outcome.Wait? ==> seg.outcome.phase.DemoteReleasing? || seg.outcome.phase.DemoteAnnounce?)
  {
    GiveUpCases(cfg, w, req, now);
    ModeCallKeeps(cfg, w, req.port, Demote(req.client));
  }

  lemma StepAgrees(cfg: Config, s: System, input: Input)
    requires NamedClients(cfg) && Agreed(cfg, s) && Enabled(cfg, s, input) && OwnSession(input)
    ensures Agreed(cfg, Step(cfg, s, input))
  {
    match input
    case Start(session, req, now) =>
      if req.GiveUpWrite? {
        BeginDemotion(cfg, s.world, req, now);
        DemotionStepAgrees(cfg, s, session, req, StepSeg(cfg, s, input));
      } else {
        assert Placed(cfg, s.world, session, PendingOf(s, session));
        BeginKeeps(cfg, s.world, req, now);
        OwnStepAgrees(cfg, s, session, req, StepSeg(cfg, s, input));
      }
    case Continue(session, reply, now) =>
      var pending := s.pending[session];
      if pending.req.GiveUpWrite? {
        DemotionStepAgrees(cfg, s, session, pending.req, StepSeg(cfg, s, input));
      } else {
        assert Placed(cfg, s.world, session, PendingOf(s, session));
        ResumeKeeps(cfg, s.world, pending.req, pending.phase, reply, now);
        OwnStepAgrees(cfg, s, session, pending.req, StepSeg(cfg, s, input));
      }
    case Io(p, call) => IoAgrees(cfg, s, p, call);
  }

  lemma {:induction false} RunAgrees(cfg: Config, s: System, run: seq<Input>)
    requires NamedClients(cfg) && Agreed(cfg, s) && ValidRun(cfg, s, run) && SerialRun(run)
    ensures Agreed(cfg, After(cfg, s, run))
    decreases run
  {
    if run != [] {
      StepAgrees(cfg, s, run[0]);
      RunAgrees(cfg, Step(cfg, s, run[0]), run[1..]);
    }
  }

  lemma InitialAgrees(cfg: Config)
    ensures Agreed(cfg, Initial(cfg))
  {
    assert Writers(NEW_PORT.records) == 0;
    forall c ensures Placed(cfg, Initial(cfg).world, c, None) {
      assert forall p :: p in cfg.ports ==> !Attached(Initial(cfg).world.ports[p], c);
    }
  }

  // ---------------------------------------------------------------- theorems

  // On a local port, over every run: the seat map names the port exactly when
  // the port lists the client, exactly when it holds a delivery queue for it,
  // exactly when the client's forwarding task serves this port.
  lemma MapsAgree(cfg: Config, run: seq<Input>, c: ClientId, p: PortName)
    requires NamedClients(cfg) && ValidRun(cfg, Initial(cfg), run) && SerialRun(run)
    requires p in cfg.ports && !Federated(cfg, p)
    ensures p in After(cfg, Initial(cfg), run).world.ports
    ensures var w := After(cfg, Initial(cfg), run).world;
      && (w.SeatedAt(c, p) <==> Attached(w.ports[p], c))
      && (w.SeatedAt(c, p) <==> c in w.ports[p].queues)
      && (w.SeatedAt(c, p) <==> c in w.tasks && w.tasks[c] == p)
      && UniqueIds(w.ports[p].records)
  {
    var s := After(cfg, Initial(cfg), run);
    InitialAgrees(cfg);
    RunAgrees(cfg, Initial(cfg), run);
    assert Placed(cfg, s.world, c, PendingOf(s, c));
    assert PortFits(cfg, p, s.world.ports[p]);
  }

  // A client is listed on at most one port, local or federated.
  lemma OnePortPerClient(cfg: Config, run: seq<Input>, c: ClientId, p: PortName, q: PortName)
    requires NamedClients(cfg) && ValidRun(cfg, Initial(cfg), run) && SerialRun(run)
    requires p in cfg.ports && q in cfg.ports
    requires Attached(After(cfg, Initial(cfg), run).world.Port(p), c)
    requires Attached(After(cfg, Initial(cfg), run).world.Port(q), c)
    ensures p == q
  {
    var s := After(cfg, Initial(cfg), run);
    InitialAgrees(cfg);
    RunAgrees(cfg, Initial(cfg), run);
    assert Placed(cfg, s.world, c, PendingOf(s, c));
  }

  // Every read-write record, however its seat was gained, belongs to a known
  // user whom the ladder lets drive that port.
  lemma WritersAreEntitled(cfg: Config, run: seq<Input>, c: ClientId, p: PortName)
    requires NamedClients(cfg) && ValidRun(cfg, Initial(cfg), run) && SerialRun(run)
    requires p in cfg.ports && Drives(After(cfg, Initial(cfg), run).world.Port(p), c)
    ensures c in cfg.clients && MayDrive(cfg, p, cfg.clients[c])
  {
    var s := After(cfg, Initial(cfg), run);
    InitialAgrees(cfg);
    RunAgrees(cfg, Initial(cfg), run);
    assert RecordFits(cfg, p, c, RecordOf(s.world.ports[p], c));
  }

  // ------------------------------------------- why one request per session

  lemma AddLists(cfg: Config, w: World, p: PortName, call: Call)
    requires PortsSound(cfg, w) && call.Add? && Did(cfg, w, p, call)
    ensures var after := TakeSeat(Do(cfg, w, p, call), call.client, p);
      && PortsSound(cfg, after) && Attached(after.ports[p], call.client) && after.SeatedAt(call.client, p)
      && forall q :: q in w.ports && q != p ==> after.ports[q] == w.ports[q]
  {
    CallMovesRecords(cfg.ports[p], w.ports[p], call, call.client);
    CallKeepsSound(cfg.ports[p], w.ports[p], call);
  }

  // On a local port, a user whom the ladder does not turn away gets one of two adds.
  lemma AttachAdds(cfg: Config, w: World, c: ClientId, p: PortName, u: Username, now: real) returns (call: Call)
    requires p in w.ports && p in cfg.ports && !Federated(cfg, p) && u in cfg.permissions
    requires !TakerEntitled(cfg, cfg.Port(p), cfg.permissions[u], u).Denied?
    ensures call.Add? && call.client == c && Did(cfg, w, p, call)
    ensures AttachSeg(cfg, w, c, p, u, now).world == TakeSeat(Do(cfg, w, p, call), c, p)
  {
    var mode := ResolveAccessMode(cfg, cfg.Port(p), w.Port(p), cfg.permissions[u], u).1;
    call := Add(c, u, mode, now);
    if !Did(cfg, w, p, call) {
      call := Add(c, u, ReadOnly, now);
    }
  }

  // So it is always listed there.
  lemma AttachLists(cfg: Config, w: World, c: ClientId, p: PortName, u: Username, now: real)
    requires PortsSound(cfg, w) && p in cfg.ports && !Federated(cfg, p) && u in cfg.permissions
    requires !TakerEntitled(cfg, cfg.Port(p), cfg.permissions[u], u).Denied?
    ensures var after := AttachSeg(cfg, w, c, p, u, now).world;
      && PortsSound(cfg, after) && Attached(after.ports[p], c) && after.SeatedAt(c, p)
      && forall q :: q in w.ports && q != p ==> after.ports[q] == w.ports[q]
  {
    var call := AttachAdds(cfg, w, c, p, u, now);
    AddLists(cfg, w, p, call);
  }

  lemma LeavesLocalPort(cfg: Config, w: World, c: ClientId, p0: PortName, p: PortName, u: Username, now: real)
    requires PortsSound(cfg, w) && w.SeatedAt(c, p0) && !Federated(cfg, p0)
    ensures var left := Begin(cfg, w, Connect(c, p, u), now);
      left.outcome == Wait(ConnectLeft) && PortsSound(cfg, left.world) && c !in left.world.seat
  {
    DoKeepsSound(cfg, w, p0, Remove(c));
  }

  // Two connects of one client that overlap in two sessions list it on two ports: while the
  // first waits on the broadcast of its departure, the second finds it seated nowhere.
  lemma OverlappingConnectsListTwice(cfg: Config, w: World, c: ClientId, p0: PortName, p1: PortName, p2: PortName,
                                     u: Username, now: real)
    requires PortsSound(cfg, w) && w.SeatedAt(c, p0) && !Federated(cfg, p0)
    requires p1 != p2 && {p1, p2} <= cfg.ports.Keys && !Federated(cfg, p1) && !Federated(cfg, p2)
    requires u in cfg.permissions
    requires !TakerEntitled(cfg, cfg.Port(p1), cfg.permissions[u], u).Denied?
    requires !TakerEntitled(cfg, cfg.Port(p2), cfg.permissions[u], u).Denied?
    ensures var left := Begin(cfg, w, Connect(c, p1, u), now);
      left.outcome == Wait(ConnectLeft) &&
      var other := Begin(cfg, left.world, Connect(c, p2, u), now);
      var back := Resume(cfg, other.world, Connect(c, p1, u), ConnectLeft, Nothing, now).world;
      && p1 in back.ports && p2 in back.ports
      && Attached(back.ports[p1], c) && Attached(back.ports[p2], c) && back.SeatedAt(c, p1)
  {
    var left := Begin(cfg, w, Connect(c, p1, u), now);
    LeavesLocalPort(cfg, w, c, p0, p1, u, now);
    AttachLists(cfg, left.world, c, p2, u, now);
    var other := AttachSeg(cfg, left.world, c, p2, u, now).world;
    LeftCases(cfg, other, Connect(c, p1, u), Nothing, now);
    AttachLists(cfg, other, c, p1, u, now);
  }

  // Two disconnects of one client that overlap on a federated port: the second finds no record to remove
  // and forgets the seat at once, so the first, when its stream has closed, has no seat left to forget and
  // fails with a KeyError.
  lemma OverlappingDisconnectsRaise(cfg: Config, w: World, c: ClientId, p: PortName, reply: Reply, now: real)
    requires PortsSound(cfg, w) && Federated(cfg, p) && w.SeatedAt(c, p) && Attached(w.Port(p), c)
    ensures var first := Begin(cfg, w, Disconnect(c, p), now);
      first.outcome == Wait(DetachClosing) &&
      var second := Begin(cfg, first.world, Disconnect(c, p), now);
      && second.outcome == Wait(DetachAnnounce) && c !in second.world.seat
      && Resume(cfg, second.world, Disconnect(c, p), DetachClosing, reply, now).outcome == Done(Raised)
  {
    CallMovesRecords(cfg.ports[p], w.ports[p], Remove(c), c);
  }
}
