/** Who may hold a seat in runs with any number of requests open per client, in any sessions. On local
    ports the ladder is asked in the very segment that grants a seat. On federated ones the origin's
    answer comes later, and a client asked about while it is not listed is judged by its adapter's name. */
module ProtocolEntitlement {
  import opened Prelude
  import opened AccessControl
  import opened PortSeats
  import opened AccessDecision
  import opened AccessLadder
  import opened Protocol
  import opened ProtocolCases
  import opened ProtocolSafety
  import opened ProtocolAgreement

  // The ladder lets the client write although the port does not list it: only the name its adapter
  // reports is asked about, and its own id stands in for the user.
  predicate UnlistedMayWrite(cfg: Config, c: ClientId, p: PortName) {
    && c in cfg.adapterNames && cfg.adapterNames[c] != "" && cfg.adapterNames[c] in cfg.permissions
    && MayDriveAs(cfg, cfg.Port(p), cfg.permissions[cfg.adapterNames[c]], c)
  }

  // Entitled, or on a federated port let through while it was not listed there.
  predicate MayHold(cfg: Config, c: ClientId, p: PortName) {
    DrivesFor(cfg, c, p) || (Federated(cfg, p) && UnlistedMayWrite(cfg, c, p))
  }

  // A user the ladder does not turn away.
  predicate MaySit(cfg: Config, p: PortName, u: Username) {
    u in cfg.permissions && MayWatchAs(cfg, cfg.Port(p), cfg.permissions[u], u)
  }

  ghost predicate RecordHolds(cfg: Config, p: PortName, c: ClientId, r: Option<Record>) {
    r.Some? ==>
      && c in cfg.clients
      && r.value.username == cfg.clients[c]
      && MaySit(cfg, p, r.value.username)
      && (r.value.mode.ReadWrite? ==> MayHold(cfg, c, p))
  }

  ghost predicate HeldRightly(cfg: Config, w: World) {
    && PortsSound(cfg, w)
    && forall p, c :: p in cfg.ports ==> RecordHolds(cfg, p, c, RecordOf(w.ports[p], c))
  }

  ghost predicate Rightly(cfg: Config, w: World, p: PortName, call: Call) {
    && (call.Add? ==>
          && call.client in cfg.clients && call.username == cfg.clients[call.client]
          && MaySit(cfg, p, call.username)
          && (call.mode.ReadWrite? ==> MayDrive(cfg, p, call.username)))
    && (call.Promote? && Attached(w.Port(p), call.client) ==> MayHold(cfg, call.client, p))
  }

  predicate Asks(phase: Phase) {
    phase.AttachOpening? || phase.AttachAsking? || phase.PromoteAsking? || phase.TakeAsking? || phase.TakeMirrorAsking?
  }

  // The origin's "read-write" seats the client without another look at the ladder.
  predicate GoesAhead(phase: Phase) {
    phase.AttachAsking? || phase.PromoteAsking? || phase.TakeMirrorAsking?
    || (phase.AttachOpening? && phase.entitled.ReadWrite?)
  }

  // What a suspended request has been checked for. Only a federated port has an origin to ask.
  ghost predicate ClearedToHold(cfg: Config, pending: Pending) {
    var req, phase := pending.req, pending.phase;
    && req.client in cfg.clients
    && (req.Connect? ==> req.username == cfg.clients[req.client])
    && (phase.ConnectLeft? || phase.ConnectClosing? ==> req.Connect?)
    && (Asks(phase) ==> Federated(cfg, req.port))
    && (GoesAhead(phase) ==> MayHold(cfg, req.client, req.port))
    && (phase.TakeDemoted? ==> MayHold(cfg, phase.victim, req.port))
  }

  predicate Known(cfg: Config, req: Request) {
    req.client in cfg.clients && (req.Connect? ==> req.username == cfg.clients[req.client])
  }

  ghost predicate SegFits(cfg: Config, req: Request, seg: Seg) {
    && HeldRightly(cfg, seg.world)
    && (seg.outcome.Wait? ==> ClearedToHold(cfg, Pending(req, seg.outcome.phase)))
  }

  lemma CallHolds(cfg: Config, p: PortName, w: World, call: Call, c: ClientId)
    requires p in cfg.ports && p in w.ports && UniqueIds(w.ports[p].records)
    requires RecordHolds(cfg, p, c, RecordOf(w.ports[p], c)) && Rightly(cfg, w, p, call)
    ensures RecordHolds(cfg, p, c, RecordOf(Apply(cfg.ports[p], w.ports[p], call), c))
  {
    CallMovesRecords(cfg.ports[p], w.ports[p], call, c);
  }

  lemma DoHolds(cfg: Config, w: World, p: PortName, call: Call)
    requires HeldRightly(cfg, w) && Rightly(cfg, w, p, call)
    ensures HeldRightly(cfg, Do(cfg, w, p, call))
  {
    var w' := Do(cfg, w, p, call);
    DoKeepsSound(cfg, w, p, call);
    forall q, c | q in cfg.ports ensures RecordHolds(cfg, q, c, RecordOf(w'.ports[q], c)) {
      assert RecordHolds(cfg, q, c, RecordOf(w.ports[q], c));
      if q == p {
        CallHolds(cfg, p, w, call, c);
      }
    }
  }

  lemma SamePortsHold(cfg: Config, w: World, w': World)
    requires HeldRightly(cfg, w) && w'.ports == w.ports
    ensures HeldRightly(cfg, w')
  {
  }

  lemma PlainPhaseIsCleared(cfg: Config, req: Request, phase: Phase)
    requires Known(cfg, req) && !Asks(phase) && !phase.TakeDemoted?
    requires phase.ConnectLeft? || phase.ConnectClosing? ==> req.Connect?
    ensures ClearedToHold(cfg, Pending(req, phase))
  {
  }

  lemma AskingPhaseIsCleared(cfg: Config, req: Request, phase: Phase)
    requires Known(cfg, req) && Asks(phase) && Federated(cfg, req.port)
    requires GoesAhead(phase) ==> MayHold(cfg, req.client, req.port)
    ensures ClearedToHold(cfg, Pending(req, phase))
  {
  }

  // ------------------------------------------------------------------ attach

  lemma EntitledAddFits(cfg: Config, w: World, req: Request, mode: Mode, now: real)
    requires HeldRightly(cfg, w) && req.Connect? && Known(cfg, req) && MaySit(cfg, req.port, req.username)
    requires mode.ReadWrite? ==> MayDrive(cfg, req.port, req.username)
    ensures HeldRightly(cfg, Do(cfg, w, req.port, Add(req.client, req.username, mode, now)))
  {
    DoHolds(cfg, w, req.port, Add(req.client, req.username, mode, now));
  }

  lemma AdmitFits(cfg: Config, added: World, req: Request, entitled: Mode, mode: Mode, code: Code, calls: seq<PortCall>)
    requires HeldRightly(cfg, added) && Known(cfg, req)
    requires entitled.ReadWrite? ==> DrivesFor(cfg, req.client, req.port)
    ensures SegFits(cfg, req, Admit(added, req.client, req.port, Federated(cfg, req.port), entitled, mode, code, calls))
  {
    var seg := Admit(added, req.client, req.port, Federated(cfg, req.port), entitled, mode, code, calls);
    assert seg.world.ports == added.ports;
    SamePortsHold(cfg, added, seg.world);
    if Federated(cfg, req.port) {
      AskingPhaseIsCleared(cfg, req, AttachOpening(entitled, code));
    } else {
      PlainPhaseIsCleared(cfg, req, AttachAnnounce(mode, code));
    }
  }

  // What the ladder lets an attach do.
  lemma AttachIsEntitled(cfg: Config, w: World, p: PortName, u: Username)
    requires u in cfg.permissions
    ensures var (code, mode) := ResolveAccessMode(cfg, cfg.Port(p), w.Port(p), cfg.permissions[u], u);
      && (Ok(code) ==> MaySit(cfg, p, u))
      && (mode.ReadWrite? ==> MayDrive(cfg, p, u))
  {
  }

  lemma AttachFits(cfg: Config, w: World, req: Request, now: real)
    requires HeldRightly(cfg, w) && req.Connect? && Known(cfg, req)
    ensures SegFits(cfg, req, AttachSeg(cfg, w, req.client, req.port, req.username, now))
  {
    var c, p, u := req.client, req.port, req.username;
    if u in cfg.permissions {
      var (code, entitled) := ResolveAccessMode(cfg, cfg.Port(p), w.Port(p), cfg.permissions[u], u);
      var mode := if Federated(cfg, p) then ReadOnly else entitled;
      var first, second := Add(c, u, mode, now), Add(c, u, ReadOnly, now);
      AttachIsEntitled(cfg, w, p, u);
      if Ok(code) {
        EntitledAddFits(cfg, w, req, mode, now);
        EntitledAddFits(cfg, w, req, ReadOnly, now);
        if Did(cfg, w, p, first) {
          AdmitFits(cfg, Do(cfg, w, p, first), req, entitled, mode, code, [At(p, first)]);
        } else if mode.ReadWrite? && Did(cfg, w, p, second) {
          AdmitFits(cfg, Do(cfg, w, p, second), req, entitled, ReadOnly, CapacityFull, [At(p, first), At(p, second)]);
        }
      }
    }
  }

  lemma LeaveFits(cfg: Config, w: World, req: Request, p: PortName, closing: Phase, next: Phase)
    requires HeldRightly(cfg, w)
    requires ClearedToHold(cfg, Pending(req, closing)) && ClearedToHold(cfg, Pending(req, next))
    ensures SegFits(cfg, req, LeavePort(cfg, w, req.client, p, closing, next))
  {
    var left, seg := Do(cfg, w, p, Remove(req.client)), LeavePort(cfg, w, req.client, p, closing, next);
    LeaveCases(cfg, w, req.client, p, closing, next);
    DoHolds(cfg, w, p, Remove(req.client));
    SamePortsHold(cfg, left, seg.world);
  }

  // --------------------------------------------------------------- promotion

  // Whom the ladder lets write is a user who may drive if the port lists the client, and one let
  // through by its adapter's name if not.
  lemma StandingMayHold(cfg: Config, w: World, c: ClientId, p: PortName)
    requires HeldRightly(cfg, w) && NamedClients(cfg) && p in cfg.ports && Standing(cfg, w, c, p).MayWrite?
    ensures if Attached(w.ports[p], c) then DrivesFor(cfg, c, p) else UnlistedMayWrite(cfg, c, p)
  {
    assert RecordHolds(cfg, p, c, RecordOf(w.ports[p], c));
  }

  lemma PromotionFits(cfg: Config, w: World, c: ClientId, p: PortName)
    requires HeldRightly(cfg, w) && NamedClients(cfg)
    ensures var r := StartPromotion(cfg, w, c, p);
      if r.MustAsk? then Federated(cfg, p) && MayHold(cfg, c, p) else HeldRightly(cfg, r.world)
  {
    var r := StartPromotion(cfg, w, c, p);
    PromotionCases(cfg, w, c, p);
    if r.Promoted? || r.MustAsk? {
      StandingMayHold(cfg, w, c, p);
      if r.Promoted? {
        DoHolds(cfg, w, p, Promote(c));
      }
    }
  }

  lemma AnswerFits(cfg: Config, w: World, c: ClientId, p: PortName, reply: Reply)
    requires HeldRightly(cfg, w) && MayHold(cfg, c, p)
    ensures HeldRightly(cfg, AnswerPromotion(cfg, w, c, p, reply).world)
  {
    var once := Do(cfg, w, p, Promote(c));
    AnswerWorlds(cfg, w, c, p, reply);
    DoHolds(cfg, w, p, Promote(c));
    DoHolds(cfg, once, p, Promote(c));
  }

  // -------------------------------------------------------------------- take

  lemma VictimIsEntitled(cfg: Config, w: World, p: PortName, victim: Record)
    requires HeldRightly(cfg, w) && p in cfg.ports && victim in w.ports[p].records && victim.mode.ReadWrite?
    ensures MayHold(cfg, victim.client, p)
  {
    var rs := w.ports[p].records;
    var i :| 0 <= i < |rs| && rs[i] == victim;
    IndexIs(rs, i);
    assert RecordHolds(cfg, p, victim.client, RecordOf(w.ports[p], victim.client));
  }

  lemma DemotedFits(cfg: Config, w: World, req: Request, victim: ClientId)
    requires HeldRightly(cfg, w) && req.Take? && Known(cfg, req) && MayHold(cfg, victim, req.port)
    ensures SegFits(cfg, req, DemoteVictim(cfg, w, victim, req.port))
  {
    DemoteVictimCases(cfg, w, victim, req.port);
    DoHolds(cfg, w, req.port, Demote(victim));
  }

  lemma EmptyTakeFits(cfg: Config, w: World, req: Request)
    requires HeldRightly(cfg, w) && NamedClients(cfg) && req.Take? && Known(cfg, req)
    ensures SegFits(cfg, req, TakeEmpty(cfg, w, req.client, req.port))
  {
    PromotionFits(cfg, w, req.client, req.port);
    PlainPhaseIsCleared(cfg, req, TakeEmptyAnnounce);
    TakeEmptyCases(cfg, w, req.client, req.port);
  }

  lemma LocalTakeFits(cfg: Config, w: World, req: Request)
    requires HeldRightly(cfg, w) && NamedClients(cfg) && req.Take? && Known(cfg, req) && Local(cfg, req.port)
    ensures SegFits(cfg, req, TakeLocal(cfg, w, req.client, req.port, req.target))
  {
    var choice := ResolveTakeTarget(w.Port(req.port), req.client, req.target);
    TakeLocalCases(cfg, w, req.client, req.port, req.target);
    if choice.Chosen? {
      VictimIsEntitled(cfg, w, req.port, choice.victim);
      DemotedFits(cfg, w, req, choice.victim.client);
    } else {
      EmptyTakeFits(cfg, w, req);
    }
  }

  lemma TakeFits(cfg: Config, w: World, req: Request)
    requires HeldRightly(cfg, w) && NamedClients(cfg) && req.Take? && Known(cfg, req)
    ensures SegFits(cfg, req, BeginTake(cfg, w, req.client, req.port, req.target))
  {
    BeginTakeCases(cfg, w, req.client, req.port, req.target);
    if Local(cfg, req.port) {
      LocalTakeFits(cfg, w, req);
    } else if Federated(cfg, req.port) {
      AskingPhaseIsCleared(cfg, req, TakeAsking);
    }
  }

  // The restored victim is not asked about again, but it was entitled when it was demoted.
  lemma RestoreFits(cfg: Config, w: World, req: Request, victim: ClientId)
    requires HeldRightly(cfg, w) && NamedClients(cfg) && Known(cfg, req) && MayHold(cfg, victim, req.port)
    ensures SegFits(cfg, req, PromoteOrRestore(cfg, w, req.client, req.port, victim))
  {
    RestoreWorlds(cfg, w, req.client, req.port, victim);
    PromotionFits(cfg, w, req.client, req.port);
    DoHolds(cfg, w, req.port, Promote(victim));
    PlainPhaseIsCleared(cfg, req, TakePromoted(victim));
  }

  // ---------------------------------------------------------- begin and resume

  lemma RequestFits(cfg: Config, w: World, req: Request, now: real)
    requires HeldRightly(cfg, w) && NamedClients(cfg) && req.RequestWrite? && Known(cfg, req)
    ensures SegFits(cfg, req, Begin(cfg, w, req, now))
  {
    RequestCases(cfg, w, req, now);
    PromotionFits(cfg, w, req.client, req.port);
    PlainPhaseIsCleared(cfg, req, PromoteAnnounce);
    if StartPromotion(cfg, w, req.client, req.port).MustAsk? {
      AskingPhaseIsCleared(cfg, req, PromoteAsking);
    }
  }

  lemma GiveUpFits(cfg: Config, w: World, req: Request, now: real)
    requires HeldRightly(cfg, w) && req.GiveUpWrite? && Known(cfg, req)
    ensures SegFits(cfg, req, Begin(cfg, w, req, now))
  {
    GiveUpCases(cfg, w, req, now);
    DoHolds(cfg, w, req.port, Demote(req.client));
    PlainPhaseIsCleared(cfg, req, DemoteReleasing);
    PlainPhaseIsCleared(cfg, req, DemoteAnnounce);
  }

  lemma BeginFits(cfg: Config, w: World, req: Request, now: real)
    requires HeldRightly(cfg, w) && NamedClients(cfg) && Known(cfg, req)
    ensures SegFits(cfg, req, Begin(cfg, w, req, now))
  {
    match req
    case Connect(c, _, _) =>
      if c in w.seat {
        LeaveFits(cfg, w, req, w.seat[c], ConnectClosing, ConnectLeft);
      } else {
        AttachFits(cfg, w, req, now);
      }
    case Disconnect(c, p) =>
      if w.SeatedAt(c, p) {
        LeaveFits(cfg, w, req, p, DetachClosing, DetachAnnounce);
      }
    case RequestWrite(_, _) => RequestFits(cfg, w, req, now);
    case GiveUpWrite(_, _, _) => GiveUpFits(cfg, w, req, now);
    case Take(_, _, _) => TakeFits(cfg, w, req);
  }

  lemma OpenedFits(cfg: Config, w: World, req: Request, entitled: Mode, code: Code, reply: Reply, now: real)
    requires HeldRightly(cfg, w) && ClearedToHold(cfg, Pending(req, AttachOpening(entitled, code)))
    ensures SegFits(cfg, req, Resume(cfg, w, req, AttachOpening(entitled, code), reply, now))
  {
    OpenedCases(cfg, w, req, entitled, code, reply, now);
    SamePortsHold(cfg, w, Resume(cfg, w, req, AttachOpening(entitled, code), reply, now).world);
    if entitled.ReadWrite? {
      AskingPhaseIsCleared(cfg, req, AttachAsking);
    } else {
      PlainPhaseIsCleared(cfg, req, AttachAnnounce(ReadOnly, code));
    }
  }

  lemma AttachAskedFits(cfg: Config, w: World, req: Request, reply: Reply, now: real)
    requires HeldRightly(cfg, w) && ClearedToHold(cfg, Pending(req, AttachAsking))
    ensures SegFits(cfg, req, Resume(cfg, w, req, AttachAsking, reply, now))
  {
    AttachAskedCases(cfg, w, req, reply, now);
    DoHolds(cfg, w, req.port, Promote(req.client));
    PlainPhaseIsCleared(cfg, req, Resume(cfg, w, req, AttachAsking, reply, now).outcome.phase);
  }

  lemma AnsweredFits(cfg: Config, w: World, req: Request, phase: Phase, reply: Reply, now: real)
    requires HeldRightly(cfg, w) && ClearedToHold(cfg, Pending(req, phase))
    requires phase.PromoteAsking? || phase.TakeMirrorAsking?
    ensures SegFits(cfg, req, Resume(cfg, w, req, phase, reply, now))
  {
    var next := Resume(cfg, w, req, phase, reply, now).outcome;
    AnsweredCases(cfg, w, req, phase, reply, now);
    AnswerFits(cfg, w, req.client, req.port, reply);
    if next.Wait? {
      PlainPhaseIsCleared(cfg, req, next.phase);
    }
  }

  lemma TakeAskedFits(cfg: Config, w: World, req: Request, reply: Reply, now: real)
    requires HeldRightly(cfg, w) && NamedClients(cfg) && ClearedToHold(cfg, Pending(req, TakeAsking))
    ensures SegFits(cfg, req, Resume(cfg, w, req, TakeAsking, reply, now))
  {
    TakeAskedCases(cfg, w, req, reply, now);
    PromotionFits(cfg, w, req.client, req.port);
    PlainPhaseIsCleared(cfg, req, TakeMirrorAnnounce);
    if StartPromotion(cfg, w, req.client, req.port).MustAsk? {
      AskingPhaseIsCleared(cfg, req, TakeMirrorAsking);
    }
  }

  lemma ForgottenFits(cfg: Config, w: World, req: Request, next: Phase)
    requires HeldRightly(cfg, w) && ClearedToHold(cfg, Pending(req, next))
    ensures SegFits(cfg, req, ForgetSeat(w, req.client, next, []))
  {
    SamePortsHold(cfg, w, ForgetSeat(w, req.client, next, []).world);
  }

  lemma AnnouncingFits(cfg: Config, w: World, req: Request, phase: Phase, reply: Reply, now: real)
    requires HeldRightly(cfg, w) && Known(cfg, req) && Announces(phase)
    ensures SegFits(cfg, req, Resume(cfg, w, req, phase, reply, now))
  {
    var next := Resume(cfg, w, req, phase, reply, now).outcome;
    AnnouncingCases(cfg, w, req, phase, reply, now);
    if next.Wait? {
      PlainPhaseIsCleared(cfg, req, next.phase);
    }
  }

  lemma AskedFits(cfg: Config, w: World, req: Request, phase: Phase, reply: Reply, now: real)
    requires HeldRightly(cfg, w) && NamedClients(cfg) && ClearedToHold(cfg, Pending(req, phase)) && Asks(phase)
    ensures SegFits(cfg, req, Resume(cfg, w, req, phase, reply, now))
  {
    if phase.AttachOpening? {
      OpenedFits(cfg, w, req, phase.entitled, phase.code, reply, now);
    } else if phase.AttachAsking? {
      AttachAskedFits(cfg, w, req, reply, now);
    } else if phase.TakeAsking? {
      TakeAskedFits(cfg, w, req, reply, now);
    } else {
      AnsweredFits(cfg, w, req, phase, reply, now);
    }
  }

  lemma ResumeFits(cfg: Config, w: World, req: Request, phase: Phase, reply: Reply, now: real)
    requires HeldRightly(cfg, w) && NamedClients(cfg) && ClearedToHold(cfg, Pending(req, phase))
    ensures SegFits(cfg, req, Resume(cfg, w, req, phase, reply, now))
  {
    if phase.ConnectClosing? {
      ClosingCases(cfg, w, req, reply, now);
      PlainPhaseIsCleared(cfg, req, ConnectLeft);
      ForgottenFits(cfg, w, req, ConnectLeft);
    } else if phase.DetachClosing? {
      ClosingCases(cfg, w, req, reply, now);
      PlainPhaseIsCleared(cfg, req, DetachAnnounce);
      ForgottenFits(cfg, w, req, DetachAnnounce);
    } else if phase.ConnectLeft? {
      LeftCases(cfg, w, req, reply, now);
      AttachFits(cfg, w, req, now);
    } else if phase.TakeDemoted? {
      DemotedCases(cfg, w, req, phase.victim, reply, now);
      RestoreFits(cfg, w, req, phase.victim);
    } else if Asks(phase) {
      AskedFits(cfg, w, req, phase, reply, now);
    } else {
      AnnouncingFits(cfg, w, req, phase, reply, now);
    }
  }

  // -------------------------------------------------------------------- runs

  ghost predicate EveryoneCleared(cfg: Config, s: System) {
    HeldRightly(cfg, s.world) && forall id :: id in s.pending ==> ClearedToHold(cfg, s.pending[id])
  }

  lemma SettledEntitled(cfg: Config, s: System, session: SessionId, req: Request, seg: Seg)
    requires EveryoneCleared(cfg, s) && SegFits(cfg, req, seg)
    ensures EveryoneCleared(cfg, Settle(s, session, req, seg))
  {
  }

  lemma StepKeepsEntitled(cfg: Config, s: System, input: Input)
    requires NamedClients(cfg) && EveryoneCleared(cfg, s) && Enabled(cfg, s, input)
    ensures EveryoneCleared(cfg, Step(cfg, s, input))
  {
    match input
    case Start(session, req, now) =>
      BeginFits(cfg, s.world, req, now);
      SettledEntitled(cfg, s, session, req, StepSeg(cfg, s, input));
    case Continue(session, reply, now) =>
      var pending := s.pending[session];
      ResumeFits(cfg, s.world, pending.req, pending.phase, reply, now);
      SettledEntitled(cfg, s, session, pending.req, StepSeg(cfg, s, input));
    case Io(p, call) => DoHolds(cfg, s.world, p, call);
  }

  lemma {:induction false} RunKeepsEntitled(cfg: Config, s: System, run: seq<Input>)
    requires NamedClients(cfg) && EveryoneCleared(cfg, s) && ValidRun(cfg, s, run)
    ensures EveryoneCleared(cfg, After(cfg, s, run))
    decreases run
  {
    if run != [] {
      StepKeepsEntitled(cfg, s, run[0]);
      RunKeepsEntitled(cfg, Step(cfg, s, run[0]), run[1..]);
    }
  }

  lemma InitiallyCleared(cfg: Config)
    ensures EveryoneCleared(cfg, Initial(cfg))
  {
    assert Writers(NEW_PORT.records) == 0;
  }

  // In every run at all, however requests overlap, every read-write record belongs to a user whom the
  // ladder lets drive that port, or sits on a federated port and its client passes the ladder there
  // without being listed.
  lemma WritersMayHold(cfg: Config, run: seq<Input>, c: ClientId, p: PortName)
    requires NamedClients(cfg) && ValidRun(cfg, Initial(cfg), run)
    requires p in cfg.ports && Drives(After(cfg, Initial(cfg), run).world.Port(p), c)
    ensures c in cfg.clients && MaySit(cfg, p, cfg.clients[c]) && MayHold(cfg, c, p)
    ensures cfg.ports[p].Capacity() != Finite(0)
  {
    var s := After(cfg, Initial(cfg), run);
    InitiallyCleared(cfg);
    RunKeepsEntitled(cfg, Initial(cfg), run);
    assert RecordHolds(cfg, p, c, RecordOf(s.world.ports[p], c));
    WriterIsCounted(s.world.ports[p], c);
  }

  // On a local port it is the user, in every run.
  lemma LocalWritersAreEntitled(cfg: Config, run: seq<Input>, c: ClientId, p: PortName)
    requires NamedClients(cfg) && ValidRun(cfg, Initial(cfg), run)
    requires Local(cfg, p) && Drives(After(cfg, Initial(cfg), run).world.Port(p), c)
    ensures c in cfg.clients && MayDrive(cfg, p, cfg.clients[c])
  {
    WritersMayHold(cfg, run, c, p);
  }

  // Adapters report the client's own user, and no client id is the name of a user.
  predicate HonestNames(cfg: Config) {
    forall c :: c in cfg.clients ==>
      && c !in cfg.permissions
      && (c in cfg.adapterNames && cfg.adapterNames[c] != "" ==> cfg.adapterNames[c] == cfg.clients[c])
  }

  // Then it is the user on every port, federated ones included, in every run.
  lemma HonestWritersAreEntitled(cfg: Config, run: seq<Input>, c: ClientId, p: PortName)
    requires NamedClients(cfg) && HonestNames(cfg) && ValidRun(cfg, Initial(cfg), run)
    requires p in cfg.ports && Drives(After(cfg, Initial(cfg), run).world.Port(p), c)
    ensures c in cfg.clients && MayDrive(cfg, p, cfg.clients[c])
  {
    WritersMayHold(cfg, run, c, p);
  }
}
