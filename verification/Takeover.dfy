/** What a request run to completion achieves, takes of the write slot above all. */
module Takeover {
  import opened Prelude
  import opened AccessControl
  import opened PortSeats
  import opened AccessDecision
  import opened AccessLadder
  import opened Protocol
  import opened ProtocolCases
  import opened ProtocolSafety
  import opened ProtocolAgreement
  import opened ProtocolAlone
  import opened TakeTargets

  // No request is suspended and all maps agree; true at the start, and kept below.
  ghost predicate Idle(cfg: Config, w: World) { Agreed(cfg, System(w, map[])) }

  // A local port with one seat to take: configured for one writer, or with a value that is no mode and
  // that both readers take for one.
  predicate OnePort(cfg: Config, p: PortName) {
    && p in cfg.ports && !cfg.ports[p].federated && WireToMode(cfg.ports[p].maxReadWriteUsers).OneWriter?
    && ParseWriteMode(cfg.ports[p].maxReadWriteUsers) in {Some(OneWriter), None}
  }

  lemma OnePortHasOneSeat(cfg: Config, p: PortName)
    requires OnePort(cfg, p)
    ensures cfg.ports[p].Capacity() == Finite(1) && WireToMode(cfg.ports[p].maxReadWriteUsers) == OneWriter
  {
  }

  ghost predicate SoleWriter(ps: PortState, c: ClientId) {
    Writers(ps.records) == 1 && forall d :: Drives(ps, d) <==> d == c
  }

  lemma DriverIsSole(ps: PortState, c: ClientId)
    requires Writers(ps.records) <= 1 && Drives(ps, c)
    ensures SoleWriter(ps, c)
  {
    WriterIsCounted(ps, c);
    forall d | Drives(ps, d) ensures d == c {
      OneDriver(ps, c, d);
    }
  }

  lemma NoDriver(ps: PortState)
    requires UniqueIds(ps.records) && forall d :: !Drives(ps, d)
    ensures Writers(ps.records) == 0
  {
    if Writers(ps.records) >= 1 {
      var i := WriterExists(ps.records);
      IndexIs(ps.records, i);
      assert Drives(ps, ps.records[i].client);
    }
  }

  lemma IdlePlaces(cfg: Config, w: World, c: ClientId, p: PortName)
    requires Idle(cfg, w) && p in cfg.ports
    ensures p in w.ports && (w.SeatedAt(c, p) <==> Attached(w.ports[p], c))
  {
    assert Placed(cfg, w, c, PendingOf(System(w, map[]), c));
  }

  lemma EntitledStands(cfg: Config, w: World, c: ClientId, p: PortName)
    requires Fit(cfg, w) && NamedClients(cfg) && p in cfg.ports && Attached(w.ports[p], c) && DrivesFor(cfg, c, p)
    ensures Standing(cfg, w, c, p).MayWrite?
  {
    assert RecordFits(cfg, p, c, RecordOf(w.ports[p], c));
  }

  // An entitled client that sits on a port with a free seat gets it.
  lemma FreeSeatIsGranted(cfg: Config, w: World, c: ClientId, p: PortName)
    requires Fit(cfg, w) && NamedClients(cfg) && OnePort(cfg, p)
    requires w.SeatedAt(c, p) && Attached(w.ports[p], c) && DrivesFor(cfg, c, p)
    requires Writers(w.ports[p].records) == 0
    ensures var r := StartPromotion(cfg, w, c, p); r.Promoted? && r.world == Do(cfg, w, p, Promote(c))
    ensures SoleWriter(Do(cfg, w, p, Promote(c)).ports[p], c)
  {
    OnePortHasOneSeat(cfg, p);
    EntitledStands(cfg, w, c, p);
    PromoteOutcome(cfg, w, c, p);
    CallMovesRecords(cfg.ports[p], w.ports[p], Promote(c), c);
    DriverIsSole(Do(cfg, w, p, Promote(c)).ports[p], c);
  }

  lemma DemotionFreesSeat(cfg: Config, w: World, victim: ClientId, p: PortName)
    requires Fit(cfg, w) && OnePort(cfg, p) && Drives(w.ports[p], victim)
    ensures Did(cfg, w, p, Demote(victim)) && Fit(cfg, Do(cfg, w, p, Demote(victim)))
    ensures SameSeats(cfg, w, Do(cfg, w, p, Demote(victim)))
    ensures Writers(Do(cfg, w, p, Demote(victim)).ports[p].records) == 0
  {
    OnePortHasOneSeat(cfg, p);
    ModeCallKeeps(cfg, w, p, Demote(victim));
    var rs, i := w.ports[p].records, IndexOf(w.ports[p].records, victim);
    WritersSet(rs, i, rs[i].(mode := ReadOnly));
  }

  lemma ListedWriterDrives(ps: PortState, r: Record)
    requires UniqueIds(ps.records) && r in ps.records && r.mode.ReadWrite?
    ensures Drives(ps, r.client)
  {
    var i :| 0 <= i < |ps.records| && ps.records[i] == r;
    IndexIs(ps.records, i);
  }

  lemma NoHolderNoDriver(ps: PortState, taker: ClientId)
    requires Holders(ps.records, taker) == []
    ensures forall d :: d != taker ==> !Drives(ps, d)
  {
    forall d | d != taker ensures !Drives(ps, d) {
      var i := IndexOf(ps.records, d);
      assert i < |ps.records| ==> ps.records[i] in ps.records && ps.records[i] !in Holders(ps.records, taker);
    }
  }

  // What a take that wins looks like to everyone.
  ghost predicate Wins(cfg: Config, w: World, w': World, a: Answer, taker: ClientId, p: PortName, code: Code,
                       victim: Option<ClientId>)
  {
    && a == Decided(Decision(code, ReadWrite, victim))
    && p in w'.ports && SoleWriter(w'.ports[p], taker)
    && w'.seat == w.seat && w'.tasks == w.tasks
    && forall q :: q in w.ports && q != p ==> q in w'.ports && w'.ports[q] == w.ports[q]
  }

  lemma TakeFromWins(cfg: Config, w: World, req: Request, victim: ClientId, env: Env)
    requires Idle(cfg, w) && NamedClients(cfg) && OnePort(cfg, req.port)
    requires w.SeatedAt(req.client, req.port) && DrivesFor(cfg, req.client, req.port)
    requires victim != req.client && Drives(w.ports[req.port], victim)
    ensures var (w', a) := Finish(cfg, DemoteVictim(cfg, w, victim, req.port), req, env);
      Wins(cfg, w, w', a, req.client, req.port, Granted, Some(victim))
  {
    var taker, p := req.client, req.port;
    IdlePlaces(cfg, w, taker, p);
    IdlePlaces(cfg, w, victim, p);
    DemotionFreesSeat(cfg, w, victim, p);
    FreeSeatIsGranted(cfg, Do(cfg, w, p, Demote(victim)), taker, p);
    TakeFromRunsAlone(cfg, w, victim, req, env);
  }

  lemma EmptyTakeWins(cfg: Config, w: World, req: Request, env: Env)
    requires Idle(cfg, w) && NamedClients(cfg) && OnePort(cfg, req.port)
    requires w.SeatedAt(req.client, req.port) && DrivesFor(cfg, req.client, req.port)
    requires Holders(w.Port(req.port).records, req.client) == []
    ensures var (w', a) := Finish(cfg, TakeEmpty(cfg, w, req.client, req.port), req, env);
      Wins(cfg, w, w', a, req.client, req.port,
           if Drives(w.Port(req.port), req.client) then AlreadyRw else Granted, None)
  {
    var taker, p := req.client, req.port;
    OnePortHasOneSeat(cfg, p);
    IdlePlaces(cfg, w, taker, p);
    SeatIsDriving(w.ports[p], taker);
    TakeOfEmptyRunsAlone(cfg, w, taker, p, req, env);
    if Drives(w.ports[p], taker) {
      DriverIsSole(w.ports[p], taker);
    } else {
      NoHolderNoDriver(w.ports[p], taker);
      NoDriver(w.ports[p]);
      FreeSeatIsGranted(cfg, w, taker, p);
    }
  }

  lemma EntitledTakeIsLocal(cfg: Config, w: World, taker: ClientId, p: PortName, target: Option<string>)
    requires Idle(cfg, w) && NamedClients(cfg) && OnePort(cfg, p)
    requires w.SeatedAt(taker, p) && DrivesFor(cfg, taker, p)
    ensures BeginTake(cfg, w, taker, p, target) ==
      match ResolveTakeTarget(w.Port(p), taker, target)
      case Chosen(victim) => DemoteVictim(cfg, w, victim.client, p)
      case NoChoice(code) =>
        if target.Some? then Seg(w, Answered(code, ReadOnly), []) else TakeEmpty(cfg, w, taker, p)
  {
    OnePortHasOneSeat(cfg, p);
    IdlePlaces(cfg, w, taker, p);
    EntitledStands(cfg, w, taker, p);
  }

  // A take without a target, by an attached and entitled client on a local port
  // with one seat, always ends with that client as its only writer. It reports
  // the displaced holder, or that the taker held the seat all along.
  lemma TakeAlwaysWins(cfg: Config, w: World, taker: ClientId, p: PortName, env: Env)
    requires Idle(cfg, w) && NamedClients(cfg) && OnePort(cfg, p)
    requires w.SeatedAt(taker, p) && DrivesFor(cfg, taker, p)
    ensures var (w', a) := RunAlone(cfg, w, Take(taker, p, None), env);
      && (Drives(w.Port(p), taker) ==> Wins(cfg, w, w', a, taker, p, AlreadyRw, None))
      && (forall v :: v != taker && Drives(w.Port(p), v) ==> Wins(cfg, w, w', a, taker, p, Granted, Some(v)))
      && ((forall v :: !Drives(w.Port(p), v)) ==> Wins(cfg, w, w', a, taker, p, Granted, None))
  {
    var req := Take(taker, p, None);
    OnePortHasOneSeat(cfg, p);
    IdlePlaces(cfg, w, taker, p);
    EntitledTakeIsLocal(cfg, w, taker, p, None);
    var choice := ResolveTakeTarget(w.Port(p), taker, None);
    if choice.Chosen? {
      ListedWriterDrives(w.ports[p], choice.victim);
      DriverIsSole(w.ports[p], choice.victim.client);
      TakeFromWins(cfg, w, req, choice.victim.client, env);
    } else {
      NoHolderNoDriver(w.ports[p], taker);
      EmptyTakeWins(cfg, w, req, env);
    }
  }

  predicate CalledBy(v: ClientId, target: string) { v == target || HolderIdShort(v) == target }

  // On a port with one writer, a name is matched if and only if it is the writer's exact or printed id.
  lemma SoleHolderMatches(ps: PortState, taker: ClientId, v: ClientId, target: string)
    requires UniqueIds(ps.records) && Writers(ps.records) <= 1 && Drives(ps, v) && v != taker
    ensures MatchTakeTarget(Holders(ps.records, taker), target) == if CalledBy(v, target) then RecordOf(ps, v) else None
  {
    var hs, r := Holders(ps.records, taker), RecordOf(ps, v).value;
    HoldersUnique(ps.records, taker);
    assert r in hs;
    forall g | g in hs ensures g == r {
      ListedWriterDrives(ps, g);
      OneDriver(ps, v, g.client);
      SameClientSameRecord(ps.records, g, r);
    }
    MatchIsMeaning(hs, target, r);
    var matched := MatchTakeTarget(hs, target);
    if matched.Some? {
      MatchIsMeaning(hs, target, matched.value);
    }
  }

  // A take that names its target wins exactly when another client drives the port and is called so,
  // by its exact or its printed id; otherwise it is refused and nothing changes.
  lemma NamedTakeWinsOrChangesNothing(cfg: Config, w: World, taker: ClientId, p: PortName, target: string, env: Env)
    requires Idle(cfg, w) && NamedClients(cfg) && OnePort(cfg, p)
    requires w.SeatedAt(taker, p) && DrivesFor(cfg, taker, p)
    ensures var (w', a) := RunAlone(cfg, w, Take(taker, p, Some(target)), env);
      && (forall v :: v != taker && Drives(w.Port(p), v) && CalledBy(v, target) ==>
            Wins(cfg, w, w', a, taker, p, Granted, Some(v)))
      && ((forall v :: v != taker && Drives(w.Port(p), v) ==> !CalledBy(v, target)) ==>
            w' == w && a.Decided? && !a.decision.Grants())
  {
    OnePortHasOneSeat(cfg, p);
    IdlePlaces(cfg, w, taker, p);
    var matched := MatchTakeTarget(Holders(w.Port(p).records, taker), target);
    forall v | v != taker && Drives(w.Port(p), v)
      ensures matched == if CalledBy(v, target) then RecordOf(w.Port(p), v) else None
    {
      SoleHolderMatches(w.ports[p], taker, v, target);
    }
    if matched.Some? {
      ListedWriterDrives(w.ports[p], matched.value);
      MatchedTakeWins(cfg, w, taker, p, target, env, matched.value);
    } else {
      UnmatchedTakeIsRefused(cfg, w, taker, p, target, env);
    }
  }

  lemma MatchedTakeWins(cfg: Config, w: World, taker: ClientId, p: PortName, target: string, env: Env, victim: Record)
    requires Idle(cfg, w) && NamedClients(cfg) && OnePort(cfg, p)
    requires w.SeatedAt(taker, p) && DrivesFor(cfg, taker, p)
    requires MatchTakeTarget(Holders(w.Port(p).records, taker), target) == Some(victim)
    ensures var (w', a) := RunAlone(cfg, w, Take(taker, p, Some(target)), env);
      Wins(cfg, w, w', a, taker, p, Granted, Some(victim.client))
  {
    IdlePlaces(cfg, w, taker, p);
    EntitledTakeIsLocal(cfg, w, taker, p, Some(target));
    ListedWriterDrives(w.ports[p], victim);
    TakeFromWins(cfg, w, Take(taker, p, Some(target)), victim.client, env);
  }

  // A take that is refused at once runs no further.
  lemma RefusedTakeRunsAlone(cfg: Config, w: World, taker: ClientId, p: PortName, target: Option<string>, code: Code,
                             env: Env)
    requires !KindOf(code).Notice? && BeginTake(cfg, w, taker, p, target) == Seg(w, Answered(code, ReadOnly), [])
    ensures RunAlone(cfg, w, Take(taker, p, target), env) == (w, Say(code, ReadOnly))
  {
    DoneIsFinal(cfg, Seg(w, Answered(code, ReadOnly), []), Take(taker, p, target), env);
    assert Begin(cfg, w, Take(taker, p, target), env.now) == Seg(w, Answered(code, ReadOnly), []);
  }

  lemma UnmatchedTakeEnds(cfg: Config, w: World, taker: ClientId, p: PortName, target: string) returns (code: Code)
    requires Idle(cfg, w) && NamedClients(cfg) && OnePort(cfg, p)
    requires w.SeatedAt(taker, p) && DrivesFor(cfg, taker, p)
    requires MatchTakeTarget(Holders(w.Port(p).records, taker), target) == None
    ensures code.NoHolder? || code.InvalidTarget?
    ensures BeginTake(cfg, w, taker, p, Some(target)) == Seg(w, Answered(code, ReadOnly), [])
  {
    EntitledTakeIsLocal(cfg, w, taker, p, Some(target));
    code := ResolveTakeTarget(w.Port(p), taker, Some(target)).code;
  }

  lemma UnmatchedTakeIsRefused(cfg: Config, w: World, taker: ClientId, p: PortName, target: string, env: Env)
    requires Idle(cfg, w) && NamedClients(cfg) && OnePort(cfg, p)
    requires w.SeatedAt(taker, p) && DrivesFor(cfg, taker, p)
    requires MatchTakeTarget(Holders(w.Port(p).records, taker), target) == None
    ensures var (w', a) := RunAlone(cfg, w, Take(taker, p, Some(target)), env);
      w' == w && a.Decided? && !a.decision.Grants()
  {
    var code := UnmatchedTakeEnds(cfg, w, taker, p, target);
    RefusedTakeRunsAlone(cfg, w, taker, p, Some(target), code, env);
  }

  lemma SoleWriterSeesNoHolder(ps: PortState, c: ClientId)
    requires UniqueIds(ps.records) && Writers(ps.records) <= 1 && Drives(ps, c)
    ensures Holders(ps.records, c) == []
  {
    var hs := Holders(ps.records, c);
    if hs != [] {
      assert hs[0] in hs;
      ListedWriterDrives(ps, hs[0]);
      OneDriver(ps, c, hs[0].client);
    }
  }

  // Refusals need not report the mode: the holder of a one-seat port that names any target is
  // told it is read-only, while nothing changes and its record stays read-write.
  lemma HolderNamingATargetIsMisreported(cfg: Config, w: World, taker: ClientId, p: PortName, target: string, env: Env)
    requires Idle(cfg, w) && NamedClients(cfg) && OnePort(cfg, p)
    requires w.SeatedAt(taker, p) && DrivesFor(cfg, taker, p) && Drives(w.Port(p), taker)
    ensures var (w', a) := RunAlone(cfg, w, Take(taker, p, Some(target)), env);
      w' == w && a == Decided(Decide(NoHolder, ReadOnly)) && Drives(w'.Port(p), taker)
  {
    HolderFindsNoHolder(cfg, w, taker, p, target);
    RefusedTakeRunsAlone(cfg, w, taker, p, Some(target), NoHolder, env);
  }

  lemma HolderFindsNoHolder(cfg: Config, w: World, taker: ClientId, p: PortName, target: string)
    requires Idle(cfg, w) && NamedClients(cfg) && OnePort(cfg, p)
    requires w.SeatedAt(taker, p) && DrivesFor(cfg, taker, p) && Drives(w.Port(p), taker)
    ensures BeginTake(cfg, w, taker, p, Some(target)) == Seg(w, Answered(NoHolder, ReadOnly), [])
  {
    OnePortHasOneSeat(cfg, p);
    IdlePlaces(cfg, w, taker, p);
    SoleWriterSeesNoHolder(w.ports[p], taker);
    EntitledTakeIsLocal(cfg, w, taker, p, Some(target));
  }

  // ------------------------------------------------------- the mode reported

  // The record holds the mode the answer reports.
  ghost predicate Truthful(w: World, req: Request, a: Answer) {
    a.Decided? && a.decision.Grants() ==>
      Attached(w.Port(req.port), req.client) && RecordOf(w.Port(req.port), req.client).value.mode == a.decision.mode
  }

  lemma ModeAfterPromote(cfg: Config, w: World, c: ClientId, p: PortName)
    requires PortsSound(cfg, w) && Did(cfg, w, p, Promote(c))
    ensures PortsSound(cfg, Do(cfg, w, p, Promote(c))) && Drives(Do(cfg, w, p, Promote(c)).Port(p), c)
  {
    CallMovesRecords(cfg.ports[p], w.ports[p], Promote(c), c);
    CallKeepsSound(cfg.ports[p], w.ports[p], Promote(c));
  }

  lemma StartedDrives(cfg: Config, w: World, c: ClientId, p: PortName)
    requires PortsSound(cfg, w)
    ensures var r := StartPromotion(cfg, w, c, p); r.Promoted? ==> Drives(r.world.Port(p), c)
  {
    PromotionCases(cfg, w, c, p);
    if Did(cfg, w, p, Promote(c)) {
      ModeAfterPromote(cfg, w, c, p);
    }
  }

  lemma AnsweredDrives(cfg: Config, w: World, c: ClientId, p: PortName, reply: Reply)
    requires PortsSound(cfg, w)
    ensures var r := AnswerPromotion(cfg, w, c, p, reply); r.Promoted? ==> Drives(r.world.Port(p), c)
  {
    if AnswerPromotion(cfg, w, c, p, reply).Promoted? {
      ModeAfterPromote(cfg, w, c, p);
      ModeAfterPromote(cfg, Do(cfg, w, p, Promote(c)), c, p);
    }
  }

  lemma PromotionAloneDrives(cfg: Config, w: World, c: ClientId, p: PortName, reply: Reply)
    requires PortsSound(cfg, w)
    ensures var r := PromotionAlone(cfg, w, c, p, reply); r.Promoted? ==> Drives(r.world.Port(p), c)
  {
    StartedDrives(cfg, w, c, p);
    AnsweredDrives(cfg, w, c, p, reply);
  }

  lemma ModeAfterAdd(cfg: Config, w: World, p: PortName, call: Call)
    requires PortsSound(cfg, w) && call.Add? && Did(cfg, w, p, call)
    ensures var added := Do(cfg, w, p, call);
      && PortsSound(cfg, added) && Attached(added.Port(p), call.client)
      && RecordOf(added.Port(p), call.client).value.mode == call.mode
  {
    CallMovesRecords(cfg.ports[p], w.ports[p], call, call.client);
    CallKeepsSound(cfg.ports[p], w.ports[p], call);
  }

  lemma AdmittedTruthful(cfg: Config, added: World, req: Request, entitled: Mode, mode: Mode, code: Code, env: Env)
    requires PortsSound(cfg, added) && !KindOf(code).Notice?
    requires Attached(added.Port(req.port), req.client)
    requires RecordOf(added.Port(req.port), req.client).value.mode ==
      if Federated(cfg, req.port) then ReadOnly else mode
    ensures var (w', a) := AdmittedAlone(cfg, added, req.client, req.port, entitled, mode, code, env);
      Truthful(w', req, a)
  {
    var c, p := req.client, req.port;
    var seated := TakeSeat(added, c, p);
    assert seated.Port(p) == added.Port(p);
    if Did(cfg, seated, p, Promote(c)) {
      ModeAfterPromote(cfg, seated, c, p);
    }
  }

  lemma AttachTruthful(cfg: Config, w: World, req: Request, env: Env)
    requires PortsSound(cfg, w) && req.Connect?
    ensures var (w', a) := AttachAlone(cfg, w, req.client, req.port, req.username, env); Truthful(w', req, a)
  {
    var c, p, u := req.client, req.port, req.username;
    if u in cfg.permissions {
      var (code, entitled) := ResolveAccessMode(cfg, cfg.Port(p), w.Port(p), cfg.permissions[u], u);
      if Ok(code) {
        var mode := if Federated(cfg, p) then ReadOnly else entitled;
        var first, second := Add(c, u, mode, env.now), Add(c, u, ReadOnly, env.now);
        if Did(cfg, w, p, first) {
          AdmitRunsAlone(cfg, Do(cfg, w, p, first), req, entitled, mode, code, [At(p, first)], env);
          ModeAfterAdd(cfg, w, p, first);
          AdmittedTruthful(cfg, Do(cfg, w, p, first), req, entitled, mode, code, env);
        } else if mode.ReadWrite? && Did(cfg, w, p, second) {
          AdmitRunsAlone(cfg, Do(cfg, w, p, second), req, entitled, ReadOnly, CapacityFull,
                         [At(p, first), At(p, second)], env);
          ModeAfterAdd(cfg, w, p, second);
          AdmittedTruthful(cfg, Do(cfg, w, p, second), req, entitled, ReadOnly, CapacityFull, env);
        }
      }
    }
  }

  lemma EmptyTakeTruthful(cfg: Config, w: World, req: Request, env: Env)
    requires PortsSound(cfg, w) && req.port in cfg.ports && !Federated(cfg, req.port)
    ensures var (w', a) := Finish(cfg, TakeEmpty(cfg, w, req.client, req.port), req, env); Truthful(w', req, a)
  {
    SeatIsDriving(w.ports[req.port], req.client);
    StartedDrives(cfg, w, req.client, req.port);
    TakeOfEmptyRunsAlone(cfg, w, req.client, req.port, req, env);
  }

  lemma TransferTruthful(cfg: Config, w: World, req: Request, victim: ClientId, env: Env)
    requires PortsSound(cfg, w)
    ensures var (w', a) := Finish(cfg, DemoteVictim(cfg, w, victim, req.port), req, env); Truthful(w', req, a)
  {
    var p := req.port;
    TakeFromRunsAlone(cfg, w, victim, req, env);
    if w.SeatedAt(victim, p) && Did(cfg, w, p, Demote(victim)) {
      DemotionKeepsSound(cfg, w, p, victim);
      TransferAnswerTruthful(cfg, Do(cfg, w, p, Demote(victim)), req, victim);
    }
  }

  lemma DemotionKeepsSound(cfg: Config, w: World, p: PortName, c: ClientId)
    requires PortsSound(cfg, w) && p in cfg.ports
    ensures PortsSound(cfg, Do(cfg, w, p, Demote(c)))
  {
    CallKeepsSound(cfg.ports[p], w.ports[p], Demote(c));
  }

  lemma TransferAnswerTruthful(cfg: Config, w: World, req: Request, victim: ClientId)
    requires PortsSound(cfg, w)
    ensures var (w', a) := TransferAlone(cfg, w, req.client, req.port, victim); Truthful(w', req, a)
  {
    StartedDrives(cfg, w, req.client, req.port);
  }

  lemma RefusalIsTruthful(cfg: Config, w: World, req: Request, seg: Seg, env: Env)
    requires RefusedAtOnce(w, seg)
    ensures var (w', a) := Finish(cfg, seg, req, env); Truthful(w', req, a)
  {
    DoneIsFinal(cfg, seg, req, env);
  }

  lemma HeldTakeTruthful(cfg: Config, w: World, req: Request, env: Env)
    requires PortsSound(cfg, w) && req.port in cfg.ports && HoldsSeat(w.Port(req.port).records, req.client)
    ensures var (w', a) := Finish(cfg, Seg(w, Answered(AlreadyRw, ReadWrite), []), req, env); Truthful(w', req, a)
  {
    DoneIsFinal(cfg, Seg(w, Answered(AlreadyRw, ReadWrite), []), req, env);
    SeatIsDriving(w.ports[req.port], req.client);
  }

  lemma LocalTakeTruthful(cfg: Config, w: World, req: Request, env: Env)
    requires PortsSound(cfg, w) && req.Take? && Local(cfg, req.port)
    ensures var (w', a) := Finish(cfg, TakeLocal(cfg, w, req.client, req.port, req.target), req, env);
      Truthful(w', req, a)
  {
    var seg := TakeLocal(cfg, w, req.client, req.port, req.target);
    var choice := ResolveTakeTarget(w.Port(req.port), req.client, req.target);
    TakeLocalCases(cfg, w, req.client, req.port, req.target);
    if RefusedAtOnce(w, seg) {
      RefusalIsTruthful(cfg, w, req, seg, env);
    } else if HoldsSeat(w.Port(req.port).records, req.client) && seg == Seg(w, Answered(AlreadyRw, ReadWrite), []) {
      HeldTakeTruthful(cfg, w, req, env);
    } else if choice.Chosen? {
      TransferTruthful(cfg, w, req, choice.victim.client, env);
    } else {
      EmptyTakeTruthful(cfg, w, req, env);
    }
  }

  lemma MirrorTruthful(r: Promotion, req: Request)
    requires req.Take? && !r.MustAsk? && (r.Promoted? ==> Drives(r.world.Port(req.port), req.client))
    ensures Truthful(MirrorAnswer(r, req.port, req.target).0, req, MirrorAnswer(r, req.port, req.target).1)
  {
  }

  lemma FederatedTakeTruthful(cfg: Config, w: World, req: Request, env: Env)
    requires PortsSound(cfg, w) && req.Take?
    ensures var (w', a) := Finish(cfg, Seg(w, Wait(TakeAsking), []), req, env); Truthful(w', req, a)
  {
    PromotionAloneDrives(cfg, w, req.client, req.port, env.ask);
    MirrorTruthful(PromotionAlone(cfg, w, req.client, req.port, env.ask), req);
    FederatedTakeRunsAlone(cfg, w, req, env);
  }

  lemma TakeTruthful(cfg: Config, w: World, req: Request, env: Env)
    requires PortsSound(cfg, w) && req.Take?
    ensures var (w', a) := RunAlone(cfg, w, req, env); Truthful(w', req, a)
  {
    var seg := BeginTake(cfg, w, req.client, req.port, req.target);
    BeginTakeCases(cfg, w, req.client, req.port, req.target);
    if RefusedAtOnce(w, seg) {
      RefusalIsTruthful(cfg, w, req, seg, env);
    } else if Federated(cfg, req.port) {
      FederatedTakeTruthful(cfg, w, req, env);
    } else {
      LocalTakeTruthful(cfg, w, req, env);
    }
  }

  lemma PromotionTruthful(r: Promotion, req: Request)
    requires !r.MustAsk? && (r.Refused? ==> KindOf(r.code).Refusal? || KindOf(r.code).Unavailable?)
    requires r.Promoted? ==> Drives(r.world.Port(req.port), req.client)
    ensures Truthful(PromotionAnswer(r).0, req, PromotionAnswer(r).1)
  {
  }

  lemma RequestTruthful(cfg: Config, w: World, req: Request, env: Env)
    requires PortsSound(cfg, w) && req.RequestWrite?
    ensures var (w', a) := RunAlone(cfg, w, req, env); Truthful(w', req, a)
  {
    RequestRunsAlone(cfg, w, req.client, req.port, env);
    PromotionAloneDrives(cfg, w, req.client, req.port, env.ask);
    PromotionTruthful(PromotionAlone(cfg, w, req.client, req.port, env.ask), req);
  }

  lemma ConnectTruthful(cfg: Config, w: World, req: Request, env: Env)
    requires PortsSound(cfg, w) && req.Connect?
    ensures var (w', a) := RunAlone(cfg, w, req, env); Truthful(w', req, a)
  {
    var c := req.client;
    ConnectRunsAlone(cfg, w, c, req.port, req.username, env);
    if c in w.seat {
      var former := w.seat[c];
      if former in cfg.ports {
        CallKeepsSound(cfg.ports[former], w.ports[former], Remove(c));
      }
      AttachTruthful(cfg, LeaveAlone(cfg, w, c, former), req, env);
    } else {
      AttachTruthful(cfg, w, req, env);
    }
  }

  lemma GiveUpTruthful(cfg: Config, w: World, req: Request, env: Env)
    requires PortsSound(cfg, w) && req.GiveUpWrite?
    ensures var (w', a) := RunAlone(cfg, w, req, env); Truthful(w', req, a)
  {
    var c, p := req.client, req.port;
    GiveUpRunsAlone(cfg, w, c, p, req.notifyOrigin, env);
    if Did(cfg, w, p, Demote(c)) {
      CallMovesRecords(cfg.ports[p], w.ports[p], Demote(c), c);
    }
  }

  // Run to completion, every granting answer reports the mode the record now
  // holds: attaches, promotions, releases and takes, local and federated,
  // whatever the origin replies.
  lemma GrantsReportTheMode(cfg: Config, w: World, req: Request, env: Env)
    requires PortsSound(cfg, w)
    ensures var (w', a) := RunAlone(cfg, w, req, env); Truthful(w', req, a)
  {
    match req
    case Connect(_, _, _) => ConnectTruthful(cfg, w, req, env);
    case Disconnect(c, p) => DisconnectRunsAlone(cfg, w, c, p, env);
    case RequestWrite(_, _) => RequestTruthful(cfg, w, req, env);
    case GiveUpWrite(_, _, _) => GiveUpTruthful(cfg, w, req, env);
    case Take(_, _, _) => TakeTruthful(cfg, w, req, env);
  }

  // ------------------------------------------------------------ idle to idle

  lemma FinishKeepsAgreement(cfg: Config, s: System, session: SessionId, req: Request, seg: Seg, env: Env)
    requires NamedClients(cfg) && Agreed(cfg, Settle(s, session, req, seg))
    requires !req.GiveUpWrite? && session == req.client
    requires session !in s.pending
    ensures Agreed(cfg, System(Finish(cfg, seg, req, env).0, s.pending))
    decreases if seg.outcome.Wait? then 1 + Rank(seg.outcome.phase) else 0
  {
    var settled := Settle(s, session, req, seg);
    if seg.outcome.Wait? {
      var phase := seg.outcome.phase;
      var input := Continue(session, ReplyFor(phase, env), env.now);
      var next := Resume(cfg, seg.world, req, phase, ReplyFor(phase, env), env.now);
      PhasesAdvance(cfg, seg.world, req, phase, ReplyFor(phase, env), env.now);
      StepAgrees(cfg, settled, input);
      assert Step(cfg, settled, input).pending == Settle(s, session, req, next).pending;
      FinishKeepsAgreement(cfg, s, session, req, next, env);
    } else {
      assert settled.pending == s.pending;
    }
  }

  // A request run to completion leaves an idle system idle.
  lemma RequestsKeepIdle(cfg: Config, w: World, req: Request, env: Env)
    requires NamedClients(cfg) && Idle(cfg, w) && req.client in cfg.clients
    requires req.Connect? ==> req.username == cfg.clients[req.client]
    ensures Idle(cfg, RunAlone(cfg, w, req, env).0)
  {
    var s := System(w, map[]);
    if req.GiveUpWrite? {
      GiveUpRunsAlone(cfg, w, req.client, req.port, req.notifyOrigin, env);
      ModeCallKeeps(cfg, w, req.port, Demote(req.client));
      StillWorldAgrees(cfg, s, Do(cfg, w, req.port, Demote(req.client)));
    } else {
      StepAgrees(cfg, s, Start(req.client, req, env.now));
      FinishKeepsAgreement(cfg, s, req.client, req, Begin(cfg, w, req, env.now), env);
    }
  }

  lemma ServerStartsIdle(cfg: Config)
    ensures Idle(cfg, Initial(cfg).world)
  {
    InitialAgrees(cfg);
  }
}
