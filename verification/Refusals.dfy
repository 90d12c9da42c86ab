/** What a refusal reports. A granting answer always carries the mode the client then holds; this
    module says exactly when a refusing one does. */
module Refusals {
  import opened Prelude
  import opened PortSeats
  import opened AccessDecision
  import opened AccessLadder
  import opened Protocol
  import opened ProtocolCases
  import opened ProtocolSafety
  import opened ProtocolAlone
  import opened Takeover

  predicate Refuses(a: Answer) { a.Decided? && !a.decision.Grants() }

  // The client may write exactly when the answer says so.
  predicate Reports(w: World, req: Request, a: Answer) {
    a.Decided? && (Drives(w.Port(req.port), req.client) <==> a.decision.mode.ReadWrite?)
  }

  // A refusal in this mode that leaves the client driving or not as it was.
  predicate StaysWith(w: World, w': World, req: Request, a: Answer, mode: Mode) {
    Refuses(a) ==>
      && a.decision.mode == mode
      && (Drives(w'.Port(req.port), req.client) <==> Drives(w.Port(req.port), req.client))
  }

  // ---------------------------------------------------------------- promotion

  lemma PromotedOnceIsPromotedTwice(pc: PortConfig, ps: PortState, c: ClientId)
    requires Accepts(pc, ps, Promote(c))
    ensures Accepts(pc, Apply(pc, ps, Promote(c)), Promote(c))
  {
    var rs', i := Apply(pc, ps, Promote(c)).records, IndexOf(ps.records, c);
    assert rs'[i].client == c && rs'[i].mode.ReadWrite?;
  }

  lemma RefusedAnswerKeeps(cfg: Config, w: World, c: ClientId, p: PortName, reply: Reply)
    ensures var r := AnswerPromotion(cfg, w, c, p, reply); r.Refused? ==> r.world == w
  {
    if Did(cfg, w, p, Promote(c)) {
      PromotedOnceIsPromotedTwice(cfg.ports[p], w.ports[p], c);
    }
  }

  // A refused promotion changes nothing, whatever the origin answered.
  lemma RefusedPromotionKeeps(cfg: Config, w: World, c: ClientId, p: PortName, reply: Reply)
    ensures var r := PromotionAlone(cfg, w, c, p, reply); r.Refused? ==> r.world == w
  {
    PromotionExplained(cfg, w, c, p);
    RefusedAnswerKeeps(cfg, w, c, p, reply);
  }

  lemma RequestRefused(cfg: Config, w: World, req: Request, env: Env)
    requires req.RequestWrite?
    ensures var (w', a) := RunAlone(cfg, w, req, env); StaysWith(w, w', req, a, ReadOnly)
  {
    RequestRunsAlone(cfg, w, req.client, req.port, env);
    RefusedPromotionKeeps(cfg, w, req.client, req.port, env.ask);
  }

  lemma GiveUpRefused(cfg: Config, w: World, req: Request, env: Env)
    requires req.GiveUpWrite?
    ensures var (w', a) := RunAlone(cfg, w, req, env); StaysWith(w, w', req, a, ReadWrite)
  {
    GiveUpRunsAlone(cfg, w, req.client, req.port, req.notifyOrigin, env);
  }

  // --------------------------------------------------------------------- take

  lemma FederatedTakeRefused(cfg: Config, w: World, req: Request, env: Env)
    requires req.Take?
    ensures var (w', a) := Finish(cfg, Seg(w, Wait(TakeAsking), []), req, env); StaysWith(w, w', req, a, ReadOnly)
  {
    FederatedTakeRunsAlone(cfg, w, req, env);
    RefusedPromotionKeeps(cfg, w, req.client, req.port, env.ask);
  }

  // A victim demoted and put back leaves everyone else as they were.
  lemma RestoredKeepsOthers(cfg: Config, w: World, p: PortName, victim: ClientId, d: ClientId)
    requires PortsSound(cfg, w) && victim != d
    ensures var back := Do(cfg, Do(cfg, w, p, Demote(victim)), p, Promote(victim));
      Drives(back.Port(p), d) <==> Drives(w.Port(p), d)
  {
    if p in cfg.ports {
      var demoted := Apply(cfg.ports[p], w.ports[p], Demote(victim));
      CallMovesRecords(cfg.ports[p], w.ports[p], Demote(victim), d);
      CallMovesRecords(cfg.ports[p], demoted, Promote(victim), d);
    }
  }

  lemma TransferRefused(cfg: Config, w: World, req: Request, victim: ClientId, env: Env)
    requires PortsSound(cfg, w) && victim != req.client
    ensures var (w', a) := Finish(cfg, DemoteVictim(cfg, w, victim, req.port), req, env);
      StaysWith(w, w', req, a, ReadOnly)
  {
    var p := req.port;
    var demoted := Do(cfg, w, p, Demote(victim));
    TakeFromRunsAlone(cfg, w, victim, req, env);
    PromotionExplained(cfg, demoted, req.client, p);
    RestoredKeepsOthers(cfg, w, p, victim, req.client);
  }

  lemma EmptyTakeRefused(cfg: Config, w: World, req: Request, env: Env)
    requires !Federated(cfg, req.port)
    ensures var (w', a) := Finish(cfg, TakeEmpty(cfg, w, req.client, req.port), req, env);
      StaysWith(w, w', req, a, ReadOnly)
  {
    TakeOfEmptyRunsAlone(cfg, w, req.client, req.port, req, env);
  }

  lemma RefusedAtOnceStays(cfg: Config, w: World, req: Request, seg: Seg, env: Env)
    requires RefusedAtOnce(w, seg)
    ensures var (w', a) := Finish(cfg, seg, req, env); StaysWith(w, w', req, a, ReadOnly)
  {
    DoneIsFinal(cfg, seg, req, env);
  }

  lemma LocalTakeRefused(cfg: Config, w: World, req: Request, env: Env)
    requires PortsSound(cfg, w) && req.Take? && Local(cfg, req.port)
    ensures var (w', a) := Finish(cfg, TakeLocal(cfg, w, req.client, req.port, req.target), req, env);
      StaysWith(w, w', req, a, ReadOnly)
  {
    var seg := TakeLocal(cfg, w, req.client, req.port, req.target);
    var choice := ResolveTakeTarget(w.Port(req.port), req.client, req.target);
    TakeLocalCases(cfg, w, req.client, req.port, req.target);
    if RefusedAtOnce(w, seg) {
      RefusedAtOnceStays(cfg, w, req, seg, env);
    } else if seg.outcome == Answered(AlreadyRw, ReadWrite) {
      DoneIsFinal(cfg, seg, req, env);
    } else if choice.Chosen? {
      TransferRefused(cfg, w, req, choice.victim.client, env);
    } else {
      EmptyTakeRefused(cfg, w, req, env);
    }
  }

  lemma TakeRefused(cfg: Config, w: World, req: Request, env: Env)
    requires PortsSound(cfg, w) && req.Take?
    ensures var (w', a) := RunAlone(cfg, w, req, env); StaysWith(w, w', req, a, ReadOnly)
  {
    var seg := BeginTake(cfg, w, req.client, req.port, req.target);
    BeginTakeCases(cfg, w, req.client, req.port, req.target);
    if RefusedAtOnce(w, seg) {
      RefusedAtOnceStays(cfg, w, req, seg, env);
    } else if Federated(cfg, req.port) {
      FederatedTakeRefused(cfg, w, req, env);
    } else {
      LocalTakeRefused(cfg, w, req, env);
    }
  }

  // ------------------------------------------------------------------ connect

  // Once a record was added, every answer grants.
  lemma AdmittedIsGranted(cfg: Config, w: World, req: Request, entitled: Mode, mode: Mode, code: Code, env: Env)
    requires Ok(code) && !KindOf(code).Notice?
    ensures !Refuses(AdmittedAlone(cfg, w, req.client, req.port, entitled, mode, code, env).1)
  {
  }

  lemma AttachRefused(cfg: Config, w: World, req: Request, env: Env)
    requires req.Connect?
    ensures var (w', a) := AttachAlone(cfg, w, req.client, req.port, req.username, env);
      Refuses(a) ==> w' == w && a.decision.mode == ReadOnly
  {
    var c, p, u := req.client, req.port, req.username;
    if u in cfg.permissions {
      var (code, entitled) := ResolveAccessMode(cfg, cfg.Port(p), w.Port(p), cfg.permissions[u], u);
      if Ok(code) {
        var mode := if Federated(cfg, p) then ReadOnly else entitled;
        var first, second := Add(c, u, mode, env.now), Add(c, u, ReadOnly, env.now);
        if Did(cfg, w, p, first) {
          AdmitRunsAlone(cfg, Do(cfg, w, p, first), req, entitled, mode, code, [At(p, first)], env);
          AdmittedIsGranted(cfg, Do(cfg, w, p, first), req, entitled, mode, code, env);
        } else if mode.ReadWrite? && Did(cfg, w, p, second) {
          AdmitRunsAlone(cfg, Do(cfg, w, p, second), req, entitled, ReadOnly, CapacityFull,
                         [At(p, first), At(p, second)], env);
          AdmittedIsGranted(cfg, Do(cfg, w, p, second), req, entitled, ReadOnly, CapacityFull, env);
        }
      }
    }
  }

  // A connect first leaves the port the client sits on, and that alone can unseat it.
  lemma LeavingUnseats(cfg: Config, w: World, c: ClientId, p: PortName)
    requires PortsSound(cfg, w) && c in w.seat
    ensures var left := LeaveAlone(cfg, w, c, w.seat[c]);
      Drives(left.Port(p), c) <==> Drives(w.Port(p), c) && !w.SeatedAt(c, p)
  {
    if p in cfg.ports && w.SeatedAt(c, p) {
      CallMovesRecords(cfg.ports[p], w.ports[p], Remove(c), c);
    }
  }

  // -------------------------------------------------------------------- exact

  // Known before the request is made. A refused connect has already left the port the client sat on.
  predicate RefusalWouldBeTrue(w: World, req: Request) {
    match req
    case Connect(c, p, _) => !Drives(w.Port(p), c) || w.SeatedAt(c, p)
    case Disconnect(_, _) => true
    case RequestWrite(c, p) => !Drives(w.Port(p), c)
    case GiveUpWrite(c, p, _) => Drives(w.Port(p), c)
    case Take(c, p, _) => !Drives(w.Port(p), c)
  }

  // Run to completion, a refusal of any request, local or federated, whatever the origin replies,
  // reports the client's standing if and only if that condition held before.
  lemma RefusalsReportTheModeExactly(cfg: Config, w: World, req: Request, env: Env)
    requires PortsSound(cfg, w)
    ensures var (w', a) := RunAlone(cfg, w, req, env);
      Refuses(a) ==> (Reports(w', req, a) <==> RefusalWouldBeTrue(w, req))
  {
    match req
    case Connect(c, p, u) =>
      ConnectRunsAlone(cfg, w, c, p, u, env);
      if c in w.seat {
        LeavingUnseats(cfg, w, c, p);
        AttachRefused(cfg, LeaveAlone(cfg, w, c, w.seat[c]), req, env);
      } else {
        AttachRefused(cfg, w, req, env);
      }
    case Disconnect(c, p) => DisconnectRunsAlone(cfg, w, c, p, env);
    case RequestWrite(_, _) => RequestRefused(cfg, w, req, env);
    case GiveUpWrite(_, _, _) => GiveUpRefused(cfg, w, req, env);
    case Take(_, _, _) => TakeRefused(cfg, w, req, env);
  }

  // From a state in which all maps agree, a refused connect always tells the truth.
  lemma ConnectRefusalsAreTrue(cfg: Config, w: World, req: Request, env: Env)
    requires Idle(cfg, w) && req.Connect?
    ensures var (w', a) := RunAlone(cfg, w, req, env); Refuses(a) ==> Reports(w', req, a)
  {
    RefusalsReportTheModeExactly(cfg, w, req, env);
    if req.port in cfg.ports {
      IdlePlaces(cfg, w, req.client, req.port);
    }
  }

  // A writer on a federated port whom the origin then denies is told it is read-only, for a request
  // and a take alike, while nothing changes and its record stays read-write.
  lemma DeniedWriterIsMisreported(cfg: Config, w: World, c: ClientId, p: PortName, target: Option<string>, env: Env)
    requires Federated(cfg, p) && w.SeatedAt(c, p) && Drives(w.Port(p), c) && Standing(cfg, w, c, p).MayWrite?
    ensures !env.ask.GrantsWrite() ==>
      RunAlone(cfg, w, RequestWrite(c, p), env) == (w, Say(FederationDenied, ReadOnly))
    ensures !env.take.GrantsWrite() ==>
      RunAlone(cfg, w, Take(c, p, target), env) == (w, Say(FederationDenied, ReadOnly))
  {
    RequestRunsAlone(cfg, w, c, p, env);
    FederatedTakeRunsAlone(cfg, w, Take(c, p, target), env);
  }
}
