/** A request run to completion: its own segments back to back, nothing in between. */
module ProtocolAlone {
  import opened Prelude
  import opened PortSeats
  import opened AccessDecision
  import opened AccessLadder
  import opened Protocol
  import opened ProtocolCases

  // The time of the request and what the origin answers, to a take and to a promotion.
  datatype Env = Env(now: real, take: Reply, ask: Reply)

  function Rank(phase: Phase): nat {
    match phase
    case ConnectClosing => 6
    case ConnectLeft => 5
    case AttachOpening(_, _) => 3
    case AttachAsking => 2
    case AttachAnnounce(_, _) => 1
    case DetachClosing => 2
    case DetachAnnounce => 1
    case PromoteAsking => 2
    case PromoteAnnounce => 1
    case DemoteReleasing => 2
    case DemoteAnnounce => 1
    case TakeDemoted(_) => 4
    case TakePromoted(_) => 3
    case TakeNotify(_) => 2
    case TakeEmptyAnnounce => 1
    case TakeAsking => 3
    case TakeMirrorAsking => 2
    case TakeMirrorAnnounce => 1
  }

  function ReplyFor(phase: Phase, env: Env): Reply { if phase.TakeAsking? then env.take else env.ask }

  lemma AttachAskingAdvances(cfg: Config, w: World, req: Request, reply: Reply, now: real)
    ensures var next := Resume(cfg, w, req, AttachAsking, reply, now).outcome; next.Wait? ==> Rank(next.phase) == 1
  {
    AttachAskedCases(cfg, w, req, reply, now);
  }

  lemma PromoteAskingAdvances(cfg: Config, w: World, req: Request, reply: Reply, now: real)
    ensures var next := Resume(cfg, w, req, PromoteAsking, reply, now).outcome; next.Wait? ==> Rank(next.phase) == 1
  {
    PromoteAskedCases(cfg, w, req, reply, now);
  }

  lemma TakeAskingAdvances(cfg: Config, w: World, req: Request, reply: Reply, now: real)
    ensures var next := Resume(cfg, w, req, TakeAsking, reply, now).outcome; next.Wait? ==> Rank(next.phase) <= 2
  {
    TakeAskedCases(cfg, w, req, reply, now);
  }

  lemma MirrorAskingAdvances(cfg: Config, w: World, req: Request, reply: Reply, now: real)
    ensures var next := Resume(cfg, w, req, TakeMirrorAsking, reply, now).outcome; next.Wait? ==> Rank(next.phase) == 1
  {
    MirrorAskedCases(cfg, w, req, reply, now);
  }

  // A request suspends a bounded number of times.
  lemma PhasesAdvance(cfg: Config, w: World, req: Request, phase: Phase, reply: Reply, now: real)
    ensures var next := Resume(cfg, w, req, phase, reply, now).outcome; next.Wait? ==> Rank(next.phase) < Rank(phase)
  {
    if Announces(phase) {
      AnnouncingCases(cfg, w, req, phase, reply, now);
    } else if phase.ConnectClosing? || phase.DetachClosing? {
      ClosingCases(cfg, w, req, reply, now);
    } else if phase.ConnectLeft? {
      LeftCases(cfg, w, req, reply, now);
      AttachPhases(cfg, w, req.client, req.port, if req.Connect? then req.username else "", now);
    } else if phase.TakeDemoted? {
      DemotedCases(cfg, w, req, phase.victim, reply, now);
      RestoreWorlds(cfg, w, req.client, req.port, phase.victim);
    } else if phase.AttachOpening? {
      OpenedCases(cfg, w, req, phase.entitled, phase.code, reply, now);
    } else if phase.AttachAsking? {
      AttachAskingAdvances(cfg, w, req, reply, now);
    } else if phase.PromoteAsking? {
      PromoteAskingAdvances(cfg, w, req, reply, now);
    } else if phase.TakeAsking? {
      TakeAskingAdvances(cfg, w, req, reply, now);
    } else {
      MirrorAskingAdvances(cfg, w, req, reply, now);
    }
  }

  function Finish(cfg: Config, seg: Seg, req: Request, env: Env): (World, Answer)
    decreases if seg.outcome.Wait? then 1 + Rank(seg.outcome.phase) else 0
  {
    match seg.outcome
    case Done(answer) => (seg.world, answer)
    case Wait(phase) =>
      PhasesAdvance(cfg, seg.world, req, phase, ReplyFor(phase, env), env.now);
      Finish(cfg, Resume(cfg, seg.world, req, phase, ReplyFor(phase, env), env.now), req, env)
  }

  function RunAlone(cfg: Config, w: World, req: Request, env: Env): (World, Answer) {
    Finish(cfg, Begin(cfg, w, req, env.now), req, env)
  }

  function Say(code: Code, mode: Mode): Answer
    requires !KindOf(code).Notice?
  {
    Decided(Decide(code, mode))
  }

  lemma DoneIsFinal(cfg: Config, seg: Seg, req: Request, env: Env)
    requires seg.outcome.Done?
    ensures Finish(cfg, seg, req, env) == (seg.world, seg.outcome.answer)
  {
  }

  // One suspension further.
  lemma GoOn(cfg: Config, w: World, phase: Phase, calls: seq<PortCall>, req: Request, env: Env)
    ensures Finish(cfg, Seg(w, Wait(phase), calls), req, env)
         == Finish(cfg, Resume(cfg, w, req, phase, ReplyFor(phase, env), env.now), req, env)
  {
  }

  // ------------------------------------------------------------ closed forms

  function GiveUpAlone(cfg: Config, w: World, c: ClientId, p: PortName): (World, Answer) {
    if !w.SeatedAt(c, p) then (w, Say(NotAttached, ReadWrite))
    else if !Did(cfg, w, p, Demote(c)) then (w, Say(DemoteFailed, ReadWrite))
    else (Do(cfg, w, p, Demote(c)), Say(Released, ReadOnly))
  }

  lemma GiveUpRunsAlone(cfg: Config, w: World, c: ClientId, p: PortName, notify: bool, env: Env)
    ensures RunAlone(cfg, w, GiveUpWrite(c, p, notify), env) == GiveUpAlone(cfg, w, c, p)
  {
    var req, demoted := GiveUpWrite(c, p, notify), Do(cfg, w, p, Demote(c));
    GoOn(cfg, demoted, DemoteReleasing, [At(p, Demote(c))], req, env);
    GoOn(cfg, demoted, DemoteAnnounce, [At(p, Demote(c))], req, env);
    GoOn(cfg, demoted, DemoteAnnounce, [], req, env);
  }

  function PromotionAnswer(r: Promotion): (World, Answer)
    requires !r.MustAsk? && (r.Refused? ==> !KindOf(r.code).Notice?)
  {
    match r
    case Promoted(world, _) => (world, Say(Granted, ReadWrite))
    case Refused(code, world, _) => (world, Say(code, ReadOnly))
  }

  function PromotionAlone(cfg: Config, w: World, c: ClientId, p: PortName, reply: Reply): (r: Promotion)
    ensures !r.MustAsk?
    ensures r.Refused? ==> KindOf(r.code).Refusal? || KindOf(r.code).Unavailable?
  {
    var first := StartPromotion(cfg, w, c, p);
    if first.MustAsk? then AnswerPromotion(cfg, w, c, p, reply) else first
  }

  lemma RequestRunsAlone(cfg: Config, w: World, c: ClientId, p: PortName, env: Env)
    ensures RunAlone(cfg, w, RequestWrite(c, p), env) == PromotionAnswer(PromotionAlone(cfg, w, c, p, env.ask))
  {
    var req, first := RequestWrite(c, p), StartPromotion(cfg, w, c, p);
    RequestCases(cfg, w, req, env.now);
    if first.MustAsk? {
      var second := AnswerPromotion(cfg, w, c, p, env.ask);
      GoOn(cfg, w, PromoteAsking, [], req, env);
      PromoteAskedCases(cfg, w, req, env.ask, env.now);
      PromotedRunsAlone(cfg, second, req, env);
    } else {
      PromotedRunsAlone(cfg, first, req, env);
    }
  }

  // A decided promotion only has its result to announce.
  lemma PromotedRunsAlone(cfg: Config, r: Promotion, req: Request, env: Env)
    requires !r.MustAsk? && (r.Refused? ==> !KindOf(r.code).Notice?)
    ensures var outcome := if r.Promoted? then Wait(PromoteAnnounce) else Answered(r.code, ReadOnly);
      Finish(cfg, Seg(r.world, outcome, r.calls), req, env) == PromotionAnswer(r)
  {
    if r.Promoted? {
      GoOn(cfg, r.world, PromoteAnnounce, r.calls, req, env);
    }
  }

  // A request is granted exactly when its promotion is, whatever the origin answers.
  lemma RequestVerdict(cfg: Config, w: World, c: ClientId, p: PortName, env: Env)
    ensures var (w', a) := RunAlone(cfg, w, RequestWrite(c, p), env);
      var r := PromotionAlone(cfg, w, c, p, env.ask);
      w' == r.world && a.Decided? && (a.decision.Grants() <==> r.Promoted?)
  {
    RequestRunsAlone(cfg, w, c, p, env);
  }

  // On a local port, a request is granted exactly when its promotion is.
  lemma LocalRequestVerdict(cfg: Config, w: World, c: ClientId, p: PortName, env: Env)
    requires !Federated(cfg, p)
    ensures var (w', a) := RunAlone(cfg, w, RequestWrite(c, p), env);
      var r := StartPromotion(cfg, w, c, p);
      !r.MustAsk? && w' == r.world && a.Decided? && (a.decision.Grants() <==> r.Promoted?)
  {
    RequestVerdict(cfg, w, c, p, env);
  }

  lemma GiveUpVerdict(cfg: Config, w: World, c: ClientId, p: PortName, notify: bool, env: Env)
    ensures var (w', a) := RunAlone(cfg, w, GiveUpWrite(c, p, notify), env);
      && a.Decided? && (a.decision.Grants() <==> w.SeatedAt(c, p) && Did(cfg, w, p, Demote(c)))
      && w' == if a.decision.Grants() then Do(cfg, w, p, Demote(c)) else w
  {
    GiveUpRunsAlone(cfg, w, c, p, notify, env);
  }

  function LeaveAlone(cfg: Config, w: World, c: ClientId, p: PortName): World {
    var left := Do(cfg, w, p, Remove(c));
    left.(tasks := left.tasks - {c}, seat := left.seat - {c})
  }

  lemma DisconnectRunsAlone(cfg: Config, w: World, c: ClientId, p: PortName, env: Env)
    ensures RunAlone(cfg, w, Disconnect(c, p), env)
         == if w.SeatedAt(c, p) then (LeaveAlone(cfg, w, c, p), Detached(true)) else (w, Detached(false))
  {
    if w.SeatedAt(c, p) {
      var req, left, calls := Disconnect(c, p), Do(cfg, w, p, Remove(c)), [At(p, Remove(c))];
      GoOn(cfg, left, DetachClosing, calls, req, env);
      GoOn(cfg, LeaveAlone(cfg, w, c, p), DetachAnnounce, calls, req, env);
      GoOn(cfg, LeaveAlone(cfg, w, c, p), DetachAnnounce, [], req, env);
    }
  }

  // The attach part of a connect, with the origin's verdict on a federated port.
  function AttachAlone(cfg: Config, w: World, c: ClientId, p: PortName, u: Username, env: Env): (World, Answer) {
    Finish(cfg, AttachSeg(cfg, w, c, p, u, env.now), Connect(c, p, u), env)
  }

  lemma ConnectRunsAlone(cfg: Config, w: World, c: ClientId, p: PortName, u: Username, env: Env)
    ensures RunAlone(cfg, w, Connect(c, p, u), env)
         == AttachAlone(cfg, if c in w.seat then LeaveAlone(cfg, w, c, w.seat[c]) else w, c, p, u, env)
  {
    if c in w.seat {
      var req, left, calls := Connect(c, p, u), Do(cfg, w, w.seat[c], Remove(c)), [At(w.seat[c], Remove(c))];
      GoOn(cfg, left, ConnectClosing, calls, req, env);
      GoOn(cfg, LeaveAlone(cfg, w, c, w.seat[c]), ConnectLeft, calls, req, env);
      GoOn(cfg, LeaveAlone(cfg, w, c, w.seat[c]), ConnectLeft, [], req, env);
    }
  }

  // What an admitted client ends up with.
  function AdmittedAlone(cfg: Config, w: World, c: ClientId, p: PortName, entitled: Mode, mode: Mode, code: Code,
                         env: Env)
    : (World, Answer)
    requires !KindOf(code).Notice?
  {
    var seated := TakeSeat(w, c, p);
    if !Federated(cfg, p) then (seated, Say(code, mode))
    else if !entitled.ReadWrite? then (seated, Say(code, ReadOnly))
    else if env.ask.GrantsWrite() && Did(cfg, seated, p, Promote(c)) then
      (Do(cfg, seated, p, Promote(c)), Say(AttachedCode, ReadWrite))
    else (seated, Say(CapacityFull, ReadOnly))
  }

  lemma AttachAnnouncementEnds(cfg: Config, w: World, mode: Mode, code: Code, calls: seq<PortCall>,
                               req: Request, env: Env)
    requires !KindOf(code).Notice?
    ensures Finish(cfg, Seg(w, Wait(AttachAnnounce(mode, code)), calls), req, env) == (w, Say(code, mode))
  {
    GoOn(cfg, w, AttachAnnounce(mode, code), calls, req, env);
  }

  lemma AttachAskedRunsAlone(cfg: Config, w: World, req: Request, env: Env)
    ensures Finish(cfg, Seg(w, Wait(AttachAsking), []), req, env) ==
      if env.ask.GrantsWrite() && Did(cfg, w, req.port, Promote(req.client)) then
        (Do(cfg, w, req.port, Promote(req.client)), Say(AttachedCode, ReadWrite))
      else (w, Say(CapacityFull, ReadOnly))
  {
    var asked := Resume(cfg, w, req, AttachAsking, env.ask, env.now);
    GoOn(cfg, w, AttachAsking, [], req, env);
    AttachAskedCases(cfg, w, req, env.ask, env.now);
    AttachAnnouncementEnds(cfg, asked.world, asked.outcome.phase.mode, asked.outcome.phase.code, asked.calls, req, env);
  }

  lemma AdmitRunsAlone(cfg: Config, w: World, req: Request, entitled: Mode, mode: Mode, code: Code,
                       calls: seq<PortCall>, env: Env)
    requires !KindOf(code).Notice?
    ensures Finish(cfg, Admit(w, req.client, req.port, Federated(cfg, req.port), entitled, mode, code, calls), req, env)
         == AdmittedAlone(cfg, w, req.client, req.port, entitled, mode, code, env)
  {
    var seated := TakeSeat(w, req.client, req.port);
    if !Federated(cfg, req.port) {
      AttachAnnouncementEnds(cfg, seated, mode, code, calls, req, env);
    } else {
      GoOn(cfg, w, AttachOpening(entitled, code), calls, req, env);
      OpenedCases(cfg, w, req, entitled, code, ReplyFor(AttachOpening(entitled, code), env), env.now);
      if entitled.ReadWrite? {
        AttachAskedRunsAlone(cfg, seated, req, env);
      } else {
        AttachAnnouncementEnds(cfg, seated, ReadOnly, code, [], req, env);
      }
    }
  }

  lemma TakeOfEmptyRunsAlone(cfg: Config, w: World, taker: ClientId, p: PortName, req: Request, env: Env)
    requires !Federated(cfg, p)
    ensures Finish(cfg, TakeEmpty(cfg, w, taker, p), req, env) ==
      if HoldsSeat(w.Port(p).records, taker) then (w, Say(AlreadyRw, ReadWrite))
      else
        var r := StartPromotion(cfg, w, taker, p);
        if r.Promoted? then (r.world, Say(Granted, ReadWrite))
        else (w, Say(SeatRefusalCode(cfg.Port(p)), ReadOnly))
  {
    var r := StartPromotion(cfg, w, taker, p);
    if r.Promoted? {
      GoOn(cfg, r.world, TakeEmptyAnnounce, r.calls, req, env);
    }
  }

  // The end of a take on a local port once the victim is demoted.
  function TransferAlone(cfg: Config, w: World, taker: ClientId, p: PortName, victim: ClientId): (World, Answer) {
    var r := StartPromotion(cfg, w, taker, p);
    if r.Promoted? then (r.world, Decided(Decision(Granted, ReadWrite, Some(victim))))
    else (Do(cfg, if r.Refused? then r.world else w, p, Promote(victim)), Say(SeatRefusalCode(cfg.Port(p)), ReadOnly))
  }

  lemma TransferRunsAlone(cfg: Config, w: World, victim: ClientId, req: Request, env: Env)
    ensures Finish(cfg, PromoteOrRestore(cfg, w, req.client, req.port, victim), req, env)
         == TransferAlone(cfg, w, req.client, req.port, victim)
  {
    var next := PromoteOrRestore(cfg, w, req.client, req.port, victim);
    if next.outcome.Wait? {
      GoOn(cfg, next.world, TakePromoted(victim), next.calls, req, env);
      GoOn(cfg, next.world, TakeNotify(victim), [], req, env);
    }
  }

  lemma TakeFromRunsAlone(cfg: Config, w: World, victim: ClientId, req: Request, env: Env)
    ensures Finish(cfg, DemoteVictim(cfg, w, victim, req.port), req, env) ==
      if !w.SeatedAt(victim, req.port) || !Did(cfg, w, req.port, Demote(victim)) then
        (w, Say(VictimNotCurrent, ReadOnly))
      else TransferAlone(cfg, Do(cfg, w, req.port, Demote(victim)), req.client, req.port, victim)
  {
    var p := req.port;
    if w.SeatedAt(victim, p) && Did(cfg, w, p, Demote(victim)) {
      DemotedRunsAlone(cfg, Do(cfg, w, p, Demote(victim)), victim, [At(p, Demote(victim))], req, env);
    }
  }

  lemma DemotedRunsAlone(cfg: Config, w: World, victim: ClientId, calls: seq<PortCall>, req: Request, env: Env)
    ensures Finish(cfg, Seg(w, Wait(TakeDemoted(victim)), calls), req, env)
         == TransferAlone(cfg, w, req.client, req.port, victim)
  {
    GoOn(cfg, w, TakeDemoted(victim), calls, req, env);
    TransferRunsAlone(cfg, w, victim, req, env);
  }

  function MirrorAnswer(r: Promotion, p: PortName, target: Option<string>): (World, Answer)
    requires !r.MustAsk?
  {
    match r
    case Refused(_, world, _) => (world, Say(PromoteFailed, ReadOnly))
    case Promoted(world, _) => (world, Decided(Decision(Granted, ReadWrite, NamedVictim(world, p, target))))
  }

  function FederatedTakeAlone(cfg: Config, w: World, taker: ClientId, p: PortName, target: Option<string>, env: Env)
    : (World, Answer)
  {
    if !env.take.GrantsWrite() then (w, Say(FederationDenied, ReadOnly))
    else MirrorAnswer(PromotionAlone(cfg, w, taker, p, env.ask), p, target)
  }

  lemma MirrorRunsAlone(cfg: Config, r: Promotion, seg: Seg, req: Request, env: Env)
    requires req.Take? && !r.MustAsk?
    requires seg == if r.Promoted? then Seg(r.world, Wait(TakeMirrorAnnounce), r.calls)
                    else Seg(r.world, Answered(PromoteFailed, ReadOnly), r.calls)
    ensures Finish(cfg, seg, req, env) == MirrorAnswer(r, req.port, req.target)
  {
    if r.Promoted? {
      GoOn(cfg, r.world, TakeMirrorAnnounce, r.calls, req, env);
    }
  }

  lemma FederatedTakeRunsAlone(cfg: Config, w: World, req: Request, env: Env)
    requires req.Take?
    ensures Finish(cfg, Seg(w, Wait(TakeAsking), []), req, env)
         == FederatedTakeAlone(cfg, w, req.client, req.port, req.target, env)
  {
    GoOn(cfg, w, TakeAsking, [], req, env);
    if env.take.GrantsWrite() {
      GrantedTakeRunsAlone(cfg, w, req, env);
    }
  }

  lemma GrantedTakeRunsAlone(cfg: Config, w: World, req: Request, env: Env)
    requires req.Take? && env.take.GrantsWrite()
    ensures Finish(cfg, Resume(cfg, w, req, TakeAsking, env.take, env.now), req, env)
         == MirrorAnswer(PromotionAlone(cfg, w, req.client, req.port, env.ask), req.port, req.target)
  {
    var first := StartPromotion(cfg, w, req.client, req.port);
    if first.MustAsk? {
      GoOn(cfg, w, TakeMirrorAsking, [], req, env);
      AskedMirrorRunsAlone(cfg, w, req, env);
    } else {
      MirrorRunsAlone(cfg, first, Resume(cfg, w, req, TakeAsking, env.take, env.now), req, env);
    }
  }

  lemma AskedMirrorRunsAlone(cfg: Config, w: World, req: Request, env: Env)
    requires req.Take?
    ensures Finish(cfg, Resume(cfg, w, req, TakeMirrorAsking, env.ask, env.now), req, env)
         == MirrorAnswer(AnswerPromotion(cfg, w, req.client, req.port, env.ask), req.port, req.target)
  {
    MirrorRunsAlone(cfg, AnswerPromotion(cfg, w, req.client, req.port, env.ask),
                    Resume(cfg, w, req, TakeMirrorAsking, env.ask, env.now), req, env);
  }
}
