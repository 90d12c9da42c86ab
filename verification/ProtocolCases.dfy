/** Where each segment of a request can end, case by case: the facts about `Begin` and `Resume` that
    the proofs about runs need, without their definitions. */
module ProtocolCases {
  import opened Prelude
  import opened AccessControl
  import opened PortSeats
  import opened AccessDecision
  import opened AccessLadder
  import opened Protocol

  predicate Local(cfg: Config, p: PortName) { p in cfg.ports && !Federated(cfg, p) }

  // A refusal that reports read-only and changes nothing.
  predicate RefusedAtOnce(w: World, seg: Seg) {
    && seg.world == w
    && seg.outcome.Done? && seg.outcome.answer.Decided?
    && seg.outcome.answer.decision.mode == ReadOnly && !seg.outcome.answer.decision.Grants()
  }

  // --------------------------------------------------------------- promotion

  lemma PromotionCases(cfg: Config, w: World, c: ClientId, p: PortName)
    ensures var r := StartPromotion(cfg, w, c, p);
      || (r.MustAsk? && Federated(cfg, p) && w.SeatedAt(c, p) && Standing(cfg, w, c, p).MayWrite?)
      || (r.Refused? && r.world == w)
      || (r.Promoted? && !Federated(cfg, p) && Did(cfg, w, p, Promote(c)) && Standing(cfg, w, c, p).MayWrite?
          && r.world == Do(cfg, w, p, Promote(c)))
  {
  }

  lemma AnswerWorlds(cfg: Config, w: World, c: ClientId, p: PortName, reply: Reply)
    ensures var once := Do(cfg, w, p, Promote(c));
      AnswerPromotion(cfg, w, c, p, reply).world in {w, once, Do(cfg, once, p, Promote(c))}
  {
  }

  lemma RequestCases(cfg: Config, w: World, req: Request, now: real)
    requires req.RequestWrite?
    ensures var r, seg := StartPromotion(cfg, w, req.client, req.port), Begin(cfg, w, req, now);
      match r
      case MustAsk => seg == Seg(w, Wait(PromoteAsking), [])
      case Promoted(world, calls) => seg == Seg(world, Wait(PromoteAnnounce), calls)
      case Refused(code, world, calls) => seg == Seg(world, Answered(code, ReadOnly), calls)
  {
  }

  // -------------------------------------------------------------------- take

  lemma BeginTakeCases(cfg: Config, w: World, taker: ClientId, p: PortName, target: Option<string>)
    ensures var seg := BeginTake(cfg, w, taker, p, target);
      || RefusedAtOnce(w, seg)
      || (w.SeatedAt(taker, p) && p in cfg.ports && Standing(cfg, w, taker, p).MayWrite?
          && seg == if Federated(cfg, p) then Seg(w, Wait(TakeAsking), []) else TakeLocal(cfg, w, taker, p, target))
  {
  }

  predicate OneSeat(cfg: Config, p: PortName) {
    p in cfg.ports && WireToMode(cfg.ports[p].maxReadWriteUsers).OneWriter?
  }

  lemma TakeLocalCases(cfg: Config, w: World, taker: ClientId, p: PortName, target: Option<string>)
    requires p in cfg.ports
    ensures var seg, choice := TakeLocal(cfg, w, taker, p, target), ResolveTakeTarget(w.Port(p), taker, target);
      || RefusedAtOnce(w, seg)
      || (HoldsSeat(w.Port(p).records, taker) && seg == Seg(w, Answered(AlreadyRw, ReadWrite), []))
      || (OneSeat(cfg, p) && choice.Chosen? && seg == DemoteVictim(cfg, w, choice.victim.client, p))
      || (OneSeat(cfg, p) && choice.NoChoice? && target.None? && seg == TakeEmpty(cfg, w, taker, p))
  {
  }

  lemma DemoteVictimCases(cfg: Config, w: World, victim: ClientId, p: PortName)
    ensures var seg := DemoteVictim(cfg, w, victim, p);
      || RefusedAtOnce(w, seg)
      || (seg.outcome == Wait(TakeDemoted(victim)) && seg.world == Do(cfg, w, p, Demote(victim)))
  {
  }

  lemma TakeEmptyCases(cfg: Config, w: World, taker: ClientId, p: PortName)
    ensures var seg, r := TakeEmpty(cfg, w, taker, p), StartPromotion(cfg, w, taker, p);
      || (seg.world == w && seg.outcome.Done?)
      || (r.Promoted? && seg.world == r.world && seg.outcome == Wait(TakeEmptyAnnounce))
  {
  }

  lemma RestoreWorlds(cfg: Config, w: World, taker: ClientId, p: PortName, victim: ClientId)
    ensures var r, seg := StartPromotion(cfg, w, taker, p), PromoteOrRestore(cfg, w, taker, p, victim);
      if r.Promoted? then seg.world == r.world && seg.outcome == Wait(TakePromoted(victim))
      else seg.world == Do(cfg, w, p, Promote(victim)) && seg.outcome.Done?
  {
  }

  // ----------------------------------------------------------- origin's answers

  lemma OpenedCases(cfg: Config, w: World, req: Request, entitled: Mode, code: Code, reply: Reply, now: real)
    ensures Resume(cfg, w, req, AttachOpening(entitled, code), reply, now) ==
      Seg(TakeSeat(w, req.client, req.port),
          Wait(if entitled.ReadWrite? then AttachAsking else AttachAnnounce(ReadOnly, code)), [])
  {
  }

  lemma AttachAskedCases(cfg: Config, w: World, req: Request, reply: Reply, now: real)
    ensures var seg := Resume(cfg, w, req, AttachAsking, reply, now);
      if reply.GrantsWrite() && Did(cfg, w, req.port, Promote(req.client)) then
        seg.world == Do(cfg, w, req.port, Promote(req.client))
        && seg.outcome == Wait(AttachAnnounce(ReadWrite, AttachedCode))
      else seg.world == w && seg.outcome == Wait(AttachAnnounce(ReadOnly, CapacityFull))
  {
  }

  lemma PromoteAskedCases(cfg: Config, w: World, req: Request, reply: Reply, now: real)
    ensures var r, seg := AnswerPromotion(cfg, w, req.client, req.port, reply),
                          Resume(cfg, w, req, PromoteAsking, reply, now);
      seg == Seg(r.world, if r.Promoted? then Wait(PromoteAnnounce) else Answered(r.code, ReadOnly), r.calls)
  {
  }

  lemma MirrorAskedCases(cfg: Config, w: World, req: Request, reply: Reply, now: real)
    ensures var r, seg := AnswerPromotion(cfg, w, req.client, req.port, reply),
                          Resume(cfg, w, req, TakeMirrorAsking, reply, now);
      seg == Seg(r.world, if r.Promoted? then Wait(TakeMirrorAnnounce) else Answered(PromoteFailed, ReadOnly), r.calls)
  {
  }

  lemma TakeAskedCases(cfg: Config, w: World, req: Request, reply: Reply, now: real)
    ensures var r, seg := StartPromotion(cfg, w, req.client, req.port), Resume(cfg, w, req, TakeAsking, reply, now);
      if !reply.GrantsWrite() then seg == Seg(w, Answered(FederationDenied, ReadOnly), [])
      else if r.MustAsk? then seg == Seg(w, Wait(TakeMirrorAsking), [])
      else seg == Seg(r.world, if r.Promoted? then Wait(TakeMirrorAnnounce) else Answered(PromoteFailed, ReadOnly),
                      r.calls)
  {
  }

  // ----------------------------------------------------------- phases that rest

  // Nothing but the result is left to announce.
  predicate Announces(phase: Phase) {
    phase.AttachAnnounce? || phase.DetachAnnounce? || phase.PromoteAnnounce? || phase.DemoteReleasing?
    || phase.DemoteAnnounce? || phase.TakePromoted? || phase.TakeNotify? || phase.TakeEmptyAnnounce?
    || phase.TakeMirrorAnnounce?
  }

  lemma AnsweredCases(cfg: Config, w: World, req: Request, phase: Phase, reply: Reply, now: real)
    requires phase.PromoteAsking? || phase.TakeMirrorAsking?
    ensures var seg := Resume(cfg, w, req, phase, reply, now);
      && seg.world == AnswerPromotion(cfg, w, req.client, req.port, reply).world
      && (seg.outcome.Wait? ==> Announces(seg.outcome.phase))
  {
    if phase.PromoteAsking? {
      PromoteAskedCases(cfg, w, req, reply, now);
    } else {
      MirrorAskedCases(cfg, w, req, reply, now);
    }
  }

  lemma AnnouncingCases(cfg: Config, w: World, req: Request, phase: Phase, reply: Reply, now: real)
    requires Announces(phase)
    ensures var seg := Resume(cfg, w, req, phase, reply, now);
      && seg.world == w && seg.calls == []
      && (seg.outcome.Wait? ==>
            || (phase.DemoteReleasing? && seg.outcome.phase.DemoteAnnounce?)
            || (phase.TakePromoted? && seg.outcome.phase.TakeNotify?))
  {
  }

  // Closing a stream, attaching after a departure, and handing over a seat.
  lemma ClosingCases(cfg: Config, w: World, req: Request, reply: Reply, now: real)
    ensures Resume(cfg, w, req, ConnectClosing, reply, now) == ForgetSeat(w, req.client, ConnectLeft, [])
    ensures Resume(cfg, w, req, DetachClosing, reply, now) == ForgetSeat(w, req.client, DetachAnnounce, [])
  {
  }

  lemma LeaveCases(cfg: Config, w: World, c: ClientId, p: PortName, closing: Phase, next: Phase)
    ensures var seg := LeavePort(cfg, w, c, p, closing, next);
      && seg.world.ports == Do(cfg, w, p, Remove(c)).ports
      && (seg.outcome.Wait? ==> seg.outcome.phase == closing || seg.outcome.phase == next)
  {
  }

  lemma LeftCases(cfg: Config, w: World, req: Request, reply: Reply, now: real)
    ensures Resume(cfg, w, req, ConnectLeft, reply, now) ==
      AttachSeg(cfg, w, req.client, req.port, if req.Connect? then req.username else "", now)
  {
  }

  lemma DemotedCases(cfg: Config, w: World, req: Request, victim: ClientId, reply: Reply, now: real)
    ensures Resume(cfg, w, req, TakeDemoted(victim), reply, now) ==
      PromoteOrRestore(cfg, w, req.client, req.port, victim)
  {
  }

  lemma GiveUpCases(cfg: Config, w: World, req: Request, now: real)
    requires req.GiveUpWrite?
    ensures var seg := Begin(cfg, w, req, now);
      || (seg.world == w && seg.outcome.Done?)
      || (seg.world == Do(cfg, w, req.port, Demote(req.client)) && seg.outcome.Wait?
          && (seg.outcome.phase.DemoteReleasing? || seg.outcome.phase.DemoteAnnounce?))
  {
  }

  lemma AttachPhases(cfg: Config, w: World, c: ClientId, p: PortName, u: Username, now: real)
    ensures var next := AttachSeg(cfg, w, c, p, u, now).outcome;
      next.Wait? ==> next.phase.AttachOpening? || next.phase.AttachAnnounce?
  {
  }
}
