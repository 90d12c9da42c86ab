/** Exactly when a writer need not be entitled: a client asked about while it is not listed on a
    federated port passes by its adapter's name, re-attaches, and the origin's answer seats it. */
module EntitlementGap {
  import opened AccessControl
  import opened PortSeats
  import opened AccessDecision
  import opened AccessLadder
  import opened Protocol
  import opened ProtocolSafety
  import opened ProtocolAgreement
  import opened ProtocolEntitlement

  // Known before any run: a user who may watch the federated port but not drive it, whose adapter
  // reports a name that passes without a record, on a port that has a seat at all.
  predicate Gap(cfg: Config, c: ClientId, p: PortName) {
    && Federated(cfg, p) && cfg.ports[p].Capacity() != Finite(0)
    && c in cfg.clients && MaySit(cfg, p, cfg.clients[c]) && !MayDrive(cfg, p, cfg.clients[c])
    && UnlistedMayWrite(cfg, c, p)
  }

  // ---------------------------------------------------------------- the segments

  const OPENING := AttachOpening(ReadOnly, ReadOnlyStanding)

  function Idle(cfg: Config): World { Initial(cfg).world }

  function Sitting(cfg: Config, c: ClientId): PortState
    requires c in cfg.clients
  {
    NEW_PORT.(records := [Record(c, cfg.clients[c], ReadOnly, 0.0)], queues := map[c := []])
  }

  function Listed(cfg: Config, c: ClientId, p: PortName): World
    requires c in cfg.clients
  {
    Idle(cfg).(ports := Idle(cfg).ports[p := Sitting(cfg, c)])
  }

  // Still seated, no longer listed: the stream of the port is closing.
  function Closing(cfg: Config, c: ClientId, p: PortName): World {
    TakeSeat(Idle(cfg), c, p)
  }

  function Join(cfg: Config, c: ClientId, p: PortName): Request
    requires c in cfg.clients
  {
    Connect(c, p, cfg.clients[c])
  }

  lemma Joins(cfg: Config, c: ClientId, p: PortName)
    requires Gap(cfg, c, p)
    ensures var seg := Begin(cfg, Idle(cfg), Join(cfg, c, p), 0.0);
      seg.world == Listed(cfg, c, p) && seg.outcome == Wait(OPENING)
  {
    var r := Record(c, cfg.clients[c], ReadOnly, 0.0);
    assert NEW_PORT.records + [r] == [r];
  }

  lemma Sits(cfg: Config, c: ClientId, p: PortName)
    requires Gap(cfg, c, p)
    ensures var seg := Resume(cfg, Listed(cfg, c, p), Join(cfg, c, p), OPENING, Nothing, 0.0);
      && seg.world == TakeSeat(Listed(cfg, c, p), c, p)
      && seg.outcome == Wait(AttachAnnounce(ReadOnly, ReadOnlyStanding))
  {
  }

  lemma Leaves(cfg: Config, c: ClientId, p: PortName)
    requires Gap(cfg, c, p)
    ensures var seg := Begin(cfg, TakeSeat(Listed(cfg, c, p), c, p), Disconnect(c, p), 0.0);
      seg.world == Closing(cfg, c, p) && seg.outcome == Wait(DetachClosing)
  {
    var ps := Sitting(cfg, c);
    assert Without(ps.records, 0) == [];
    assert ps.queues - {c} == map[];
    assert Apply(cfg.ports[p], ps, Remove(c)) == NEW_PORT;
    assert Idle(cfg).ports[p := ps][p := NEW_PORT] == Idle(cfg).ports;
  }

  lemma AsksUnlisted(cfg: Config, c: ClientId, p: PortName)
    requires Gap(cfg, c, p)
    ensures var seg := Begin(cfg, Closing(cfg, c, p), RequestWrite(c, p), 0.0);
      seg.world == Closing(cfg, c, p) && seg.outcome == Wait(PromoteAsking)
  {
  }

  lemma Forgets(cfg: Config, c: ClientId, p: PortName)
    ensures var seg := Resume(cfg, Closing(cfg, c, p), Disconnect(c, p), DetachClosing, Nothing, 0.0);
      seg.world == Idle(cfg) && seg.outcome == Wait(DetachAnnounce)
  {
    assert map[c := p] - {c} == map[];
  }

  lemma IsSeated(cfg: Config, c: ClientId, p: PortName)
    requires Gap(cfg, c, p)
    ensures var seg := Resume(cfg, Listed(cfg, c, p), RequestWrite(c, p), PromoteAsking, OriginSays("read-write"), 0.0);
      Drives(seg.world.Port(p), c)
  {
    var w := Listed(cfg, c, p);
    var ps := w.ports[p];
    assert ps.records[..0] == [];
    assert Writers(ps.records) == 0;
    assert Did(cfg, w, p, Promote(c));
    var once := Apply(cfg.ports[p], ps, Promote(c));
    assert once.records == [Record(c, cfg.clients[c], ReadWrite, 0.0)];
    assert once.records[0].client == c && once.records[0].mode.ReadWrite?;
  }

  // ----------------------------------------------------------------------- the run

  // Some run from here ends with the client driving the port.
  ghost predicate CanSeat(cfg: Config, s: System, c: ClientId, p: PortName) {
    exists run :: ValidRun(cfg, s, run) && Drives(After(cfg, s, run).world.Port(p), c)
  }

  lemma OneStepEarlier(cfg: Config, s: System, input: Input, c: ClientId, p: PortName)
    requires Enabled(cfg, s, input) && CanSeat(cfg, Step(cfg, s, input), c, p)
    ensures CanSeat(cfg, s, c, p)
  {
    var rest :| ValidRun(cfg, Step(cfg, s, input), rest)
      && Drives(After(cfg, Step(cfg, s, input), rest).world.Port(p), c);
    RunOn(cfg, s, input, rest);
  }

  lemma StartCanSeat(cfg: Config, s: System, session: SessionId, req: Request, w: World, phase: Phase,
                     c: ClientId, p: PortName)
    requires Enabled(cfg, s, Start(session, req, 0.0))
    requires Begin(cfg, s.world, req, 0.0).world == w && Begin(cfg, s.world, req, 0.0).outcome == Wait(phase)
    requires CanSeat(cfg, System(w, s.pending[session := Pending(req, phase)]), c, p)
    ensures CanSeat(cfg, s, c, p)
  {
    StartWaits(cfg, s, session, req, 0.0, w, phase);
    OneStepEarlier(cfg, s, Start(session, req, 0.0), c, p);
  }

  lemma ContinueCanSeat(cfg: Config, s: System, session: SessionId, w: World, phase: Phase, c: ClientId, p: PortName)
    requires session in s.pending
    requires var seg := Resume(cfg, s.world, s.pending[session].req, s.pending[session].phase, Nothing, 0.0);
      seg.world == w && seg.outcome == Wait(phase)
    requires CanSeat(cfg, System(w, s.pending[session := Pending(s.pending[session].req, phase)]), c, p)
    ensures CanSeat(cfg, s, c, p)
  {
    ContinueWaits(cfg, s, session, Nothing, 0.0, w, phase);
    OneStepEarlier(cfg, s, Continue(session, Nothing, 0.0), c, p);
  }

  // The origin answers a request that was asked while the client was not listed.
  lemma AnswerSeats(cfg: Config, s: System, c: ClientId, p: PortName)
    requires Gap(cfg, c, p) && s.world == Listed(cfg, c, p)
    requires "ask" in s.pending && s.pending["ask"] == Pending(RequestWrite(c, p), PromoteAsking)
    ensures CanSeat(cfg, s, c, p)
  {
    var input := Continue("ask", OriginSays("read-write"), 0.0);
    IsSeated(cfg, c, p);
    assert ValidRun(cfg, Step(cfg, s, input), []) && After(cfg, Step(cfg, s, input), []) == Step(cfg, s, input);
    OneStepEarlier(cfg, s, input, c, p);
  }

  // It attaches again first.
  lemma ReturnSeats(cfg: Config, s: System, c: ClientId, p: PortName)
    requires Gap(cfg, c, p) && s.world == Idle(cfg) && "back" !in s.pending
    requires "ask" in s.pending && s.pending["ask"] == Pending(RequestWrite(c, p), PromoteAsking)
    ensures CanSeat(cfg, s, c, p)
  {
    var join := Join(cfg, c, p);
    Joins(cfg, c, p);
    AnswerSeats(cfg, System(Listed(cfg, c, p), s.pending["back" := Pending(join, OPENING)]), c, p);
    StartCanSeat(cfg, s, "back", join, Listed(cfg, c, p), OPENING, c, p);
  }

  // Its former stream was still closing.
  lemma ClosingSeats(cfg: Config, s: System, c: ClientId, p: PortName)
    requires Gap(cfg, c, p) && s.world == Closing(cfg, c, p) && "back" !in s.pending
    requires "ask" in s.pending && s.pending["ask"] == Pending(RequestWrite(c, p), PromoteAsking)
    requires "leave" in s.pending && s.pending["leave"] == Pending(Disconnect(c, p), DetachClosing)
    ensures CanSeat(cfg, s, c, p)
  {
    Forgets(cfg, c, p);
    ReturnSeats(cfg, System(Idle(cfg), s.pending["leave" := Pending(Disconnect(c, p), DetachAnnounce)]), c, p);
    ContinueCanSeat(cfg, s, "leave", Idle(cfg), DetachAnnounce, c, p);
  }

  lemma AskingSeats(cfg: Config, s: System, c: ClientId, p: PortName)
    requires Gap(cfg, c, p) && s.world == Closing(cfg, c, p) && "back" !in s.pending && "ask" !in s.pending
    requires "leave" in s.pending && s.pending["leave"] == Pending(Disconnect(c, p), DetachClosing)
    ensures CanSeat(cfg, s, c, p)
  {
    AsksUnlisted(cfg, c, p);
    ClosingSeats(cfg, s.(pending := s.pending["ask" := Pending(RequestWrite(c, p), PromoteAsking)]), c, p);
    StartCanSeat(cfg, s, "ask", RequestWrite(c, p), Closing(cfg, c, p), PromoteAsking, c, p);
  }

  lemma LeavingSeats(cfg: Config, s: System, c: ClientId, p: PortName)
    requires Gap(cfg, c, p) && s.world == TakeSeat(Listed(cfg, c, p), c, p)
    requires "back" !in s.pending && "ask" !in s.pending && "leave" !in s.pending
    ensures CanSeat(cfg, s, c, p)
  {
    var w := Closing(cfg, c, p);
    Leaves(cfg, c, p);
    AskingSeats(cfg, System(w, s.pending["leave" := Pending(Disconnect(c, p), DetachClosing)]), c, p);
    StartCanSeat(cfg, s, "leave", Disconnect(c, p), w, DetachClosing, c, p);
  }

  // The client attaches and leaves; while the stream closes, a promotion is asked for; the client
  // attaches again, and then the origin answers.
  lemma GapSeats(cfg: Config, c: ClientId, p: PortName)
    requires Gap(cfg, c, p)
    ensures CanSeat(cfg, Initial(cfg), c, p)
  {
    var join, sat := Join(cfg, c, p), TakeSeat(Listed(cfg, c, p), c, p);
    var first := System(Listed(cfg, c, p), map["join" := Pending(join, OPENING)]);
    var announce := AttachAnnounce(ReadOnly, ReadOnlyStanding);
    Joins(cfg, c, p);
    Sits(cfg, c, p);
    LeavingSeats(cfg, System(sat, first.pending["join" := Pending(join, announce)]), c, p);
    ContinueCanSeat(cfg, first, "join", sat, announce, c, p);
    StartCanSeat(cfg, Initial(cfg), "join", join, first.world, OPENING, c, p);
  }

  // A client that is not entitled can come to drive a port in some run if and only if there is a gap.
  lemma UnentitledWriterExactly(cfg: Config, c: ClientId, p: PortName)
    requires NamedClients(cfg) && p in cfg.ports && !DrivesFor(cfg, c, p)
    ensures CanSeat(cfg, Initial(cfg), c, p) <==> Gap(cfg, c, p)
  {
    if Gap(cfg, c, p) {
      GapSeats(cfg, c, p);
    }
    if CanSeat(cfg, Initial(cfg), c, p) {
      var run :| ValidRun(cfg, Initial(cfg), run) && Drives(After(cfg, Initial(cfg), run).world.Port(p), c);
      WritersMayHold(cfg, run, c, p);
    }
  }
}
