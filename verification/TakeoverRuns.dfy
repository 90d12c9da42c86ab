/** Takeovers over whole runs: with one request at a time per client the seat is never left empty,
    and a run with overlapping requests of one client in which it is. */
module TakeoverRuns {
  import opened Prelude
  import opened AccessControl
  import opened PortSeats
  import opened AccessDecision
  import opened AccessLadder
  import opened Protocol
  import opened ProtocolCases
  import opened ProtocolSafety
  import opened ProtocolAgreement
  import opened Takeover

  // ------------------------------------------------------- a writer is always left

  predicate Ready(cfg: Config, w: World, req: Request) {
    w.SeatedAt(req.client, req.port) && DrivesFor(cfg, req.client, req.port)
  }

  // Whoever waits for a demotion to be announced still sits on the port and may drive it.
  ghost predicate TakersReady(cfg: Config, s: System) {
    forall id :: id in s.pending && s.pending[id].phase.TakeDemoted? ==> Ready(cfg, s.world, s.pending[id].req)
  }

  lemma LocalTakeKeepsSeats(cfg: Config, w: World, taker: ClientId, p: PortName, target: Option<string>)
    requires p in cfg.ports
    ensures TakeLocal(cfg, w, taker, p, target).world.seat == w.seat
  {
    var choice := ResolveTakeTarget(w.Port(p), taker, target);
    TakeLocalCases(cfg, w, taker, p, target);
    TakeEmptyCases(cfg, w, taker, p);
    PromotionCases(cfg, w, taker, p);
    if choice.Chosen? {
      DemoteVictimCases(cfg, w, choice.victim.client, p);
    }
  }

  lemma DemotingTakeStands(cfg: Config, w: World, taker: ClientId, p: PortName, target: Option<string>)
    ensures var seg := BeginTake(cfg, w, taker, p, target);
      seg.outcome.Wait? && seg.outcome.phase.TakeDemoted? ==>
        && p in cfg.ports && w.SeatedAt(taker, p) && Standing(cfg, w, taker, p).MayWrite?
        && seg.world.seat == w.seat
  {
    BeginTakeCases(cfg, w, taker, p, target);
    if p in cfg.ports {
      LocalTakeKeepsSeats(cfg, w, taker, p, target);
    }
  }

  lemma DemotingTakeIsReady(cfg: Config, w: World, req: Request, now: real)
    requires Fit(cfg, w) && NamedClients(cfg) && Placed(cfg, w, req.client, None)
    ensures var seg := Begin(cfg, w, req, now);
      seg.outcome.Wait? && seg.outcome.phase.TakeDemoted? ==> Ready(cfg, seg.world, req)
  {
    var seg := Begin(cfg, w, req, now);
    BeginDemotesLocally(cfg, w, req, now);
    if seg.outcome.Wait? && seg.outcome.phase.TakeDemoted? {
      DemotingTakeStands(cfg, w, req.client, req.port, req.target);
      StandingIsRightful(cfg, w, req.client, req.port);
    }
  }

  // A segment that moves at most the client of its own session.
  lemma OwnSegKeepsReady(cfg: Config, s: System, session: SessionId, req: Request, seg: Seg)
    requires Agreed(cfg, s) && TakersReady(cfg, s)
    requires forall d :: d != session && d in s.world.seat ==>
      d in seg.world.seat && seg.world.seat[d] == s.world.seat[d]
    requires seg.outcome.Wait? && seg.outcome.phase.TakeDemoted? ==> Ready(cfg, seg.world, req)
    ensures TakersReady(cfg, Settle(s, session, req, seg))
  {
    var s' := Settle(s, session, req, seg);
    forall id | id in s'.pending && s'.pending[id].phase.TakeDemoted?
      ensures Ready(cfg, s'.world, s'.pending[id].req)
    {
      if id != session {
        assert s'.pending[id] == s.pending[id] && Ready(cfg, s.world, s.pending[id].req);
      }
    }
  }

  lemma StartKeepsReady(cfg: Config, s: System, session: SessionId, req: Request, now: real)
    requires NamedClients(cfg) && Agreed(cfg, s) && TakersReady(cfg, s)
    requires Enabled(cfg, s, Start(session, req, now)) && OwnSession(Start(session, req, now))
    ensures TakersReady(cfg, Settle(s, session, req, Begin(cfg, s.world, req, now)))
  {
    var seg := Begin(cfg, s.world, req, now);
    if req.GiveUpWrite? {
      BeginDemotion(cfg, s.world, req, now);
    } else {
      assert Placed(cfg, s.world, session, PendingOf(s, session));
      BeginKeeps(cfg, s.world, req, now);
      DemotingTakeIsReady(cfg, s.world, req, now);
    }
    OwnSegKeepsReady(cfg, s, session, req, seg);
  }

  lemma ContinueKeepsReady(cfg: Config, s: System, session: SessionId, reply: Reply, now: real)
    requires NamedClients(cfg) && Agreed(cfg, s) && TakersReady(cfg, s) && session in s.pending
    ensures var pending := s.pending[session];
      TakersReady(cfg, Settle(s, session, pending.req, Resume(cfg, s.world, pending.req, pending.phase, reply, now)))
  {
    var pending := s.pending[session];
    var seg := Resume(cfg, s.world, pending.req, pending.phase, reply, now);
    assert Cleared(cfg, pending);
    if pending.req.GiveUpWrite? {
      assert seg.world == s.world;
    } else {
      assert Placed(cfg, s.world, session, PendingOf(s, session));
      ResumeKeeps(cfg, s.world, pending.req, pending.phase, reply, now);
    }
    ResumeNeverDemotes(cfg, s.world, pending.req, pending.phase, reply, now);
    OwnSegKeepsReady(cfg, s, session, pending.req, seg);
  }

  lemma StepKeepsReady(cfg: Config, s: System, input: Input)
    requires NamedClients(cfg) && Agreed(cfg, s) && TakersReady(cfg, s)
    requires Enabled(cfg, s, input) && OwnSession(input)
    ensures TakersReady(cfg, Step(cfg, s, input))
  {
    match input
    case Start(session, req, now) => StartKeepsReady(cfg, s, session, req, now);
    case Continue(session, reply, now) => ContinueKeepsReady(cfg, s, session, reply, now);
    case Io(p, call) =>
      var s' := Step(cfg, s, input);
      assert s'.pending == s.pending && s'.world.seat == s.world.seat;
      forall id | id in s'.pending && s'.pending[id].phase.TakeDemoted?
        ensures Ready(cfg, s'.world, s'.pending[id].req)
      {
        assert Ready(cfg, s.world, s.pending[id].req);
      }
  }

  lemma {:induction false} RunKeepsReady(cfg: Config, s: System, run: seq<Input>)
    requires NamedClients(cfg) && Agreed(cfg, s) && TakersReady(cfg, s) && ValidRun(cfg, s, run) && SerialRun(run)
    ensures Agreed(cfg, After(cfg, s, run)) && TakersReady(cfg, After(cfg, s, run))
    decreases run
  {
    if run != [] {
      StepAgrees(cfg, s, run[0]);
      StepKeepsReady(cfg, s, run[0]);
      RunKeepsReady(cfg, Step(cfg, s, run[0]), run[1..]);
    }
  }

  lemma ReadyTakerMayTake(cfg: Config, s: System, session: SessionId)
    requires NamedClients(cfg) && Agreed(cfg, s) && TakersReady(cfg, s)
    requires session in s.pending && s.pending[session].phase.TakeDemoted?
    ensures var req := s.pending[session].req;
      req.port in cfg.ports && !Federated(cfg, req.port) && MayStillTake(cfg, s.world, req.client, req.port)
  {
    var req := s.pending[session].req;
    assert Cleared(cfg, s.pending[session]) && session == req.client;
    assert Placed(cfg, s.world, session, PendingOf(s, session));
    assert Ready(cfg, s.world, req);
    EntitledStands(cfg, s.world, req.client, req.port);
  }

  // While each client asks in its own session, one request at a time, and however its requests
  // interleave with those of others, the promote-or-restore step of a take on a port with one seat
  // always leaves exactly one writer, whatever became of the victim.
  lemma SerialTakeoverLeavesOneWriter(cfg: Config, run: seq<Input>, session: SessionId, reply: Reply, now: real)
    requires NamedClients(cfg) && ValidRun(cfg, Initial(cfg), run) && SerialRun(run)
    requires session in After(cfg, Initial(cfg), run).pending
    requires After(cfg, Initial(cfg), run).pending[session].phase.TakeDemoted?
    requires var p := After(cfg, Initial(cfg), run).pending[session].req.port;
      p in cfg.ports && cfg.ports[p].Capacity() == Finite(1)
    ensures var s := After(cfg, Initial(cfg), run);
      var taker, p := s.pending[session].req.client, s.pending[session].req.port;
      var before, after := s.world.Port(p), Step(cfg, s, Continue(session, reply, now)).world.Port(p);
      && Writers(after.records) == 1
      && (Drives(after, taker) <==> forall d :: d != taker ==> !Drives(before, d))
      && (forall d :: d != taker && Drives(before, d) ==> Drives(after, d))
  {
    var s := After(cfg, Initial(cfg), run);
    var pending := s.pending[session];
    InitialAgrees(cfg);
    RunKeepsReady(cfg, Initial(cfg), run);
    ReadyTakerMayTake(cfg, s, session);
    RestoreStep(cfg, s, session, reply, now);
    TakeoverEndsWithOneWriter(cfg, s.world, pending.req.client, pending.req.port, pending.phase.victim);
    TakeoverGoesTo(cfg, s.world, pending.req.client, pending.req.port, pending.phase.victim);
  }

  // The taker gets the seat unless someone else took it during the suspension, and then that one keeps it.
  lemma TakeoverGoesTo(cfg: Config, w: World, taker: ClientId, p: PortName, victim: ClientId)
    requires PortsSound(cfg, w) && p in cfg.ports && cfg.ports[p].Capacity() == Finite(1) && !Federated(cfg, p)
    requires MayStillTake(cfg, w, taker, p)
    ensures var before, after := w.ports[p], PromoteOrRestore(cfg, w, taker, p, victim).world.Port(p);
      && (Drives(after, taker) <==> forall d :: d != taker ==> !Drives(before, d))
      && (forall d :: d != taker && Drives(before, d) ==> Drives(after, d))
  {
    var before := w.ports[p];
    PromoteOutcome(cfg, w, taker, p);
    PromoteOutcome(cfg, w, victim, p);
    RestoreWorlds(cfg, w, taker, p, victim);
    if d :| d != taker && Drives(before, d) {
      SomeoneElseKeeps(cfg, w, taker, p, victim, d);
    } else {
      if !Drives(before, taker) {
        NoDriver(before);
      }
      CallMovesRecords(cfg.ports[p], before, Promote(taker), taker);
    }
  }

  lemma SomeoneElseKeeps(cfg: Config, w: World, taker: ClientId, p: PortName, victim: ClientId, d: ClientId)
    requires PortsSound(cfg, w) && p in cfg.ports && cfg.ports[p].Capacity() == Finite(1) && !Federated(cfg, p)
    requires d != taker && Drives(w.ports[p], d)
    ensures var after := PromoteOrRestore(cfg, w, taker, p, victim).world.Port(p);
      !Drives(after, taker) && Drives(after, d)
    ensures forall e :: e != taker && Drives(w.ports[p], e) ==> e == d
  {
    var before := w.ports[p];
    WriterIsCounted(before, d);
    forall e | Drives(before, e) ensures e == d {
      OneDriver(before, d, e);
    }
    PromoteOutcome(cfg, w, taker, p);
    PromoteOutcome(cfg, w, victim, p);
    RestoreWorlds(cfg, w, taker, p, victim);
    CallMovesRecords(cfg.ports[p], before, Promote(victim), taker);
    CallMovesRecords(cfg.ports[p], before, Promote(victim), d);
  }

  // ------------------------------------------------ the run that leaves nobody

  const PORT := PortConfig(Unset, {}, {}, false, 0)
  const CFG := Config(map["p" := PORT], map["v" := "admin", "t" := "admin"], map[], None,
                      map["v" := "v", "t" := "t"], map[])

  // The world of this one port.
  function Only(records: seq<Record>, queues: map<ClientId, seq<Bytes>>, seat: map<ClientId, PortName>): World {
    World(map["p" := PortState(records, queues, [], 0, [], 0)], seat, seat)
  }

  const HOLDER := Record("v", "v", ReadWrite, 0.0)
  const FORMER := Record("v", "v", ReadOnly, 0.0)
  const TAKER := Record("t", "t", ReadOnly, 1.0)

  const JOIN_V := Connect("v", "p", "v")
  const JOIN_T := Connect("t", "p", "t")
  const TAKE := Take("t", "p", None)
  const LEAVE_V := Disconnect("v", "p")
  const LEAVE_T := Disconnect("t", "p")

  const V_QUEUE: map<ClientId, seq<Bytes>> := map["v" := []]
  const T_QUEUE: map<ClientId, seq<Bytes>> := map["t" := []]
  const QUEUES: map<ClientId, seq<Bytes>> := map["v" := [], "t" := []]

  const W_ONE := Only([HOLDER], V_QUEUE, map["v" := "p"])
  const W_BOTH := Only([HOLDER, TAKER], QUEUES, map["v" := "p", "t" := "p"])
  const W_DEMOTED := Only([FORMER, TAKER], QUEUES, map["v" := "p", "t" := "p"])
  const W_ALONE := Only([TAKER], T_QUEUE, map["t" := "p"])
  const W_EMPTY := Only([], map[], map[])

  const DEMOTED := Pending(TAKE, TakeDemoted("v"))
  const LEFT_V := Pending(LEAVE_V, DetachAnnounce)
  const LEFT_T := Pending(LEAVE_T, DetachAnnounce)

  lemma HolderAttaches()
    ensures Begin(CFG, Initial(CFG).world, JOIN_V, 0.0).world == W_ONE
    ensures Begin(CFG, Initial(CFG).world, JOIN_V, 0.0).outcome == Wait(AttachAnnounce(ReadWrite, AttachedCode))
  {
    assert Initial(CFG).world == W_EMPTY;
    assert NEW_PORT.records + [HOLDER] == [HOLDER];
  }

  lemma TakerAttaches()
    ensures Begin(CFG, W_ONE, JOIN_T, 1.0).world == W_BOTH
    ensures Begin(CFG, W_ONE, JOIN_T, 1.0).outcome == Wait(AttachAnnounce(ReadOnly, CapacityFull))
  {
    assert [HOLDER][..0] == [];
    assert Writers([HOLDER]) == 1;
    assert [HOLDER] + [TAKER] == [HOLDER, TAKER];
  }

  lemma HolderIsChosen()
    ensures ResolveTakeTarget(W_BOTH.Port("p"), "t", None) == Chosen(HOLDER)
  {
    assert [HOLDER, TAKER][1..] == [TAKER] && [TAKER][1..] == [];
    assert Holders([TAKER], "t") == [];
    assert Holders([HOLDER, TAKER], "t") == [HOLDER];
  }

  lemma TakerTakes()
    ensures Begin(CFG, W_BOTH, TAKE, 2.0) == TakeLocal(CFG, W_BOTH, "t", "p", None)
  {
    assert IndexOf(W_BOTH.Port("p").records, "t") == 1;
    assert Standing(CFG, W_BOTH, "t", "p").MayWrite?;
  }

  lemma HolderIsDemoted()
    ensures DemoteVictim(CFG, W_BOTH, "v", "p").world == W_DEMOTED
    ensures DemoteVictim(CFG, W_BOTH, "v", "p").outcome == Wait(TakeDemoted("v"))
  {
    assert [HOLDER, TAKER][0 := FORMER] == [FORMER, TAKER];
  }

  lemma TakerDemotes()
    ensures Begin(CFG, W_BOTH, TAKE, 2.0).world == W_DEMOTED
    ensures Begin(CFG, W_BOTH, TAKE, 2.0).outcome == Wait(TakeDemoted("v"))
  {
    TakerTakes();
    HolderIsChosen();
    HolderIsDemoted();
    assert TakeLocal(CFG, W_BOTH, "t", "p", None) == DemoteVictim(CFG, W_BOTH, "v", "p");
  }

  lemma HolderLeaves()
    ensures Begin(CFG, W_DEMOTED, LEAVE_V, 3.0).world == W_ALONE
    ensures Begin(CFG, W_DEMOTED, LEAVE_V, 3.0).outcome == Wait(DetachAnnounce)
  {
    assert Without([FORMER, TAKER], 0) == [TAKER];
    assert QUEUES - {"v"} == T_QUEUE;
    assert map["v" := "p", "t" := "p"] - {"v"} == map["t" := "p"];
  }

  lemma TakerLeaves()
    ensures Begin(CFG, W_ALONE, LEAVE_T, 3.0).world == W_EMPTY
    ensures Begin(CFG, W_ALONE, LEAVE_T, 3.0).outcome == Wait(DetachAnnounce)
  {
    assert Without([TAKER], 0) == [];
    assert T_QUEUE - {"t"} == map[];
    assert map["t" := "p"] - {"t"} == map[];
  }

  lemma NobodyIsPromoted()
    ensures Resume(CFG, W_EMPTY, TAKE, TakeDemoted("v"), Nothing, 4.0).world == W_EMPTY
  {
  }

  lemma AnnouncementEnds(cfg: Config, w: World, session: SessionId, req: Request, mode: Mode, code: Code, now: real)
    requires !KindOf(code).Notice?
    ensures var s := System(w, map[session := Pending(req, AttachAnnounce(mode, code))]);
      Step(cfg, s, Continue(session, Nothing, now)) == System(w, map[])
  {
  }

  // The holder and the taker attach; the taker takes; while the demotion is announced the holder
  // leaves, and another session disconnects the taker.
  const LAST := [Start("x", LEAVE_T, 3.0)]
  const LEAVES := [Start("v", LEAVE_V, 3.0)] + LAST
  const TAKES := [Start("t", TAKE, 2.0)] + LEAVES
  const JOINS := [Start("t", JOIN_T, 1.0)] + ([Continue("t", Nothing, 1.0)] + TAKES)
  const RUN := [Start("v", JOIN_V, 0.0)] + ([Continue("v", Nothing, 0.0)] + JOINS)

  const S_DEMOTED := System(W_DEMOTED, map["t" := DEMOTED])
  const S_ALONE := System(W_ALONE, map["t" := DEMOTED, "v" := LEFT_V])
  const S_GONE := System(W_EMPTY, map["t" := DEMOTED, "v" := LEFT_V, "x" := LEFT_T])

  lemma LastRun()
    ensures ValidRun(CFG, S_ALONE, LAST) && After(CFG, S_ALONE, LAST) == S_GONE
  {
    TakerLeaves();
    StartWaits(CFG, S_ALONE, "x", LEAVE_T, 3.0, W_EMPTY, DetachAnnounce);
    RunOn(CFG, S_ALONE, Start("x", LEAVE_T, 3.0), []);
    assert LAST + [] == LAST;
  }

  lemma LeavesRun()
    ensures ValidRun(CFG, S_DEMOTED, LEAVES) && After(CFG, S_DEMOTED, LEAVES) == S_GONE
  {
    HolderLeaves();
    LastRun();
    StartWaits(CFG, S_DEMOTED, "v", LEAVE_V, 3.0, W_ALONE, DetachAnnounce);
    RunOn(CFG, S_DEMOTED, Start("v", LEAVE_V, 3.0), LAST);
  }

  lemma TakesRun()
    ensures ValidRun(CFG, System(W_BOTH, map[]), TAKES) && After(CFG, System(W_BOTH, map[]), TAKES) == S_GONE
  {
    TakerDemotes();
    LeavesRun();
    StartWaits(CFG, System(W_BOTH, map[]), "t", TAKE, 2.0, W_DEMOTED, TakeDemoted("v"));
    RunOn(CFG, System(W_BOTH, map[]), Start("t", TAKE, 2.0), LEAVES);
  }

  lemma JoinsRun()
    ensures ValidRun(CFG, System(W_ONE, map[]), JOINS) && After(CFG, System(W_ONE, map[]), JOINS) == S_GONE
  {
    var mid := System(W_BOTH, map["t" := Pending(JOIN_T, AttachAnnounce(ReadOnly, CapacityFull))]);
    TakerAttaches();
    TakesRun();
    StartWaits(CFG, System(W_ONE, map[]), "t", JOIN_T, 1.0, W_BOTH, AttachAnnounce(ReadOnly, CapacityFull));
    AnnouncementEnds(CFG, W_BOTH, "t", JOIN_T, ReadOnly, CapacityFull, 1.0);
    RunOn(CFG, mid, Continue("t", Nothing, 1.0), TAKES);
    RunOn(CFG, System(W_ONE, map[]), Start("t", JOIN_T, 1.0), [Continue("t", Nothing, 1.0)] + TAKES);
  }

  lemma WholeRun()
    ensures ValidRun(CFG, Initial(CFG), RUN) && After(CFG, Initial(CFG), RUN) == S_GONE
  {
    var mid := System(W_ONE, map["v" := Pending(JOIN_V, AttachAnnounce(ReadWrite, AttachedCode))]);
    HolderAttaches();
    JoinsRun();
    StartWaits(CFG, Initial(CFG), "v", JOIN_V, 0.0, W_ONE, AttachAnnounce(ReadWrite, AttachedCode));
    AnnouncementEnds(CFG, W_ONE, "v", JOIN_V, ReadWrite, AttachedCode, 0.0);
    RunOn(CFG, mid, Continue("v", Nothing, 0.0), JOINS);
    RunOn(CFG, Initial(CFG), Start("v", JOIN_V, 0.0), [Continue("v", Nothing, 0.0)] + JOINS);
  }

  lemma RunIsNotSerial()
    ensures !SerialRun(RUN)
  {
    assert RUN[6] == Start("x", LEAVE_T, 3.0) && !OwnSession(RUN[6]);
  }

  // This run, from server start, ends with a take whose promote-or-restore step leaves the port
  // without a writer. It is not serial: the taker is disconnected in a session that is not its own.
  lemma OverlapLeavesNoWriter()
    ensures ValidRun(CFG, Initial(CFG), RUN) && !SerialRun(RUN)
    ensures CFG.ports["p"].Capacity() == Finite(1) && !Federated(CFG, "p") && NamedClients(CFG)
    ensures var s := After(CFG, Initial(CFG), RUN);
      && "t" in s.pending && s.pending["t"] == Pending(Take("t", "p", None), TakeDemoted("v"))
      && Writers(Step(CFG, s, Continue("t", Nothing, 4.0)).world.Port("p").records) == 0
  {
    WholeRun();
    RunIsNotSerial();
    NobodyIsPromoted();
  }
}
