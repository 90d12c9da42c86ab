/** Runs of the protocol: any number of requests from any sessions, interleaved
    at every suspension, with device output and writes in between. What holds
    here needs no assumption about how many requests a session has open. */
module ProtocolSafety {
  import opened Prelude
  import opened AccessControl
  import opened PortSeats
  import opened AccessLadder
  import opened Protocol

  type SessionId = string

  datatype Pending = Pending(req: Request, phase: Phase)

  datatype System = System(world: World, pending: map<SessionId, Pending>)

  datatype Input =
    | Start(session: SessionId, req: Request, now: real)
    | Continue(session: SessionId, reply: Reply, now: real)
    | Io(port: PortName, call: Call)

  // Traffic that touches no record: writes, device output, queue readers, relay holds.
  predicate IsIo(call: Call) {
    call.Write? || call.Incoming? || call.Deliver? || call.ReadShared? || call.Hold? || call.Release?
  }

  // A session starts one request at a time, under the client's fixed name.
  predicate Enabled(cfg: Config, s: System, input: Input) {
    match input
    case Start(session, req, _) =>
      && session !in s.pending
      && req.client in cfg.clients
      && (req.Connect? ==> req.username == cfg.clients[req.client])
    case Continue(session, _, _) => session in s.pending
    case Io(_, call) => IsIo(call)
  }

  function Settle(s: System, session: SessionId, req: Request, seg: Seg): System {
    System(seg.world, match seg.outcome
                      case Done(_) => s.pending - {session}
                      case Wait(phase) => s.pending[session := Pending(req, phase)])
  }

  function StepSeg(cfg: Config, s: System, input: Input): Seg
    requires Enabled(cfg, s, input)
  {
    match input
    case Start(_, req, now) => Begin(cfg, s.world, req, now)
    case Continue(session, reply, now) =>
      Resume(cfg, s.world, s.pending[session].req, s.pending[session].phase, reply, now)
    case Io(p, call) => Seg(Do(cfg, s.world, p, call), Done(Detached(true)), [At(p, call)])
  }

  function Step(cfg: Config, s: System, input: Input): System
    requires Enabled(cfg, s, input)
  {
    match input
    case Start(session, req, _) => Settle(s, session, req, StepSeg(cfg, s, input))
    case Continue(session, _, _) => Settle(s, session, s.pending[session].req, StepSeg(cfg, s, input))
    case Io(_, _) => s.(world := StepSeg(cfg, s, input).world)
  }

  predicate ValidRun(cfg: Config, s: System, run: seq<Input>)
    decreases run
  {
    run == [] || (Enabled(cfg, s, run[0]) && ValidRun(cfg, Step(cfg, s, run[0]), run[1..]))
  }

  function After(cfg: Config, s: System, run: seq<Input>): System
    requires ValidRun(cfg, s, run)
    decreases run
  {
    if run == [] then s else After(cfg, Step(cfg, s, run[0]), run[1..])
  }

  function Initial(cfg: Config): System {
    System(World(map p | p in cfg.ports :: NEW_PORT, map[], map[]), map[])
  }

  lemma {:induction false} RunCut(cfg: Config, s: System, run: seq<Input>, i: nat)
    requires ValidRun(cfg, s, run) && i <= |run|
    ensures ValidRun(cfg, s, run[..i]) && ValidRun(cfg, After(cfg, s, run[..i]), run[i..])
    ensures After(cfg, s, run) == After(cfg, After(cfg, s, run[..i]), run[i..])
    decreases i
  {
    if i == 0 {
      assert run[0..] == run;
    } else {
      RunCut(cfg, Step(cfg, s, run[0]), run[1..], i - 1);
      assert run[..i][1..] == run[1..][..i - 1] && run[i..] == run[1..][i - 1..];
    }
  }

  lemma RunOn(cfg: Config, s: System, input: Input, rest: seq<Input>)
    requires Enabled(cfg, s, input) && ValidRun(cfg, Step(cfg, s, input), rest)
    ensures ValidRun(cfg, s, [input] + rest)
    ensures After(cfg, s, [input] + rest) == After(cfg, Step(cfg, s, input), rest)
  {
    assert ([input] + rest)[1..] == rest;
  }

  lemma StartWaits(cfg: Config, s: System, session: SessionId, req: Request, now: real, w: World, phase: Phase)
    requires Enabled(cfg, s, Start(session, req, now))
    requires Begin(cfg, s.world, req, now).world == w && Begin(cfg, s.world, req, now).outcome == Wait(phase)
    ensures Step(cfg, s, Start(session, req, now)) == System(w, s.pending[session := Pending(req, phase)])
  {
  }

  lemma ContinueWaits(cfg: Config, s: System, session: SessionId, reply: Reply, now: real, w: World, phase: Phase)
    requires session in s.pending
    requires var seg := Resume(cfg, s.world, s.pending[session].req, s.pending[session].phase, reply, now);
      seg.world == w && seg.outcome == Wait(phase)
    ensures Step(cfg, s, Continue(session, reply, now))
         == System(w, s.pending[session := Pending(s.pending[session].req, phase)])
  {
  }

  // ------------------------------------------------- segments are port calls

  lemma {:induction false} DoAllSplit(cfg: Config, w: World, a: seq<PortCall>, b: seq<PortCall>)
    ensures DoAll(cfg, w, a + b) == DoAll(cfg, DoAll(cfg, w, a), b)
    decreases a
  {
    if a == [] {
      assert a + b == b;
    } else {
      assert (a + b)[1..] == a[1..] + b;
      DoAllSplit(cfg, Do(cfg, w, a[0].port, a[0].call), a[1..], b);
    }
  }

  lemma DoOne(cfg: Config, w: World, pc: PortCall)
    ensures DoAll(cfg, w, [pc]) == Do(cfg, w, pc.port, pc.call)
  {
  }

  lemma RefusedDoesNothing(cfg: Config, w: World, p: PortName, call: Call)
    requires !Did(cfg, w, p, call)
    ensures Do(cfg, w, p, call) == w
  {
  }

  lemma DoTwo(cfg: Config, w: World, a: PortCall, b: PortCall)
    ensures DoAll(cfg, w, [a, b]) == Do(cfg, Do(cfg, w, a.port, a.call), b.port, b.call)
  {
    assert [a, b] == [a] + [b];
    DoAllSplit(cfg, w, [a], [b]);
    DoOne(cfg, w, a);
    DoOne(cfg, DoAll(cfg, w, [a]), b);
  }

  ghost predicate CallsExplain(cfg: Config, w: World, seg: Seg) {
    seg.world.ports == DoAll(cfg, w, seg.calls).ports
  }

  lemma AttachExplained(cfg: Config, w: World, c: ClientId, p: PortName, u: Username, now: real)
    ensures CallsExplain(cfg, w, AttachSeg(cfg, w, c, p, u, now))
  {
    if u in cfg.permissions {
      var (code, entitled) := ResolveAccessMode(cfg, cfg.Port(p), w.Port(p), cfg.permissions[u], u);
      var mode := if Federated(cfg, p) then ReadOnly else entitled;
      var first, second := Add(c, u, mode, now), Add(c, u, ReadOnly, now);
      DoOne(cfg, w, At(p, first));
      DoTwo(cfg, w, At(p, first), At(p, second));
    }
  }

  lemma PromotionExplained(cfg: Config, w: World, c: ClientId, p: PortName)
    ensures var r := StartPromotion(cfg, w, c, p);
      !r.MustAsk? ==> r.world == DoAll(cfg, w, r.calls) && (r.Refused? ==> r.world == w)
  {
    DoOne(cfg, w, At(p, Promote(c)));
  }

  lemma AnswerExplained(cfg: Config, w: World, c: ClientId, p: PortName, reply: Reply)
    ensures var r := AnswerPromotion(cfg, w, c, p, reply); r.world == DoAll(cfg, w, r.calls)
  {
    DoOne(cfg, w, At(p, Promote(c)));
    DoTwo(cfg, w, At(p, Promote(c)), At(p, Promote(c)));
  }

  lemma RestoreExplained(cfg: Config, w: World, taker: ClientId, p: PortName, victim: ClientId)
    ensures CallsExplain(cfg, w, PromoteOrRestore(cfg, w, taker, p, victim))
  {
    var r := StartPromotion(cfg, w, taker, p);
    PromotionExplained(cfg, w, taker, p);
    DoOne(cfg, w, At(p, Promote(victim)));
    if r.Refused? {
      DoAllSplit(cfg, w, r.calls, [At(p, Promote(victim))]);
    }
  }

  lemma LocalTakeExplained(cfg: Config, w: World, taker: ClientId, p: PortName, target: Option<string>)
    requires p in cfg.ports
    ensures CallsExplain(cfg, w, TakeLocal(cfg, w, taker, p, target))
  {
    var choice := ResolveTakeTarget(w.Port(p), taker, target);
    if choice.Chosen? {
      DemotionExplained(cfg, w, choice.victim.client, p);
    } else {
      EmptyTakeExplained(cfg, w, taker, p);
    }
  }

  lemma DemotionExplained(cfg: Config, w: World, victim: ClientId, p: PortName)
    ensures CallsExplain(cfg, w, DemoteVictim(cfg, w, victim, p))
  {
    DoOne(cfg, w, At(p, Demote(victim)));
  }

  lemma EmptyTakeExplained(cfg: Config, w: World, taker: ClientId, p: PortName)
    ensures CallsExplain(cfg, w, TakeEmpty(cfg, w, taker, p))
  {
    PromotionExplained(cfg, w, taker, p);
  }

  lemma TakeExplained(cfg: Config, w: World, taker: ClientId, p: PortName, target: Option<string>)
    ensures CallsExplain(cfg, w, BeginTake(cfg, w, taker, p, target))
  {
    if p in cfg.ports {
      LocalTakeExplained(cfg, w, taker, p, target);
    }
  }

  // The listed calls account for every change a request makes to any port.
  lemma BeginExplained(cfg: Config, w: World, req: Request, now: real)
    ensures CallsExplain(cfg, w, Begin(cfg, w, req, now))
  {
    match req
    case Connect(c, p, u) =>
      AttachExplained(cfg, w, c, p, u, now);
      if c in w.seat {
        DoOne(cfg, w, At(w.seat[c], Remove(c)));
      }
    case Disconnect(c, p) => DoOne(cfg, w, At(p, Remove(c)));
    case RequestWrite(c, p) => PromotionExplained(cfg, w, c, p);
    case GiveUpWrite(c, p, _) => DoOne(cfg, w, At(p, Demote(c)));
    case Take(c, p, target) => TakeExplained(cfg, w, c, p, target);
  }

  lemma ResumeExplained(cfg: Config, w: World, req: Request, phase: Phase, reply: Reply, now: real)
    ensures CallsExplain(cfg, w, Resume(cfg, w, req, phase, reply, now))
  {
    var c, p := req.client, req.port;
    match phase
    case ConnectLeft => AttachExplained(cfg, w, c, p, if req.Connect? then req.username else "", now);
    case AttachAsking => DoOne(cfg, w, At(p, Promote(c)));
    case PromoteAsking => AnswerExplained(cfg, w, c, p, reply);
    case TakeDemoted(victim) => RestoreExplained(cfg, w, c, p, victim);
    case TakeAsking => PromotionExplained(cfg, w, c, p);
    case TakeMirrorAsking => AnswerExplained(cfg, w, c, p, reply);
    case _ =>
  }

  lemma StepExplained(cfg: Config, s: System, input: Input)
    requires Enabled(cfg, s, input)
    ensures Step(cfg, s, input).world.ports == DoAll(cfg, s.world, StepSeg(cfg, s, input).calls).ports
  {
    match input
    case Start(_, req, now) => BeginExplained(cfg, s.world, req, now);
    case Continue(session, reply, now) =>
      ResumeExplained(cfg, s.world, s.pending[session].req, s.pending[session].phase, reply, now);
    case Io(p, call) => DoOne(cfg, s.world, At(p, call));
  }

  // ------------------------------------------------------- capacity, always

  ghost predicate PortsSound(cfg: Config, w: World) {
    && w.ports.Keys == cfg.ports.Keys
    && (forall p :: p in cfg.ports ==> Sound(cfg.ports[p].Capacity(), w.ports[p]))
  }

  lemma {:induction false} CallsKeepSound(cfg: Config, w: World, calls: seq<PortCall>)
    requires PortsSound(cfg, w)
    ensures PortsSound(cfg, DoAll(cfg, w, calls))
    decreases calls
  {
    if calls != [] {
      var p, call := calls[0].port, calls[0].call;
      if p in cfg.ports {
        CallKeepsSound(cfg.ports[p], w.ports[p], call);
      }
      CallsKeepSound(cfg, Do(cfg, w, p, call), calls[1..]);
    }
  }

  lemma DoKeepsSound(cfg: Config, w: World, p: PortName, call: Call)
    requires PortsSound(cfg, w)
    ensures PortsSound(cfg, Do(cfg, w, p, call))
  {
    if p in cfg.ports {
      CallKeepsSound(cfg.ports[p], w.ports[p], call);
    }
  }

  lemma StepKeepsSound(cfg: Config, s: System, input: Input)
    requires Enabled(cfg, s, input) && PortsSound(cfg, s.world)
    ensures PortsSound(cfg, Step(cfg, s, input).world)
  {
    StepExplained(cfg, s, input);
    CallsKeepSound(cfg, s.world, StepSeg(cfg, s, input).calls);
  }

  lemma {:induction false} RunKeepsPortsSound(cfg: Config, s: System, run: seq<Input>)
    requires ValidRun(cfg, s, run) && PortsSound(cfg, s.world)
    ensures PortsSound(cfg, After(cfg, s, run).world)
    decreases run
  {
    if run != [] {
      StepKeepsSound(cfg, s, run[0]);
      RunKeepsPortsSound(cfg, Step(cfg, s, run[0]), run[1..]);
    }
  }

  // In every interleaving, after every step, on every port: no client id is
  // listed twice and the read-write records fit the capacity of the port.
  lemma SeatsNeverExceeded(cfg: Config, run: seq<Input>, p: PortName)
    requires ValidRun(cfg, Initial(cfg), run) && p in cfg.ports
    ensures p in After(cfg, Initial(cfg), run).world.ports
    ensures var ps := After(cfg, Initial(cfg), run).world.ports[p];
      && UniqueIds(ps.records)
      && (cfg.ports[p].Capacity() == Finite(0) ==> Writers(ps.records) == 0)
      && (cfg.ports[p].Capacity() == Finite(1) ==> Writers(ps.records) <= 1)
  {
    assert Writers(NEW_PORT.records) == 0;
    RunKeepsPortsSound(cfg, Initial(cfg), run);
  }

  // --------------------------------------------------------- writer handover

  predicate UnseatsAt(calls: seq<PortCall>, p: PortName, c: ClientId) {
    exists k :: 0 <= k < |calls| && calls[k].port == p && Unseats(calls[k].call, c)
  }

  lemma {:induction false} CallsKeepDriver(cfg: Config, w: World, calls: seq<PortCall>, p: PortName, c: ClientId)
    requires PortsSound(cfg, w) && p in cfg.ports && Drives(w.ports[p], c) && !UnseatsAt(calls, p, c)
    ensures PortsSound(cfg, DoAll(cfg, w, calls)) && Drives(DoAll(cfg, w, calls).ports[p], c)
    decreases calls
  {
    if calls != [] {
      OneCallKeepsDriver(cfg, w, calls[0].port, calls[0].call, p, c);
      assert !UnseatsAt(calls[1..], p, c) by {
        assert forall k :: 0 <= k < |calls[1..]| ==> calls[1..][k] == calls[k + 1];
      }
      CallsKeepDriver(cfg, Do(cfg, w, calls[0].port, calls[0].call), calls[1..], p, c);
    }
  }

  lemma OneCallKeepsDriver(cfg: Config, w: World, q: PortName, call: Call, p: PortName, c: ClientId)
    requires PortsSound(cfg, w) && p in cfg.ports && Drives(w.ports[p], c) && !(q == p && Unseats(call, c))
    ensures PortsSound(cfg, Do(cfg, w, q, call)) && Drives(Do(cfg, w, q, call).ports[p], c)
  {
    DoKeepsSound(cfg, w, q, call);
    if q == p {
      CallMovesRecords(cfg.ports[p], w.ports[p], call, c);
    }
  }

  // Some step of the run demotes, detaches or re-attaches `c` on `p`.
  predicate UnseatedIn(cfg: Config, s: System, run: seq<Input>, p: PortName, c: ClientId)
    requires ValidRun(cfg, s, run)
    decreases run
  {
    run != [] &&
    (UnseatsAt(StepSeg(cfg, s, run[0]).calls, p, c) || UnseatedIn(cfg, Step(cfg, s, run[0]), run[1..], p, c))
  }

  lemma {:induction false} DriverSurvives(cfg: Config, s: System, run: seq<Input>, p: PortName, c: ClientId)
    requires ValidRun(cfg, s, run) && PortsSound(cfg, s.world) && p in cfg.ports
    requires Drives(s.world.ports[p], c) && !UnseatedIn(cfg, s, run, p, c)
    ensures PortsSound(cfg, After(cfg, s, run).world) && Drives(After(cfg, s, run).world.ports[p], c)
    decreases run
  {
    if run != [] {
      StepExplained(cfg, s, run[0]);
      CallsKeepDriver(cfg, s.world, StepSeg(cfg, s, run[0]).calls, p, c);
      DriverSurvives(cfg, Step(cfg, s, run[0]), run[1..], p, c);
    }
  }

  predicate AcceptedWrite(cfg: Config, s: System, input: Input, p: PortName, c: ClientId) {
    input == Io(p, Write(c)) && Did(cfg, s.world, p, Write(c))
  }

  lemma RunBetween(cfg: Config, s: System, run: seq<Input>, i: nat, j: nat)
    requires i <= j <= |run| && ValidRun(cfg, s, run[..j])
    ensures ValidRun(cfg, s, run[..i]) && ValidRun(cfg, After(cfg, s, run[..i]), run[i..j])
    ensures After(cfg, s, run[..j]) == After(cfg, After(cfg, s, run[..i]), run[i..j])
  {
    RunCut(cfg, s, run[..j], i);
    assert run[..j][..i] == run[..i] && run[..j][i..] == run[i..j];
  }

  // In any run on a port with one seat, between accepted writes by two different
  // clients some step demoted, detached or re-attached the first writer.
  lemma WritesAlternateOnlyByHandover(cfg: Config, run: seq<Input>, i: nat, j: nat, p: PortName,
                                      c: ClientId, d: ClientId)
    requires ValidRun(cfg, Initial(cfg), run) && i < j < |run| && c != d
    requires p in cfg.ports && cfg.ports[p].Capacity() == Finite(1)
    requires ValidRun(cfg, Initial(cfg), run[..i]) && ValidRun(cfg, Initial(cfg), run[..j])
    requires AcceptedWrite(cfg, After(cfg, Initial(cfg), run[..i]), run[i], p, c)
    requires AcceptedWrite(cfg, After(cfg, Initial(cfg), run[..j]), run[j], p, d)
    ensures ValidRun(cfg, After(cfg, Initial(cfg), run[..i]), run[i..j])
    ensures UnseatedIn(cfg, After(cfg, Initial(cfg), run[..i]), run[i..j], p, c)
  {
    var first := After(cfg, Initial(cfg), run[..i]);
    RunBetween(cfg, Initial(cfg), run, i, j);
    assert Writers(NEW_PORT.records) == 0;
    RunKeepsPortsSound(cfg, Initial(cfg), run[..i]);
    if !UnseatedIn(cfg, first, run[i..j], p, c) {
      DriverSurvives(cfg, first, run[i..j], p, c);
      OneDriver(After(cfg, Initial(cfg), run[..j]).world.ports[p], c, d);
    }
  }

  // ---------------------------------------------------------------- takeover

  lemma PromoteOutcome(cfg: Config, w: World, c: ClientId, p: PortName)
    requires PortsSound(cfg, w) && p in cfg.ports && cfg.ports[p].Capacity() == Finite(1)
    ensures Did(cfg, w, p, Promote(c)) <==>
      Attached(w.ports[p], c) && (Drives(w.ports[p], c) || Writers(w.ports[p].records) == 0)
    ensures Did(cfg, w, p, Promote(c)) ==> Writers(Do(cfg, w, p, Promote(c)).ports[p].records) == 1
  {
    var ps := w.ports[p];
    SeatIsDriving(ps, c);
    if Did(cfg, w, p, Promote(c)) {
      CallMovesRecords(cfg.ports[p], ps, Promote(c), c);
      CallKeepsSound(cfg.ports[p], ps, Promote(c));
      WriterIsCounted(Apply(cfg.ports[p], ps, Promote(c)), c);
    }
  }

  // A taker that still sits on the port, is still listed there and still passes the ladder.
  predicate MayStillTake(cfg: Config, w: World, taker: ClientId, p: PortName) {
    w.SeatedAt(taker, p) && Attached(w.Port(p), taker) && Standing(cfg, w, taker, p).MayWrite?
  }

  // When a take's promote-or-restore step ends on a port with one seat, the port
  // has no writer exactly when before the step it had none, the taker was no longer
  // in a position to take and the victim was gone. Otherwise it has exactly one.
  lemma TakeoverEndsWithOneWriter(cfg: Config, w: World, taker: ClientId, p: PortName, victim: ClientId)
    requires PortsSound(cfg, w) && p in cfg.ports && cfg.ports[p].Capacity() == Finite(1) && !Federated(cfg, p)
    ensures var before, after := w.ports[p], PromoteOrRestore(cfg, w, taker, p, victim).world.Port(p);
      && Writers(after.records) <= 1
      && (Writers(after.records) == 0 <==>
            Writers(before.records) == 0 && !MayStillTake(cfg, w, taker, p) && !Attached(before, victim))
      && (Writers(after.records) == 1 || !Attached(after, victim))
  {
    PromoteOutcome(cfg, w, taker, p);
    PromoteOutcome(cfg, w, victim, p);
    PromotionExplained(cfg, w, taker, p);
    if StartPromotion(cfg, w, taker, p).Promoted? {
      assert MayStillTake(cfg, w, taker, p);
    } else {
      assert PromoteOrRestore(cfg, w, taker, p, victim).world == Do(cfg, w, p, Promote(victim));
      CallMovesRecords(cfg.ports[p], w.ports[p], Promote(victim), victim);
      if Drives(w.ports[p], victim) {
        WriterIsCounted(w.ports[p], victim);
      }
    }
  }

  lemma RestoreStep(cfg: Config, s: System, session: SessionId, reply: Reply, now: real)
    requires session in s.pending && s.pending[session].phase.TakeDemoted?
    ensures var pending := s.pending[session];
      Step(cfg, s, Continue(session, reply, now)).world
      == PromoteOrRestore(cfg, s.world, pending.req.client, pending.req.port, pending.phase.victim).world
  {
  }

  // The same over every interleaving, from the start of the server.
  lemma TakeoverKeepsAWriter(cfg: Config, run: seq<Input>, session: SessionId, reply: Reply, now: real)
    requires ValidRun(cfg, Initial(cfg), run)
    requires session in After(cfg, Initial(cfg), run).pending
    requires After(cfg, Initial(cfg), run).pending[session].phase.TakeDemoted?
    requires var p := After(cfg, Initial(cfg), run).pending[session].req.port;
      p in cfg.ports && cfg.ports[p].Capacity() == Finite(1) && !Federated(cfg, p)
    ensures var s := After(cfg, Initial(cfg), run);
      var p, victim := s.pending[session].req.port, s.pending[session].phase.victim;
      var after := Step(cfg, s, Continue(session, reply, now)).world.Port(p);
      Writers(after.records) == 1 || (Writers(after.records) == 0 && !Attached(after, victim))
  {
    var s := After(cfg, Initial(cfg), run);
    assert Writers(NEW_PORT.records) == 0;
    RunKeepsPortsSound(cfg, Initial(cfg), run);
    RestoreStep(cfg, s, session, reply, now);
    TakeoverEndsWithOneWriter(cfg, s.world, s.pending[session].req.client, s.pending[session].req.port,
                              s.pending[session].phase.victim);
  }

  // -------------------------------------------------------------- federation

  // A take that demotes a local victim is never on a federated port.
  ghost predicate LocalTakes(cfg: Config, s: System) {
    forall session :: session in s.pending && s.pending[session].phase.TakeDemoted? ==>
      !Federated(cfg, s.pending[session].req.port)
  }

  lemma StepKeepsLocalTakes(cfg: Config, s: System, input: Input)
    requires Enabled(cfg, s, input) && LocalTakes(cfg, s)
    ensures LocalTakes(cfg, Step(cfg, s, input))
  {
    if input.Start? {
      BeginDemotesLocally(cfg, s.world, input.req, input.now);
    } else if input.Continue? {
      var pending := s.pending[input.session];
      ResumeNeverDemotes(cfg, s.world, pending.req, pending.phase, input.reply, input.now);
    }
  }

  lemma BeginDemotesLocally(cfg: Config, w: World, req: Request, now: real)
    ensures var next := Begin(cfg, w, req, now).outcome;
      next.Wait? && next.phase.TakeDemoted? ==> req.Take? && !Federated(cfg, req.port)
  {
  }

  lemma ResumeNeverDemotes(cfg: Config, w: World, req: Request, phase: Phase, reply: Reply, now: real)
    ensures var next := Resume(cfg, w, req, phase, reply, now).outcome; next.Wait? ==> !next.phase.TakeDemoted?
  {
  }

  predicate Seats(call: Call, d: ClientId) {
    call == Promote(d) || (call.Add? && call.client == d && call.mode.ReadWrite?)
  }

  lemma OneCallSeats(cfg: Config, w: World, q: PortName, call: Call, p: PortName, d: ClientId)
    requires PortsSound(cfg, w) && p in cfg.ports && !Drives(w.ports[p], d)
    ensures PortsSound(cfg, Do(cfg, w, q, call))
    ensures Drives(Do(cfg, w, q, call).ports[p], d) ==> q == p && Seats(call, d)
  {
    if q in cfg.ports {
      CallKeepsSound(cfg.ports[q], w.ports[q], call);
      CallMovesRecords(cfg.ports[q], w.ports[q], call, d);
    }
  }

  lemma {:induction false} NewDriverWasSeated(cfg: Config, w: World, calls: seq<PortCall>, p: PortName, d: ClientId)
    returns (k: nat)
    requires PortsSound(cfg, w) && p in cfg.ports && !Drives(w.ports[p], d)
    requires p in DoAll(cfg, w, calls).ports && Drives(DoAll(cfg, w, calls).ports[p], d)
    ensures k < |calls| && calls[k].port == p && Seats(calls[k].call, d)
    decreases calls
  {
    var q, call := calls[0].port, calls[0].call;
    OneCallSeats(cfg, w, q, call, p, d);
    if Drives(Do(cfg, w, q, call).ports[p], d) {
      k := 0;
    } else {
      var rest := NewDriverWasSeated(cfg, Do(cfg, w, q, call), calls[1..], p, d);
      k := rest + 1;
    }
  }

  // No call in the list seats a writer on a federated port.
  ghost predicate Quiet(cfg: Config, calls: seq<PortCall>) {
    forall k, d :: 0 <= k < |calls| && Federated(cfg, calls[k].port) ==> !Seats(calls[k].call, d)
  }

  // The list seats nobody but `c` on `p`.
  ghost predicate SeatsOnly(calls: seq<PortCall>, p: PortName, c: ClientId) {
    forall k :: 0 <= k < |calls| ==> calls[k] == At(p, Promote(c))
  }

  lemma AttachQuiet(cfg: Config, w: World, c: ClientId, p: PortName, u: Username, now: real)
    ensures Quiet(cfg, AttachSeg(cfg, w, c, p, u, now).calls)
  {
  }

  lemma TakeQuiet(cfg: Config, w: World, taker: ClientId, p: PortName, target: Option<string>)
    ensures Quiet(cfg, BeginTake(cfg, w, taker, p, target).calls)
  {
    if p in cfg.ports && !Federated(cfg, p) {
      var calls := TakeLocal(cfg, w, taker, p, target).calls;
      assert forall k :: 0 <= k < |calls| ==> calls[k].port == p;
    }
  }

  lemma BeginQuiet(cfg: Config, w: World, req: Request, now: real)
    ensures Quiet(cfg, Begin(cfg, w, req, now).calls)
  {
    match req
    case Connect(c, p, u) => AttachQuiet(cfg, w, c, p, u, now);
    case Disconnect(c, p) =>
    case RequestWrite(c, p) =>
    case GiveUpWrite(c, p, _) =>
    case Take(c, p, target) => TakeQuiet(cfg, w, c, p, target);
  }

  lemma AskedSeatsOnly(cfg: Config, w: World, c: ClientId, p: PortName, reply: Reply)
    ensures var r := AnswerPromotion(cfg, w, c, p, reply);
      SeatsOnly(r.calls, p, c) && (!reply.GrantsWrite() ==> r.calls == [])
  {
  }

  lemma StartedQuiet(cfg: Config, w: World, c: ClientId, p: PortName)
    ensures var r := StartPromotion(cfg, w, c, p); !r.MustAsk? ==> Quiet(cfg, r.calls)
  {
  }

  lemma RestoreQuiet(cfg: Config, w: World, taker: ClientId, p: PortName, victim: ClientId)
    requires !Federated(cfg, p)
    ensures Quiet(cfg, PromoteOrRestore(cfg, w, taker, p, victim).calls)
  {
    var calls := PromoteOrRestore(cfg, w, taker, p, victim).calls;
    assert forall k :: 0 <= k < |calls| ==> calls[k].port == p;
  }

  lemma ResumeSeatsOnGrant(cfg: Config, w: World, req: Request, phase: Phase, reply: Reply, now: real)
    requires phase.TakeDemoted? ==> !Federated(cfg, req.port)
    ensures var calls := Resume(cfg, w, req, phase, reply, now).calls;
      Quiet(cfg, calls) || (reply.GrantsWrite() && SeatsOnly(calls, req.port, req.client))
  {
    var c, p := req.client, req.port;
    if phase.ConnectLeft? {
      AttachQuiet(cfg, w, c, p, if req.Connect? then req.username else "", now);
    } else if phase.TakeDemoted? {
      RestoreQuiet(cfg, w, c, p, phase.victim);
    } else if phase.PromoteAsking? || phase.TakeMirrorAsking? {
      AskedSeatsOnly(cfg, w, c, p, reply);
    } else if phase.TakeAsking? {
      StartedQuiet(cfg, w, c, p);
    }
  }

  lemma FederatedSeating(cfg: Config, s: System, input: Input, k: nat, d: ClientId)
    requires Enabled(cfg, s, input) && LocalTakes(cfg, s)
    requires k < |StepSeg(cfg, s, input).calls|
    requires var pc := StepSeg(cfg, s, input).calls[k]; Federated(cfg, pc.port) && Seats(pc.call, d)
    ensures input.Continue? && input.reply.GrantsWrite()
    ensures s.pending[input.session].req.client == d
    ensures s.pending[input.session].req.port == StepSeg(cfg, s, input).calls[k].port
  {
    match input
    case Start(_, req, now) => BeginQuiet(cfg, s.world, req, now);
    case Continue(session, reply, now) =>
      ResumeSeatsOnGrant(cfg, s.world, s.pending[session].req, s.pending[session].phase, reply, now);
    case Io(_, _) =>
  }

  lemma {:induction false} RunKeepsLocalTakes(cfg: Config, s: System, run: seq<Input>)
    requires ValidRun(cfg, s, run) && LocalTakes(cfg, s)
    ensures LocalTakes(cfg, After(cfg, s, run))
    decreases run
  {
    if run != [] {
      StepKeepsLocalTakes(cfg, s, run[0]);
      RunKeepsLocalTakes(cfg, Step(cfg, s, run[0]), run[1..]);
    }
  }

  // Over every run, no record on a federated port turns read-write except in a
  // step that resumes a request of that very client on that very port with the
  // origin's answer "read-write".
  lemma OriginAloneGrants(cfg: Config, run: seq<Input>, input: Input, p: PortName, d: ClientId)
    requires ValidRun(cfg, Initial(cfg), run) && Enabled(cfg, After(cfg, Initial(cfg), run), input)
    requires Federated(cfg, p)
    requires var s := After(cfg, Initial(cfg), run);
      !Drives(s.world.Port(p), d) && Drives(Step(cfg, s, input).world.Port(p), d)
    ensures input.Continue? && input.reply == OriginSays("read-write")
    ensures var pending := After(cfg, Initial(cfg), run).pending[input.session];
      pending.req.client == d && pending.req.port == p
  {
    var s := After(cfg, Initial(cfg), run);
    assert Writers(NEW_PORT.records) == 0;
    RunKeepsPortsSound(cfg, Initial(cfg), run);
    RunKeepsLocalTakes(cfg, Initial(cfg), run);
    StepExplained(cfg, s, input);
    StepKeepsSound(cfg, s, input);
    var k := NewDriverWasSeated(cfg, s.world, StepSeg(cfg, s, input).calls, p, d);
    FederatedSeating(cfg, s, input, k, d);
  }
}
