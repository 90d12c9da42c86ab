/** `ConsoleManager` over `PortManager`, updated in place. Each method, run to
    completion, is proved to do what the segments of its coroutine do alone. */
module ConsoleManager {
  import opened Prelude
  import opened AccessControl
  import opened PortSeats
  import opened AccessDecision
  import opened AccessLadder
  import opened Protocol
  import opened ProtocolSafety
  import opened ProtocolAlone
  import opened PortManager

  class ConsoleManager {
    const cfg: Config
    const portManager: PortManager
    var clientPortMap: map<ClientId, PortName>
    var dataForwardingTasks: map<ClientId, PortName>

    constructor (cfg: Config, portManager: PortManager)
      requires portManager.Valid() && portManager.Configs() == cfg.ports
      ensures this.cfg == cfg && this.portManager == portManager && Valid()
      ensures clientPortMap == map[] && dataForwardingTasks == map[]
    {
      this.cfg, this.portManager := cfg, portManager;
      clientPortMap, dataForwardingTasks := map[], map[];
    }

    ghost predicate Valid() { portManager.Valid() && portManager.Configs() == cfg.ports }

    ghost function Now(): World
      reads this, portManager.ports.Values
    {
      World(portManager.View(), clientPortMap, dataForwardingTasks)
    }

    // ------------------------------------------------------ calls on ports

    method AddClient(p: PortName, c: ClientId, u: Username, mode: Mode, now: real) returns (ok: bool)
      requires Valid()
      modifies portManager.ports.Values
      ensures ok <==> Did(cfg, old(Now()), p, Add(c, u, mode, now))
      ensures Now() == Do(cfg, old(Now()), p, Add(c, u, mode, now))
      ensures !ok ==> Now() == old(Now())
    {
      ghost var w := Now();
      ok := portManager.AddClientToPort(p, c, u, mode, now);
      if !ok {
        RefusedDoesNothing(cfg, w, p, Add(c, u, mode, now));
      }
    }

    method RemoveClient(p: PortName, c: ClientId) returns (ok: bool)
      requires Valid()
      modifies portManager.ports.Values
      ensures ok <==> Did(cfg, old(Now()), p, Remove(c))
      ensures Now() == Do(cfg, old(Now()), p, Remove(c))
      ensures !ok ==> Now() == old(Now())
    {
      ghost var w := Now();
      ok := portManager.RemoveClientFromPort(p, c);
      if !ok {
        RefusedDoesNothing(cfg, w, p, Remove(c));
      }
    }

    method Promote(p: PortName, c: ClientId) returns (ok: bool)
      requires Valid()
      modifies portManager.ports.Values
      ensures ok <==> Did(cfg, old(Now()), p, Call.Promote(c))
      ensures Now() == Do(cfg, old(Now()), p, Call.Promote(c))
      ensures !ok ==> Now() == old(Now())
    {
      ghost var w := Now();
      ok := portManager.PromoteClient(p, c);
      if !ok {
        RefusedDoesNothing(cfg, w, p, Call.Promote(c));
      }
    }

    method Demote(p: PortName, c: ClientId) returns (ok: bool)
      requires Valid()
      modifies portManager.ports.Values
      ensures ok <==> Did(cfg, old(Now()), p, Call.Demote(c))
      ensures Now() == Do(cfg, old(Now()), p, Call.Demote(c))
      ensures !ok ==> Now() == old(Now())
    {
      ghost var w := Now();
      ok := portManager.DemoteClient(p, c);
      if !ok {
        RefusedDoesNothing(cfg, w, p, Call.Demote(c));
      }
    }

    // ------------------------------------------------------ forwarding tasks

    method EnsureClientForwardingTask(p: PortName, c: ClientId)
      modifies this`dataForwardingTasks
      ensures dataForwardingTasks == old(dataForwardingTasks)[c := p]
    {
      if c in dataForwardingTasks {
        dataForwardingTasks := dataForwardingTasks - {c};
      }
      dataForwardingTasks := dataForwardingTasks[c := p];
    }

    method StopClientForwardingTask(c: ClientId)
      modifies this`dataForwardingTasks
      ensures dataForwardingTasks == old(dataForwardingTasks) - {c}
    {
      if c in dataForwardingTasks {
        dataForwardingTasks := dataForwardingTasks - {c};
      }
    }

    // --------------------------------------------------------------- ladder

    method PortHasWriteSlots(p: PortName) returns (free: bool)
      requires Valid()
      ensures free == HasWriteSlots(cfg.Port(p), Now().Port(p))
    {
      if p !in portManager.ports {
        return false;
      }
      var port := portManager.ports[p];
      assert cfg.ports[p] == port.config;
      match WriteCapacity(port.config.maxReadWriteUsers)
      case Unlimited => return true;
      case Finite(writers) =>
        if writers == 0 {
          return false;
        }
        var current := PortManager.CountWriters(port);
        return current < writers;
    }

    method AccessMode(p: PortName, permissions: string, u: Username) returns (code: Code, mode: Mode)
      requires Valid()
      ensures (code, mode) == ResolveAccessMode(cfg, cfg.Port(p), Now().Port(p), permissions, u)
    {
      var free := PortHasWriteSlots(p);
      match TakerEntitled(cfg, cfg.Port(p), permissions, u)
      case Denied(refusal) => code, mode := refusal, ReadOnly;
      case MayRead => code, mode := ReadOnlyStanding, ReadOnly;
      case MayWrite =>
        if free {
          code, mode := AttachedCode, ReadWrite;
        } else if p in cfg.ports && WriteCapacity(cfg.ports[p].maxReadWriteUsers) == Finite(0) {
          code, mode := CapacityNone, ReadOnly;
        } else {
          code, mode := CapacityFull, ReadOnly;
        }
    }

    method TakeWriteSlotPermissions(c: ClientId, p: PortName) returns (creds: Option<(Username, string)>)
      requires Valid()
      ensures creds == Credentials(cfg, Now(), c, p)
    {
      var name := "";
      if p in portManager.ports {
        var port := portManager.ports[p];
        var i := PortManager.FindExistingClientIdx(port, c);
        if i < |port.connectedClients| {
          name := port.connectedClients[i].username;
        }
      }
      if name != "" && name in cfg.permissions {
        return Some((name, cfg.permissions[name]));
      }
      if c in cfg.adapterNames && cfg.adapterNames[c] != "" && cfg.adapterNames[c] in cfg.permissions {
        return Some((name, cfg.permissions[cfg.adapterNames[c]]));
      }
      return None;
    }

    method EntitlementOf(c: ClientId, p: PortName) returns (e: Entitlement)
      requires Valid()
      ensures e == Standing(cfg, Now(), c, p)
    {
      var creds := TakeWriteSlotPermissions(c, p);
      match creds
      case None => e := Denied(NotEntitled);
      case Some((name, permissions)) =>
        e := TakerEntitled(cfg, cfg.Port(p), permissions, if name != "" then name else c);
    }

    // ---------------------------------------------------------------- detach

    method ForgetSeat(c: ClientId)
      modifies this
      ensures Now() == old(Now()).(tasks := old(Now()).tasks - {c}, seat := old(Now()).seat - {c})
    {
      StopClientForwardingTask(c);
      clientPortMap := clientPortMap - {c};
    }

    method LeaveSeat(c: ClientId, p: PortName)
      requires Valid()
      modifies this, portManager.ports.Values
      ensures Now() == LeaveAlone(cfg, old(Now()), c, p)
    {
      var _ := RemoveClient(p, c);
      ForgetSeat(c);
    }

    method DisconnectClientFromPort(c: ClientId, p: PortName, env: Env) returns (ok: bool)
      requires Valid()
      modifies this, portManager.ports.Values
      ensures (Now(), Detached(ok)) == RunAlone(cfg, old(Now()), Disconnect(c, p), env)
    {
      DisconnectRunsAlone(cfg, Now(), c, p, env);
      if c !in clientPortMap || clientPortMap[c] != p {
        return false;
      }
      LeaveSeat(c, p);
      return true;
    }

    // ---------------------------------------------------------------- attach

    method RequestFederatedPromotion(p: PortName, c: ClientId, reply: Reply) returns (granted: bool)
      requires Valid()
      modifies portManager.ports.Values
      ensures granted <==> reply.GrantsWrite() && Did(cfg, old(Now()), p, Call.Promote(c))
      ensures Now() == if granted then Do(cfg, old(Now()), p, Call.Promote(c)) else old(Now())
    {
      if !reply.GrantsWrite() {
        return false;
      }
      granted := Promote(p, c);
    }

    method MapClient(p: PortName, c: ClientId)
      modifies this
      ensures Now() == TakeSeat(old(Now()), c, p)
    {
      clientPortMap := clientPortMap[c := p];
      EnsureClientForwardingTask(p, c);
    }

    // Seated already, and entitled to more than the origin has given yet.
    method AskForSeat(p: PortName, c: ClientId, env: Env) returns (attached: Mode, why: Code)
      requires Valid()
      modifies portManager.ports.Values
      ensures !KindOf(why).Notice?
      ensures (Now(), Say(why, attached)) ==
        if env.ask.GrantsWrite() && Did(cfg, old(Now()), p, Call.Promote(c)) then
          (Do(cfg, old(Now()), p, Call.Promote(c)), Say(AttachedCode, ReadWrite))
        else (old(Now()), Say(CapacityFull, ReadOnly))
    {
      var granted := RequestFederatedPromotion(p, c, env.ask);
      if granted {
        return ReadWrite, AttachedCode;
      }
      return ReadOnly, CapacityFull;
    }

    // The seat, the task and, on a federated port, the origin's verdict.
    method SeatClient(p: PortName, c: ClientId, entitled: Mode, mode: Mode, code: Code, env: Env)
      returns (attached: Mode, why: Code)
      requires Valid() && !KindOf(code).Notice?
      requires Federated(cfg, p) ==> mode.ReadOnly?
      modifies this, portManager.ports.Values
      ensures !KindOf(why).Notice?
      ensures (Now(), Say(why, attached)) == AdmittedAlone(cfg, old(Now()), c, p, entitled, mode, code, env)
    {
      MapClient(p, c);
      if p !in cfg.ports || !cfg.ports[p].federated || !entitled.ReadWrite? {
        return mode, code;
      }
      attached, why := AskForSeat(p, c, env);
    }

    method AttachToPort(c: ClientId, p: PortName, u: Username, env: Env) returns (d: Decision)
      requires Valid()
      modifies this, portManager.ports.Values
      ensures (Now(), Decided(d)) == AttachAlone(cfg, old(Now()), c, p, u, env)
    {
      ghost var w := Now();
      if u !in cfg.permissions {
        return Decide(NoPermissions, ReadOnly);
      }
      var code, entitled := AccessMode(p, cfg.permissions[u], u);
      if !Ok(code) {
        return Decide(code, ReadOnly);
      }
      var federated := p in cfg.ports && cfg.ports[p].federated;
      var mode := if federated then ReadOnly else entitled;
      var why := code;
      ghost var first, second := Add(c, u, mode, env.now), Add(c, u, ReadOnly, env.now);
      var ok := AddClient(p, c, u, mode, env.now);
      if ok {
        AdmitRunsAlone(cfg, Now(), Connect(c, p, u), entitled, mode, code, [At(p, first)], env);
      } else if mode.ReadWrite? {
        mode, why := ReadOnly, CapacityFull;
        ok := AddClient(p, c, u, mode, env.now);
        AdmitRunsAlone(cfg, Now(), Connect(c, p, u), entitled, mode, why, [At(p, first), At(p, second)], env);
      }
      if !ok {
        return Decide(PortUnavailable, ReadOnly);
      }
      mode, why := SeatClient(p, c, entitled, mode, why, env);
      return Decide(why, mode);
    }

    method ConnectClientToPort(c: ClientId, p: PortName, u: Username, env: Env) returns (d: Decision)
      requires Valid()
      modifies this, portManager.ports.Values
      ensures (Now(), Decided(d)) == RunAlone(cfg, old(Now()), Connect(c, p, u), env)
    {
      ConnectRunsAlone(cfg, Now(), c, p, u, env);
      if c in clientPortMap {
        DisconnectRunsAlone(cfg, Now(), c, clientPortMap[c], env);
        var _ := DisconnectClientFromPort(c, clientPortMap[c], env);
      }
      d := AttachToPort(c, p, u, env);
    }

    // ------------------------------------------------- promotion and release

    // The last part of a promotion, on a local port and after the origin's grant alike.
    method PromoteLocally(c: ClientId, p: PortName) returns (d: Decision)
      requires Valid()
      modifies portManager.ports.Values
      ensures (Now(), Decided(d)) == PromotionAnswer(PromoteNow(cfg, old(Now()), c, p))
    {
      var ok := Promote(p, c);
      return if ok then Decide(Granted, ReadWrite) else Decide(SeatRefusalCode(cfg.Port(p)), ReadOnly);
    }

    // The part of a promotion that a federated port adds before it.
    method PromoteWithOrigin(c: ClientId, p: PortName, env: Env) returns (d: Decision)
      requires Valid()
      modifies portManager.ports.Values
      ensures (Now(), Decided(d)) == PromotionAnswer(AnswerPromotion(cfg, old(Now()), c, p, env.ask))
    {
      var granted := RequestFederatedPromotion(p, c, env.ask);
      if !granted {
        return Decide(FederationDenied, ReadOnly);
      }
      d := PromoteLocally(c, p);
    }

    method PromoteClientToReadWrite(c: ClientId, p: PortName, env: Env) returns (d: Decision)
      requires Valid()
      modifies portManager.ports.Values
      ensures (Now(), Decided(d)) == RunAlone(cfg, old(Now()), RequestWrite(c, p), env)
    {
      RequestRunsAlone(cfg, Now(), c, p, env);
      if c !in clientPortMap || clientPortMap[c] != p {
        return Decide(NotAttached, ReadOnly);
      }
      if p in cfg.ports {
        var e := EntitlementOf(c, p);
        if !e.MayWrite? {
          return Decide(RefusalCode(e), ReadOnly);
        }
        if cfg.ports[p].federated {
          d := PromoteWithOrigin(c, p, env);
          return;
        }
      }
      d := PromoteLocally(c, p);
    }

    // Whether a promotion was granted, and what it left.
    method GainSlot(c: ClientId, p: PortName, env: Env) returns (granted: bool)
      requires Valid()
      modifies portManager.ports.Values
      ensures granted <==> PromotionAlone(cfg, old(Now()), c, p, env.ask).Promoted?
      ensures Now() == PromotionAlone(cfg, old(Now()), c, p, env.ask).world
    {
      RequestVerdict(cfg, Now(), c, p, env);
      var promotion := PromoteClientToReadWrite(c, p, env);
      granted := promotion.Grants();
    }

    method DemoteClientToReadOnly(c: ClientId, p: PortName, notifyOrigin: bool, env: Env) returns (d: Decision)
      requires Valid()
      modifies portManager.ports.Values
      ensures (Now(), Decided(d)) == RunAlone(cfg, old(Now()), GiveUpWrite(c, p, notifyOrigin), env)
    {
      GiveUpRunsAlone(cfg, Now(), c, p, notifyOrigin, env);
      if c !in clientPortMap || clientPortMap[c] != p {
        return Decide(NotAttached, ReadWrite);
      }
      var ok := Demote(p, c);
      return if ok then Decide(Released, ReadOnly) else Decide(DemoteFailed, ReadWrite);
    }

    // -------------------------------------------------------------- takeover

    method TakeSlotLocal(taker: ClientId, p: PortName, victim: ClientId, env: Env, ghost req: Request)
      returns (d: Decision)
      requires Valid() && !Federated(cfg, p) && req.client == taker && req.port == p
      modifies portManager.ports.Values
      ensures (Now(), Decided(d)) == Finish(cfg, DemoteVictim(cfg, old(Now()), victim, p), req, env)
    {
      ghost var w := Now();
      TakeFromRunsAlone(cfg, w, victim, req, env);
      GiveUpVerdict(cfg, w, victim, p, true, env);
      var demotion := DemoteClientToReadOnly(victim, p, true, env);
      if !demotion.Grants() {
        return Decide(VictimNotCurrent, ReadOnly);
      }
      LocalRequestVerdict(cfg, Now(), taker, p, env);
      var promotion := PromoteClientToReadWrite(taker, p, env);
      if !promotion.Grants() {
        var _ := Promote(p, victim);
        return Decide(SeatRefusalCode(cfg.Port(p)), ReadOnly);
      }
      return Decision(Granted, ReadWrite, Some(victim));
    }

    method TakeEmptySlot(taker: ClientId, p: PortName, env: Env, ghost req: Request) returns (d: Decision)
      requires Valid() && p in cfg.ports && !Federated(cfg, p) && req.client == taker && req.port == p
      modifies portManager.ports.Values
      ensures (Now(), Decided(d)) == Finish(cfg, TakeEmpty(cfg, old(Now()), taker, p), req, env)
    {
      TakeOfEmptyRunsAlone(cfg, Now(), taker, p, req, env);
      var held := PortManager.HasSeat(portManager.ports[p], taker);
      if held {
        return Decide(AlreadyRw, ReadWrite);
      }
      LocalRequestVerdict(cfg, Now(), taker, p, env);
      var promotion := PromoteClientToReadWrite(taker, p, env);
      if !promotion.Grants() {
        return Decide(SeatRefusalCode(cfg.Port(p)), ReadOnly);
      }
      return Decide(Granted, ReadWrite);
    }

    method TakeWriteSlotLocal(taker: ClientId, p: PortName, target: Option<string>, env: Env) returns (d: Decision)
      requires Valid() && p in cfg.ports && !Federated(cfg, p)
      modifies portManager.ports.Values
      ensures (Now(), Decided(d))
           == Finish(cfg, TakeLocal(cfg, old(Now()), taker, p, target), Take(taker, p, target), env)
    {
      var port := portManager.ports[p];
      match WireToMode(port.config.maxReadWriteUsers)
      case ManyWriters =>
        var held := PortManager.HasSeat(port, taker);
        return if held then Decide(AlreadyRw, ReadWrite) else Decide(SeatRefusalCode(cfg.Port(p)), ReadOnly);
      case NoWriter => return Decide(SeatRefusalCode(cfg.Port(p)), ReadOnly);
      case OneWriter =>
        var ps := PortState(port.connectedClients, port.clientQueues, port.dataQueue, port.droppedChunks,
                            port.scrollback, port.federationViewerCount);
        match ResolveTakeTarget(ps, taker, target)
        case Chosen(victim) =>
          d := TakeSlotLocal(taker, p, victim.client, env, Take(taker, p, target));
        case NoChoice(code) =>
          if target.Some? || !code.NoHolder? {
            return Decide(code, ReadOnly);
          }
          d := TakeEmptySlot(taker, p, env, Take(taker, p, target));
    }

    method LocalVictim(p: PortName, target: Option<string>) returns (victim: Option<ClientId>)
      requires Valid()
      ensures victim == NamedVictim(Now(), p, target)
    {
      victim := None;
      if target.Some? && target.value != "" && p in portManager.ports {
        var port := portManager.ports[p];
        var i := PortManager.FindExistingClientIdx(port, target.value);
        victim := if i < |port.connectedClients| then target else None;
      }
    }

    method TakeWriteSlotFederated(taker: ClientId, p: PortName, target: Option<string>, env: Env) returns (d: Decision)
      requires Valid()
      modifies portManager.ports.Values
      ensures (Now(), Decided(d)) == FederatedTakeAlone(cfg, old(Now()), taker, p, target, env)
    {
      if !env.take.GrantsWrite() {
        return Decide(FederationDenied, ReadOnly);
      }
      var granted := GainSlot(taker, p, env);
      if !granted {
        return Decide(PromoteFailed, ReadOnly);
      }
      var victim := LocalVictim(p, target);
      return Decision(Granted, ReadWrite, victim);
    }

    method TakeWriteSlot(taker: ClientId, p: PortName, target: Option<string>, env: Env) returns (d: Decision)
      requires Valid()
      modifies portManager.ports.Values
      ensures (Now(), Decided(d)) == RunAlone(cfg, old(Now()), Take(taker, p, target), env)
    {
      if taker !in clientPortMap || clientPortMap[taker] != p {
        return Decide(NotAttached, ReadOnly);
      }
      if p !in cfg.ports {
        return Decide(PortMissing, ReadOnly);
      }
      var e := EntitlementOf(taker, p);
      if !e.MayWrite? {
        return Decide(RefusalCode(e), ReadOnly);
      }
      if cfg.ports[p].federated {
        FederatedTakeRunsAlone(cfg, Now(), Take(taker, p, target), env);
        d := TakeWriteSlotFederated(taker, p, target, env);
      } else {
        d := TakeWriteSlotLocal(taker, p, target, env);
      }
    }

    method WriteToPort(p: PortName, c: ClientId, delivered: bool) returns (ok: bool)
      requires Valid()
      ensures ok <==> Did(cfg, Now(), p, Write(c)) && delivered
    {
      ok := portManager.WriteToPort(p, c, delivered);
    }
  }
}
