/** The answer to every request, made alone, by what the configuration and the records say: which code,
    which mode, and what changed. */
module Answers {
  import opened Prelude
  import opened AccessControl
  import opened PortSeats
  import opened PortAdmission
  import opened AccessDecision
  import opened AccessLadder
  import opened Protocol
  import opened ProtocolCases
  import opened ProtocolSafety
  import opened ProtocolAgreement
  import opened ProtocolAlone
  import opened Takeover

  // `c` is listed on `p` in this mode, every other record and every other port is as it was.
  ghost predicate Lists(w: World, w': World, c: ClientId, p: PortName, u: Username, mode: Mode) {
    && w'.ports.Keys == w.ports.Keys && p in w.ports
    && (forall q :: q in w.ports && q != p ==> w'.ports[q] == w.ports[q])
    && (forall d :: d != c ==> RecordOf(w'.ports[p], d) == RecordOf(w.ports[p], d))
    && RecordOf(w'.ports[p], c).Some?
    && RecordOf(w'.ports[p], c).value.username == u && RecordOf(w'.ports[p], c).value.mode == mode
  }

  // It also sits there, with its forwarding task, and nobody else moved.
  ghost predicate Joins(w: World, w': World, c: ClientId, p: PortName, u: Username, mode: Mode) {
    Lists(w, w', c, p, u, mode) && w'.seat == w.seat[c := p] && w'.tasks == w.tasks[c := p]
  }

  ghost predicate Stays(w: World, w': World, c: ClientId, p: PortName, u: Username, mode: Mode) {
    Lists(w, w', c, p, u, mode) && w'.seat == w.seat && w'.tasks == w.tasks
  }

  function DenialCode(cfg: Config, p: PortName): (code: Code)
    ensures KindOf(code).Refusal?
  {
    if ListsGroups(cfg.Port(p)) then DeniedByGroupAcl else DeniedByAccessDefault
  }

  predicate MayWatch(cfg: Config, p: PortName, u: Username) {
    u in cfg.permissions && MayWatchAs(cfg, cfg.Port(p), cfg.permissions[u], u)
  }

  // ------------------------------------------------------------------- connect

  // What a newcomer gets who may drive the port.
  function SeatFor(cfg: Config, ps: PortState, p: PortName): (seat: (Code, Mode))
    requires p in cfg.ports
    ensures !KindOf(seat.0).Notice?
  {
    match ModeOf(cfg.ports[p])
    case NoWriter => (CapacityNone, ReadOnly)
    case OneWriter => if Writers(ps.records) > 0 then (CapacityFull, ReadOnly) else (AttachedCode, ReadWrite)
    case ManyWriters => (AttachedCode, ReadWrite)
  }

  lemma LadderGives(cfg: Config, w: World, p: PortName, u: Username)
    requires PortsSound(cfg, w) && p in cfg.ports && u in cfg.permissions
    ensures ResolveAccessMode(cfg, cfg.Port(p), w.Port(p), cfg.permissions[u], u) ==
      if !MayWatch(cfg, p, u) then (DenialCode(cfg, p), ReadOnly)
      else if !MayDrive(cfg, p, u) then (ReadOnlyStanding, ReadOnly)
      else SeatFor(cfg, w.ports[p], p)
  {
  }

  // A call that leaves `r` as the record of `c` and moves no other.
  ghost predicate Leaves(pc: PortConfig, ps: PortState, call: Call, r: Record) {
    forall d :: RecordOf(Apply(pc, ps, call), d) == if d == r.client then Some(r) else RecordOf(ps, d)
  }

  lemma LeavingStays(cfg: Config, w: World, p: PortName, call: Call, r: Record)
    requires p in cfg.ports && p in w.ports && Leaves(cfg.ports[p], w.ports[p], call, r)
    ensures Stays(w, Do(cfg, w, p, call), r.client, p, r.username, r.mode)
  {
  }

  lemma ModeCallLeaves(pc: PortConfig, ps: PortState, call: Call, r: Record)
    requires UniqueIds(ps.records) && RecordAfter(pc, ps, call, r.client) == Some(r) && Accepts(pc, ps, call)
    requires (call.Add? || call.Promote? || call.Demote?) && call.client == r.client
    ensures Leaves(pc, ps, call, r)
  {
    forall d ensures RecordOf(Apply(pc, ps, call), d) == if d == r.client then Some(r) else RecordOf(ps, d) {
      CallMovesRecords(pc, ps, call, d);
    }
  }

  lemma AddJoins(cfg: Config, w: World, c: ClientId, p: PortName, u: Username, mode: Mode, now: real)
    requires PortsSound(cfg, w) && p in cfg.ports
    requires mode.ReadWrite? ==> SeatFor(cfg, w.ports[p], p).1.ReadWrite?
    ensures Did(cfg, w, p, Add(c, u, mode, now))
    ensures var added := Do(cfg, w, p, Add(c, u, mode, now));
      PortsSound(cfg, added) && Stays(w, added, c, p, u, mode) && Joins(w, TakeSeat(added, c, p), c, p, u, mode)
  {
    var call := Add(c, u, mode, now);
    AddIsAdmittedExactly(cfg.ports[p], w.ports[p], c, u, mode, now);
    WritersAreSomeone(w.ports[p]);
    DoKeepsSound(cfg, w, p, call);
    ModeCallLeaves(cfg.ports[p], w.ports[p], call, Record(c, u, mode, now));
    LeavingStays(cfg, w, p, call, Record(c, u, mode, now));
  }

  // A client that sits nowhere connects to a local port. Who is unknown or not let in changes nothing;
  // who may only watch joins read-only; who may drive joins read-write on a `multiple` port and on a
  // `one` port that nobody drives, and read-only, told why, on a driven or a `none` one.
  lemma LocalConnectOutcome(cfg: Config, w: World, c: ClientId, p: PortName, u: Username, env: Env)
    requires PortsSound(cfg, w) && Local(cfg, p) && c !in w.seat
    ensures var (w', a) := RunAlone(cfg, w, Connect(c, p, u), env);
      if u !in cfg.permissions then (w', a) == (w, Say(NoPermissions, ReadOnly))
      else if !MayWatch(cfg, p, u) then (w', a) == (w, Say(DenialCode(cfg, p), ReadOnly))
      else if !MayDrive(cfg, p, u) then Joins(w, w', c, p, u, ReadOnly) && a == Say(ReadOnlyStanding, ReadOnly)
      else if ModeOf(cfg.ports[p]).NoWriter? then
        Joins(w, w', c, p, u, ReadOnly) && a == Say(CapacityNone, ReadOnly)
      else if ModeOf(cfg.ports[p]).OneWriter? && SomeoneWrites(w.ports[p]) then
        Joins(w, w', c, p, u, ReadOnly) && a == Say(CapacityFull, ReadOnly)
      else Joins(w, w', c, p, u, ReadWrite) && a == Say(AttachedCode, ReadWrite)
  {
    if MayWatch(cfg, p, u) {
      var (code, mode) := ResolveAccessMode(cfg, cfg.Port(p), w.Port(p), cfg.permissions[u], u);
      LadderGives(cfg, w, p, u);
      WritersAreSomeone(w.ports[p]);
      AddJoins(cfg, w, c, p, u, mode, env.now);
      AdmitRunsAlone(cfg, Do(cfg, w, p, Add(c, u, mode, env.now)), Connect(c, p, u), mode, mode, code,
                     [At(p, Add(c, u, mode, env.now))], env);
    } else if u in cfg.permissions {
      LadderGives(cfg, w, p, u);
    }
  }

  // On a federated port whoever may watch joins read-only first. The origin is asked only for a client
  // that may drive, and only while the local records leave a seat; its "read-write" then seats it.
  lemma FederatedConnectOutcome(cfg: Config, w: World, c: ClientId, p: PortName, u: Username, env: Env)
    requires PortsSound(cfg, w) && Federated(cfg, p) && c !in w.seat
    ensures var (w', a) := RunAlone(cfg, w, Connect(c, p, u), env);
      if u !in cfg.permissions then (w', a) == (w, Say(NoPermissions, ReadOnly))
      else if !MayWatch(cfg, p, u) then (w', a) == (w, Say(DenialCode(cfg, p), ReadOnly))
      else if !MayDrive(cfg, p, u) then Joins(w, w', c, p, u, ReadOnly) && a == Say(ReadOnlyStanding, ReadOnly)
      else if ModeOf(cfg.ports[p]).NoWriter? then
        Joins(w, w', c, p, u, ReadOnly) && a == Say(CapacityNone, ReadOnly)
      else if (ModeOf(cfg.ports[p]).OneWriter? && SomeoneWrites(w.ports[p])) || env.ask != OriginSays("read-write") then
        Joins(w, w', c, p, u, ReadOnly) && a == Say(CapacityFull, ReadOnly)
      else Joins(w, w', c, p, u, ReadWrite) && a == Say(AttachedCode, ReadWrite)
  {
    if MayWatch(cfg, p, u) {
      var (code, entitled) := ResolveAccessMode(cfg, cfg.Port(p), w.Port(p), cfg.permissions[u], u);
      var add := Add(c, u, ReadOnly, env.now);
      LadderGives(cfg, w, p, u);
      WritersAreSomeone(w.ports[p]);
      AddJoins(cfg, w, c, p, u, ReadOnly, env.now);
      AdmitRunsAlone(cfg, Do(cfg, w, p, add), Connect(c, p, u), entitled, ReadOnly, code, [At(p, add)], env);
      if entitled.ReadWrite? {
        NewcomerIsPromoted(cfg, w, TakeSeat(Do(cfg, w, p, add), c, p), c, p, u);
      }
    } else if u in cfg.permissions {
      LadderGives(cfg, w, p, u);
    }
  }

  // A port that is not configured takes nobody in.
  lemma MissingPortOutcome(cfg: Config, w: World, c: ClientId, p: PortName, u: Username, env: Env)
    requires PortsSound(cfg, w) && p !in cfg.ports && c !in w.seat
    ensures RunAlone(cfg, w, Connect(c, p, u), env) ==
      (w, Say(if u !in cfg.permissions then NoPermissions
              else if !MayWatch(cfg, p, u) then DeniedByAccessDefault
              else PortUnavailable, ReadOnly))
  {
    assert !ListsGroups(cfg.Port(p));
    DoneIsFinal(cfg, AttachSeg(cfg, w, c, p, u, env.now), Connect(c, p, u), env);
  }

  lemma PromoteStays(cfg: Config, w: World, c: ClientId, p: PortName, u: Username)
    requires PortsSound(cfg, w) && p in cfg.ports && RecordOf(w.ports[p], c).Some?
    requires RecordOf(w.ports[p], c).value.username == u && Did(cfg, w, p, Promote(c))
    ensures Stays(w, Do(cfg, w, p, Promote(c)), c, p, u, ReadWrite)
  {
    var r := RecordOf(w.ports[p], c).value.(mode := ReadWrite);
    ModeCallLeaves(cfg.ports[p], w.ports[p], Promote(c), r);
    LeavingStays(cfg, w, p, Promote(c), r);
  }

  lemma NewcomerIsPromoted(cfg: Config, w: World, seated: World, c: ClientId, p: PortName, u: Username)
    requires PortsSound(cfg, w) && PortsSound(cfg, seated) && p in cfg.ports
    requires Joins(w, seated, c, p, u, ReadOnly) && SeatFor(cfg, w.ports[p], p).1.ReadWrite?
    ensures Did(cfg, seated, p, Promote(c)) && Joins(w, Do(cfg, seated, p, Promote(c)), c, p, u, ReadWrite)
  {
    PromoteIsAdmittedExactly(cfg.ports[p], seated.ports[p], c);
    ListedIsAttached(seated.ports[p], c);
    if SomeoneWrites(seated.ports[p]) {
      var i :| 0 <= i < |seated.ports[p].records| && Writes(seated.ports[p].records[i]);
      var d := seated.ports[p].records[i].client;
      IndexIs(seated.ports[p].records, i);
      assert RecordOf(w.ports[p], d) == RecordOf(seated.ports[p], d);
      WriterIsCounted(w.ports[p], d);
    }
    PromoteStays(cfg, seated, c, p, u);
  }

  // ------------------------------------------------------- promotion and release

  // Between requests, a client that sits on a configured port: its record and its user.
  ghost predicate Sits(cfg: Config, w: World, c: ClientId, p: PortName) {
    Idle(cfg, w) && NamedClients(cfg) && p in cfg.ports && w.SeatedAt(c, p)
  }

  lemma SittersAreListed(cfg: Config, w: World, c: ClientId, p: PortName)
    requires Sits(cfg, w, c, p)
    ensures PortsSound(cfg, w) && Attached(w.ports[p], c) && c in cfg.clients
    ensures RecordOf(w.ports[p], c).value.username == cfg.clients[c] && cfg.clients[c] in cfg.permissions
    ensures Standing(cfg, w, c, p)
         == TakerEntitled(cfg, cfg.Port(p), cfg.permissions[cfg.clients[c]], cfg.clients[c])
  {
    IdlePlaces(cfg, w, c, p);
    assert RecordFits(cfg, p, c, RecordOf(w.ports[p], c));
  }

  // The code under which a sitting client that may not drive is refused.
  function BarredCode(cfg: Config, p: PortName, u: Username): (code: Code)
    ensures KindOf(code).Refusal?
  {
    if MayWatch(cfg, p, u) then NotEntitled else DenialCode(cfg, p)
  }

  // There is a seat for a client listed there.
  ghost predicate SeatIsOpen(cfg: Config, ps: PortState, p: PortName, c: ClientId)
    requires p in cfg.ports
  {
    match ModeOf(cfg.ports[p])
    case NoWriter => false
    case OneWriter => !SomeoneElseWrites(ps, c)
    case ManyWriters => true
  }

  lemma ElseIsSomeone(ps: PortState, c: ClientId)
    requires UniqueIds(ps.records) && Writers(ps.records) <= 1
    ensures SomeoneElseWrites(ps, c) <==> SomeoneWrites(ps) && !HoldsSeat(ps.records, c)
  {
    if SomeoneElseWrites(ps, c) {
      var i :| 0 <= i < |ps.records| && Writes(ps.records[i]) && ps.records[i].client != c;
      if HoldsSeat(ps.records, c) {
        SeatIsDriving(ps, c);
        IndexIs(ps.records, i);
        OneDriver(ps, c, ps.records[i].client);
      }
    }
    if SomeoneWrites(ps) && !HoldsSeat(ps.records, c) {
      var i :| 0 <= i < |ps.records| && Writes(ps.records[i]);
      assert ps.records[i].client != c;
    }
  }

  lemma OpenSeatIsPromoted(cfg: Config, w: World, c: ClientId, p: PortName)
    requires PortsSound(cfg, w) && p in cfg.ports && Attached(w.ports[p], c)
    ensures Did(cfg, w, p, Promote(c)) <==> SeatIsOpen(cfg, w.ports[p], p, c)
  {
    PromoteIsAdmittedExactly(cfg.ports[p], w.ports[p], c);
    ListedIsAttached(w.ports[p], c);
    if ModeOf(cfg.ports[p]).OneWriter? {
      ElseIsSomeone(w.ports[p], c);
    }
  }

  lemma SecondPromotionIsIdle(cfg: Config, w: World, c: ClientId, p: PortName)
    requires Did(cfg, w, p, Promote(c))
    ensures var once := Do(cfg, w, p, Promote(c)); Did(cfg, once, p, Promote(c)) && Do(cfg, once, p, Promote(c)) == once
  {
    PromotedTwice(cfg.ports[p], w.ports[p], c);
  }

  lemma PromotedTwice(pc: PortConfig, ps: PortState, c: ClientId)
    requires Accepts(pc, ps, Promote(c))
    ensures var once := Apply(pc, ps, Promote(c)); Accepts(pc, once, Promote(c)) && Apply(pc, once, Promote(c)) == once
  {
    var i := IndexOf(ps.records, c);
    var rs := Apply(pc, ps, Promote(c)).records;
    assert rs[i].client == c && rs[i].mode.ReadWrite?;
    assert IndexOf(rs, c) == i && rs[i := rs[i]] == rs;
  }

  // The code under which a listed client that may drive finds no seat.
  function NoSeatCode(cfg: Config, p: PortName): (code: Code)
    requires p in cfg.ports
    ensures KindOf(code).Unavailable?
  {
    match ModeOf(cfg.ports[p])
    case NoWriter => NoWriteSlot
    case OneWriter => PromoteFailed
    case ManyWriters => TakeWithoutSlot
  }

  lemma RefusalNamesTheMode(cfg: Config, p: PortName)
    requires p in cfg.ports
    ensures SeatRefusalCode(cfg.Port(p)) == NoSeatCode(cfg, p)
  {
  }

  // A sitting client asks to write. It must be allowed to drive the port; a federated port also needs
  // the origin's "read-write"; and there must be a seat. It then writes, and nothing else changed.
  lemma RequestOutcome(cfg: Config, w: World, c: ClientId, p: PortName, env: Env)
    requires Sits(cfg, w, c, p)
    ensures c in cfg.clients
    ensures var (w', a), u := RunAlone(cfg, w, RequestWrite(c, p), env), cfg.clients[c];
      if !MayDrive(cfg, p, u) then (w', a) == (w, Say(BarredCode(cfg, p, u), ReadOnly))
      else if Federated(cfg, p) && env.ask != OriginSays("read-write") then
        (w', a) == (w, Say(FederationDenied, ReadOnly))
      else if !SeatIsOpen(cfg, w.ports[p], p, c) then
        (w', a) == (w, Say(if Federated(cfg, p) then FederationDenied else NoSeatCode(cfg, p), ReadOnly))
      else Stays(w, w', c, p, u, ReadWrite) && a == Say(Granted, ReadWrite)
  {
    SittersAreListed(cfg, w, c, p);
    RequestRunsAlone(cfg, w, c, p, env);
    PromotionOutcome(cfg, w, c, p, env.ask);
  }

  lemma StartedOutcome(cfg: Config, w: World, c: ClientId, p: PortName)
    requires Sits(cfg, w, c, p)
    ensures c in cfg.clients
    ensures StartPromotion(cfg, w, c, p) ==
      if !MayDrive(cfg, p, cfg.clients[c]) then Refused(BarredCode(cfg, p, cfg.clients[c]), w, [])
      else if Federated(cfg, p) then MustAsk
      else PromoteNow(cfg, w, c, p)
  {
    SittersAreListed(cfg, w, c, p);
  }

  lemma SeatedOutcome(cfg: Config, w: World, c: ClientId, p: PortName)
    requires Sits(cfg, w, c, p)
    ensures c in cfg.clients
    ensures Did(cfg, w, p, Promote(c)) <==> SeatIsOpen(cfg, w.ports[p], p, c)
    ensures var r := PromoteNow(cfg, w, c, p);
      if SeatIsOpen(cfg, w.ports[p], p, c) then
        r.Promoted? && r.world == Do(cfg, w, p, Promote(c)) && Stays(w, r.world, c, p, cfg.clients[c], ReadWrite)
      else r == Refused(NoSeatCode(cfg, p), w, r.calls)
  {
    SittersAreListed(cfg, w, c, p);
    OpenSeatIsPromoted(cfg, w, c, p);
    RefusalNamesTheMode(cfg, p);
    if Did(cfg, w, p, Promote(c)) {
      PromoteStays(cfg, w, c, p, cfg.clients[c]);
    }
  }

  lemma AnswerOutcome(cfg: Config, w: World, c: ClientId, p: PortName, reply: Reply)
    requires Sits(cfg, w, c, p)
    ensures c in cfg.clients
    ensures var r := AnswerPromotion(cfg, w, c, p, reply);
      if reply == OriginSays("read-write") && SeatIsOpen(cfg, w.ports[p], p, c) then
        r.Promoted? && r.world == Do(cfg, w, p, Promote(c)) && Stays(w, r.world, c, p, cfg.clients[c], ReadWrite)
      else r == Refused(FederationDenied, w, r.calls)
  {
    SittersAreListed(cfg, w, c, p);
    SeatedOutcome(cfg, w, c, p);
    if Did(cfg, w, p, Promote(c)) {
      SecondPromotionIsIdle(cfg, w, c, p);
    }
  }

  lemma PromotionOutcome(cfg: Config, w: World, c: ClientId, p: PortName, reply: Reply)
    requires Sits(cfg, w, c, p)
    ensures c in cfg.clients
    ensures var r, u := PromotionAlone(cfg, w, c, p, reply), cfg.clients[c];
      if !MayDrive(cfg, p, u) then r == Refused(BarredCode(cfg, p, u), w, r.calls)
      else if Federated(cfg, p) && reply != OriginSays("read-write") then r == Refused(FederationDenied, w, r.calls)
      else if !SeatIsOpen(cfg, w.ports[p], p, c) then
        r == Refused(if Federated(cfg, p) then FederationDenied else NoSeatCode(cfg, p), w, r.calls)
      else r.Promoted? && r.world == Do(cfg, w, p, Promote(c)) && Stays(w, r.world, c, p, u, ReadWrite)
  {
    StartedOutcome(cfg, w, c, p);
    SeatedOutcome(cfg, w, c, p);
    AnswerOutcome(cfg, w, c, p, reply);
  }

  lemma DemoteStays(cfg: Config, w: World, c: ClientId, p: PortName, u: Username)
    requires PortsSound(cfg, w) && p in cfg.ports && RecordOf(w.ports[p], c).Some?
    requires RecordOf(w.ports[p], c).value.username == u
    ensures Did(cfg, w, p, Demote(c)) && Stays(w, Do(cfg, w, p, Demote(c)), c, p, u, ReadOnly)
  {
    var r := RecordOf(w.ports[p], c).value.(mode := ReadOnly);
    ModeCallLeaves(cfg.ports[p], w.ports[p], Demote(c), r);
    LeavingStays(cfg, w, p, Demote(c), r);
  }

  // A release by a sitting client always succeeds, whether it wrote or not; by any other it never does.
  lemma ReleaseOutcome(cfg: Config, w: World, c: ClientId, p: PortName, notify: bool, env: Env)
    requires Idle(cfg, w) && NamedClients(cfg) && p in cfg.ports
    ensures var (w', a) := RunAlone(cfg, w, GiveUpWrite(c, p, notify), env);
      if !w.SeatedAt(c, p) then (w', a) == (w, Say(NotAttached, ReadWrite))
      else c in cfg.clients && Stays(w, w', c, p, cfg.clients[c], ReadOnly) && a == Say(Released, ReadOnly)
  {
    GiveUpRunsAlone(cfg, w, c, p, notify, env);
    if w.SeatedAt(c, p) {
      SittersAreListed(cfg, w, c, p);
      DemoteStays(cfg, w, c, p, cfg.clients[c]);
    }
  }

  // A disconnect of a sitting client takes its record, its queue, its seat and its task, and no one else's.
  lemma DisconnectOutcome(cfg: Config, w: World, c: ClientId, p: PortName, env: Env)
    requires Sits(cfg, w, c, p)
    ensures var (w', a) := RunAlone(cfg, w, Disconnect(c, p), env);
      && a == Detached(true) && w'.seat == w.seat - {c} && w'.tasks == w.tasks - {c}
      && w'.ports.Keys == w.ports.Keys && p in w.ports
      && (forall q :: q in w.ports && q != p ==> w'.ports[q] == w.ports[q])
      && !Attached(w'.ports[p], c) && w'.ports[p].queues == w.ports[p].queues - {c}
      && (forall d :: d != c ==> RecordOf(w'.ports[p], d) == RecordOf(w.ports[p], d))
  {
    DisconnectRunsAlone(cfg, w, c, p, env);
    SittersAreListed(cfg, w, c, p);
    RemovalTakesOne(cfg.ports[p], w.ports[p], c);
  }

  lemma RemovalTakesOne(pc: PortConfig, ps: PortState, c: ClientId)
    requires UniqueIds(ps.records) && Attached(ps, c)
    ensures var after := Apply(pc, ps, Remove(c));
      && !Attached(after, c) && after.queues == ps.queues - {c}
      && forall d :: d != c ==> RecordOf(after, d) == RecordOf(ps, d)
  {
    forall d ensures RecordOf(Apply(pc, ps, Remove(c)), d) == if d == c then None else RecordOf(ps, d) {
      CallMovesRecords(pc, ps, Remove(c), d);
    }
  }

  // Who does not sit on the port is told so, whatever it asks for.
  lemma StrangersAreNotAttached(cfg: Config, w: World, c: ClientId, p: PortName, target: Option<string>, env: Env)
    requires !w.SeatedAt(c, p)
    ensures RunAlone(cfg, w, RequestWrite(c, p), env) == (w, Say(NotAttached, ReadOnly))
    ensures RunAlone(cfg, w, Take(c, p, target), env) == (w, Say(NotAttached, ReadOnly))
    ensures RunAlone(cfg, w, Disconnect(c, p), env) == (w, Detached(false))
  {
    RequestRunsAlone(cfg, w, c, p, env);
    RefusedTakeRunsAlone(cfg, w, c, p, target, NotAttached, env);
    DisconnectRunsAlone(cfg, w, c, p, env);
  }

  // ------------------------------------------------------------------------ take

  // A take by a sitting client that may not drive changes nothing.
  lemma BarredTakeOutcome(cfg: Config, w: World, c: ClientId, p: PortName, target: Option<string>, env: Env)
    requires Sits(cfg, w, c, p) && !DrivesFor(cfg, c, p)
    ensures c in cfg.clients
    ensures RunAlone(cfg, w, Take(c, p, target), env) == (w, Say(BarredCode(cfg, p, cfg.clients[c]), ReadOnly))
  {
    SittersAreListed(cfg, w, c, p);
    RefusedTakeRunsAlone(cfg, w, c, p, target, BarredCode(cfg, p, cfg.clients[c]), env);
  }

  lemma EntitledTakeGoesOn(cfg: Config, w: World, c: ClientId, p: PortName, target: Option<string>)
    requires Sits(cfg, w, c, p) && DrivesFor(cfg, c, p)
    ensures BeginTake(cfg, w, c, p, target) ==
      if Federated(cfg, p) then Seg(w, Wait(TakeAsking), []) else TakeLocal(cfg, w, c, p, target)
  {
    SittersAreListed(cfg, w, c, p);
  }

  // Where the take finds no single seat: a writer is told that it has what it wants if the port reads as
  // `multiple`, and everyone else why there is none.
  lemma NoSeatToTakeOutcome(cfg: Config, w: World, c: ClientId, p: PortName, target: Option<string>, env: Env)
    requires Sits(cfg, w, c, p) && Local(cfg, p) && DrivesFor(cfg, c, p)
    requires !WireToMode(cfg.ports[p].maxReadWriteUsers).OneWriter?
    ensures RunAlone(cfg, w, Take(c, p, target), env) ==
      (w, if WireToMode(cfg.ports[p].maxReadWriteUsers).ManyWriters? && Drives(w.ports[p], c) then
            Say(AlreadyRw, ReadWrite)
          else Say(NoSeatCode(cfg, p), ReadOnly))
  {
    SittersAreListed(cfg, w, c, p);
    EntitledTakeGoesOn(cfg, w, c, p, target);
    RefusalNamesTheMode(cfg, p);
    SeatIsDriving(w.ports[p], c);
    DoneIsFinal(cfg, TakeLocal(cfg, w, c, p, target), Take(c, p, target), env);
  }

  lemma ConfiguredModeIsTaken(raw: Raw)
    ensures ParseWriteMode(raw).Some? ==> WireToMode(raw) == ParseWriteMode(raw).value
  {
  }

  // There is no single seat to take on a local `none` port, nor on a `multiple` one, where a writer is
  // told that it has what it wants.
  lemma SeatlessTakeOutcome(cfg: Config, w: World, c: ClientId, p: PortName, target: Option<string>, env: Env)
    requires Sits(cfg, w, c, p) && Local(cfg, p) && DrivesFor(cfg, c, p) && !ModeOf(cfg.ports[p]).OneWriter?
    ensures RunAlone(cfg, w, Take(c, p, target), env) ==
      (w, if ModeOf(cfg.ports[p]).NoWriter? then Say(NoWriteSlot, ReadOnly)
          else if Drives(w.ports[p], c) then Say(AlreadyRw, ReadWrite)
          else Say(TakeWithoutSlot, ReadOnly))
  {
    ConfiguredModeIsTaken(cfg.ports[p].maxReadWriteUsers);
    NoSeatToTakeOutcome(cfg, w, c, p, target, env);
  }

  lemma OthersAreHolders(ps: PortState, c: ClientId)
    requires UniqueIds(ps.records)
    ensures Holders(ps.records, c) != [] <==> exists v :: v != c && Drives(ps, v)
  {
    var hs := Holders(ps.records, c);
    if hs != [] {
      assert hs[0] in hs;
      ListedWriterDrives(ps, hs[0]);
    }
    if v :| v != c && Drives(ps, v) {
      assert ps.records[IndexOf(ps.records, v)] in hs;
    }
  }

  // What a take says that names nobody who writes.
  ghost function NobodyCode(ps: PortState, c: ClientId): (code: Code)
    ensures KindOf(code).Unavailable? || KindOf(code).Refusal?
  {
    if exists v :: v != c && Drives(ps, v) then InvalidTarget else NoHolder
  }

  lemma NameMeansNobody(ps: PortState, c: ClientId, target: string)
    requires UniqueIds(ps.records) && Writers(ps.records) <= 1
    requires forall v :: v != c && Drives(ps, v) ==> !CalledBy(v, target)
    ensures ResolveTakeTarget(ps, c, Some(target)) ==
      NoChoice(NobodyCode(ps, c))
  {
    OthersAreHolders(ps, c);
    if v :| v != c && Drives(ps, v) {
      SoleHolderMatches(ps, c, v, target);
    }
  }

  lemma NamelessTakeEnds(cfg: Config, w: World, c: ClientId, p: PortName, target: string)
    requires Sits(cfg, w, c, p) && OnePort(cfg, p) && DrivesFor(cfg, c, p)
    requires forall v :: v != c && Drives(w.ports[p], v) ==> !CalledBy(v, target)
    ensures BeginTake(cfg, w, c, p, Some(target)) == Seg(w, Answered(NobodyCode(w.ports[p], c), ReadOnly), [])
  {
    SittersAreListed(cfg, w, c, p);
    OnePortHasOneSeat(cfg, p);
    NameMeansNobody(w.ports[p], c, target);
    EntitledTakeIsLocal(cfg, w, c, p, Some(target));
  }

  // A refused named take says whether nobody else writes or the name means nobody who does.
  lemma RefusedNameOutcome(cfg: Config, w: World, c: ClientId, p: PortName, target: string, env: Env)
    requires Sits(cfg, w, c, p) && OnePort(cfg, p) && DrivesFor(cfg, c, p)
    requires forall v :: v != c && Drives(w.ports[p], v) ==> !CalledBy(v, target)
    ensures RunAlone(cfg, w, Take(c, p, Some(target)), env) ==
      (w, Say(if exists v :: v != c && Drives(w.ports[p], v) then InvalidTarget else NoHolder, ReadOnly))
  {
    NamelessTakeEnds(cfg, w, c, p, target);
    RefusedTakeRunsAlone(cfg, w, c, p, Some(target), NobodyCode(w.ports[p], c), env);
  }

  // A taker that was turned away after the demotion is told that the promotion failed, on a local port
  // with one seat, and the victim is listed read-write again if it is still listed and the seat is free.
  lemma TurnedAwayTakeOutcome(cfg: Config, w: World, taker: ClientId, p: PortName, victim: ClientId)
    requires PortsSound(cfg, w) && Local(cfg, p) && ModeOf(cfg.ports[p]).OneWriter?
    requires !MayStillTake(cfg, w, taker, p)
    ensures var seg := PromoteOrRestore(cfg, w, taker, p, victim);
      && seg.outcome == Answered(PromoteFailed, ReadOnly)
      && (IsListed(w.ports[p], victim) && !SomeoneElseWrites(w.ports[p], victim) ==> Drives(seg.world.Port(p), victim))
  {
    RefusalNamesTheMode(cfg, p);
    RestoreWorlds(cfg, w, taker, p, victim);
    PromotionCases(cfg, w, taker, p);
    ListedIsAttached(w.ports[p], victim);
    if IsListed(w.ports[p], victim) {
      OpenSeatIsPromoted(cfg, w, victim, p);
      CallMovesRecords(cfg.ports[p], w.ports[p], Promote(victim), victim);
    }
  }

  lemma NamedVictimIsListed(cfg: Config, w: World, c: ClientId, p: PortName, target: Option<string>)
    requires PortsSound(cfg, w) && p in cfg.ports && Did(cfg, w, p, Promote(c))
    ensures NamedVictim(Do(cfg, w, p, Promote(c)), p, target) ==
      if target.Some? && target.value != "" && IsListed(w.ports[p], target.value) then target else None
  {
    if target.Some? {
      ListedIsAttached(w.ports[p], target.value);
      CallMovesRecords(cfg.ports[p], w.ports[p], Promote(c), target.value);
    }
  }

  // A take on a federated port needs the origin's "read-write" for the take and again for the local
  // record, and a seat among the local records. It names the target as displaced if it is listed here.
  lemma FederatedTakeOutcome(cfg: Config, w: World, c: ClientId, p: PortName, target: Option<string>, env: Env)
    requires Sits(cfg, w, c, p) && Federated(cfg, p) && DrivesFor(cfg, c, p)
    ensures var (w', a) := RunAlone(cfg, w, Take(c, p, target), env);
      if env.take != OriginSays("read-write") then (w', a) == (w, Say(FederationDenied, ReadOnly))
      else if env.ask != OriginSays("read-write") || !SeatIsOpen(cfg, w.ports[p], p, c) then
        (w', a) == (w, Say(PromoteFailed, ReadOnly))
      else
        && Stays(w, w', c, p, cfg.clients[c], ReadWrite)
        && a == Decided(Decision(Granted, ReadWrite,
             if target.Some? && target.value != "" && IsListed(w.ports[p], target.value) then target else None))
  {
    SittersAreListed(cfg, w, c, p);
    EntitledTakeGoesOn(cfg, w, c, p, target);
    FederatedTakeRunsAlone(cfg, w, Take(c, p, target), env);
    PromotionOutcome(cfg, w, c, p, env.ask);
    SeatedOutcome(cfg, w, c, p);
    if SeatIsOpen(cfg, w.ports[p], p, c) {
      NamedVictimIsListed(cfg, w, c, p, target);
    }
  }
}
