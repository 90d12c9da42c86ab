/** One port of PortManager, on values: who is attached, in which mode, and the
    queues that carry its output. The calls below are the PortManager methods
    seen from one port; class PortManager is proved to perform exactly these. */
module PortSeats {
  import opened Prelude
  import opened AccessControl

  type ClientId = string
  type Username = string

  datatype Mode = ReadWrite | ReadOnly

  datatype Record = Record(client: ClientId, username: Username, mode: Mode, connectedAt: real)

  datatype PortState = PortState(
    records: seq<Record>,
    queues: map<ClientId, seq<Bytes>>,
    shared: seq<Bytes>,
    dropped: nat,
    scrollback: Bytes,
    holds: nat)

  // What stays fixed while a port is registered.
  datatype PortConfig = PortConfig(
    maxReadWriteUsers: Raw,
    readWriteGroups: set<string>,
    readOnlyGroups: set<string>,
    federated: bool,
    scrollbackSize: nat)
  {
    function Capacity(): Capacity { WriteCapacity(maxReadWriteUsers) }

    // A proxy for a remote port queues without limit; a local wrapper keeps QUEUE_SIZE chunks.
    predicate SharedFull(length: nat) { !federated && length >= QUEUE_SIZE }
  }

  const QUEUE_SIZE := 100

  const NEW_PORT := PortState([], map[], [], 0, [], 0)

  datatype Call =
    | Add(client: ClientId, username: Username, mode: Mode, now: real)
    | Remove(client: ClientId)
    | Promote(client: ClientId)
    | Demote(client: ClientId)
    | Write(client: ClientId)
    | Incoming(data: Bytes, requireClients: Option<bool>)
    | Deliver(client: ClientId)
    | ReadShared
    | Hold
    | Release

  // ---------------------------------------------------------------- records

  // Position of the client's first record; the length when there is none.
  function IndexOf(rs: seq<Record>, c: ClientId): (i: nat)
    ensures i <= |rs|
    ensures i < |rs| ==> rs[i].client == c
    ensures forall j :: 0 <= j < i ==> rs[j].client != c
  {
    if rs == [] || rs[0].client == c then 0 else 1 + IndexOf(rs[1..], c)
  }

  function RecordOf(ps: PortState, c: ClientId): Option<Record> {
    var i := IndexOf(ps.records, c);
    if i < |ps.records| then Some(ps.records[i]) else None
  }

  predicate Attached(ps: PortState, c: ClientId) { RecordOf(ps, c).Some? }

  // The write gate: the first record of the client decides.
  predicate Drives(ps: PortState, c: ClientId) {
    RecordOf(ps, c).Some? && RecordOf(ps, c).value.mode.ReadWrite?
  }

  function Seat(r: Record): nat { if r.mode.ReadWrite? then 1 else 0 }

  // Read-write seats in use.
  function Writers(rs: seq<Record>): nat {
    if rs == [] then 0 else Writers(rs[..|rs| - 1]) + Seat(rs[|rs| - 1])
  }

  // Read-write seats in use by anyone but `c`.
  function WritersBut(rs: seq<Record>, c: ClientId): nat {
    if rs == [] then 0
    else
      var last := rs[|rs| - 1];
      WritersBut(rs[..|rs| - 1], c) + (if last.client == c then 0 else Seat(last))
  }

  predicate HoldsSeat(rs: seq<Record>, c: ClientId) {
    exists i :: 0 <= i < |rs| && rs[i].client == c && rs[i].mode.ReadWrite?
  }

  function Without(rs: seq<Record>, i: nat): seq<Record>
    requires i < |rs|
  {
    rs[..i] + rs[i + 1..]
  }

  // ------------------------------------------------------------------ calls

  function Attach(ps: PortState, r: Record): PortState {
    var i := IndexOf(ps.records, r.client);
    if i < |ps.records| then
      ps.(records := ps.records[i := r],
          queues := if r.client in ps.queues then ps.queues else ps.queues[r.client := []])
    else
      ps.(records := ps.records + [r], queues := ps.queues[r.client := []])
  }

  function SetMode(ps: PortState, c: ClientId, m: Mode): PortState {
    var i := IndexOf(ps.records, c);
    if i < |ps.records| then ps.(records := ps.records[i := ps.records[i].(mode := m)]) else ps
  }

  predicate AddAllowed(cap: Capacity, ps: PortState, c: ClientId, m: Mode) {
    m.ReadWrite? ==> !cap.Full(WritersBut(ps.records, c))
  }

  predicate PromoteAllowed(cap: Capacity, ps: PortState, c: ClientId) {
    HoldsSeat(ps.records, c) || !cap.Full(Writers(ps.records))
  }

  // A full queue drops its oldest chunk for the newest one.
  function Push(q: seq<Bytes>, data: Bytes): seq<Bytes> {
    if |q| >= QUEUE_SIZE then q[1..] + [data] else q + [data]
  }

  function FullQueues(ps: PortState): set<ClientId> {
    set c | c in ps.queues && |ps.queues[c]| >= QUEUE_SIZE
  }

  function KeepLast(b: Bytes, n: nat): Bytes {
    if |b| > n then b[|b| - n..] else b
  }

  predicate OffersShared(ps: PortState, requireClients: Option<bool>) {
    requireClients == Some(false) || |ps.records| > 0 || ps.holds > 0
  }

  function TakeIn(pc: PortConfig, ps: PortState, data: Bytes, requireClients: Option<bool>): PortState {
    var fanned := ps.(
      scrollback := if pc.scrollbackSize > 0 then KeepLast(ps.scrollback + data, pc.scrollbackSize) else ps.scrollback,
      queues := map c | c in ps.queues :: Push(ps.queues[c], data),
      dropped := ps.dropped + |FullQueues(ps)|);
    if !OffersShared(ps, requireClients) then fanned
    else if pc.SharedFull(|ps.shared|) then
      fanned.(shared := ps.shared[1..] + [data], dropped := fanned.dropped + 1)
    else fanned.(shared := ps.shared + [data])
  }

  // The answer each method returns to its caller.
  predicate Accepts(pc: PortConfig, ps: PortState, call: Call) {
    match call
    case Add(c, _, m, _) => AddAllowed(pc.Capacity(), ps, c, m)
    case Remove(c) => Attached(ps, c)
    case Promote(c) => PromoteAllowed(pc.Capacity(), ps, c) && Attached(ps, c)
    case Demote(c) => Attached(ps, c)
    case Write(c) => Drives(ps, c)
    case Incoming(_, _) => true
    case Deliver(c) => c in ps.queues && ps.queues[c] != []
    case ReadShared => ps.shared != []
    case Hold => true
    case Release => true
  }

  // The port after a call; a refused call changes nothing.
  function Apply(pc: PortConfig, ps: PortState, call: Call): PortState {
    if !Accepts(pc, ps, call) then ps else
    match call
    case Add(c, u, m, now) => Attach(ps, Record(c, u, m, now))
    case Remove(c) =>
      ps.(records := Without(ps.records, IndexOf(ps.records, c)), queues := ps.queues - {c})
    case Promote(c) => SetMode(ps, c, ReadWrite)
    case Demote(c) => SetMode(ps, c, ReadOnly)
    case Write(_) => ps
    case Incoming(data, required) => TakeIn(pc, ps, data, required)
    case Deliver(c) => ps.(queues := ps.queues[c := ps.queues[c][1..]])
    case ReadShared => ps.(shared := ps.shared[1..])
    case Hold => ps.(holds := ps.holds + 1)
    case Release =>
      var left := if ps.holds > 0 then ps.holds - 1 else 0;
      if left == 0 then ps.(holds := 0, shared := []) else ps.(holds := left)
  }

  function Run(pc: PortConfig, ps: PortState, calls: seq<Call>): PortState
    decreases calls
  {
    if calls == [] then ps else Run(pc, Apply(pc, ps, calls[0]), calls[1..])
  }

  // -------------------------------------------------------------- invariants

  ghost predicate UniqueIds(rs: seq<Record>) {
    forall i, j :: 0 <= i < j < |rs| ==> rs[i].client != rs[j].client
  }

  predicate SeatsFit(cap: Capacity, rs: seq<Record>) { cap.Finite? ==> Writers(rs) <= cap.writers }

  // No client is listed twice and the seats in use fit the capacity.
  ghost predicate Sound(cap: Capacity, ps: PortState) {
    UniqueIds(ps.records) && SeatsFit(cap, ps.records)
  }

  lemma {:induction false} WritersSet(rs: seq<Record>, i: nat, r: Record)
    requires i < |rs|
    ensures Writers(rs[i := r]) == Writers(rs) - Seat(rs[i]) + Seat(r)
  {
    var init := rs[..|rs| - 1];
    if i == |rs| - 1 {
      assert rs[i := r][..|rs| - 1] == init;
    } else {
      WritersSet(init, i, r);
      assert rs[i := r][..|rs| - 1] == init[i := r];
    }
  }

  lemma {:induction false} WritersWithout(rs: seq<Record>, i: nat)
    requires i < |rs|
    ensures Writers(Without(rs, i)) == Writers(rs) - Seat(rs[i])
  {
    var init := rs[..|rs| - 1];
    if i == |rs| - 1 {
      assert Without(rs, i) == init;
    } else {
      WritersWithout(init, i);
      assert Without(rs, i)[..|rs| - 2] == Without(init, i);
    }
  }

  lemma {:induction false} WritersButCounts(rs: seq<Record>, c: ClientId)
    requires UniqueIds(rs)
    ensures WritersBut(rs, c) ==
      Writers(rs) - (if IndexOf(rs, c) < |rs| then Seat(rs[IndexOf(rs, c)]) else 0)
  {
    if rs != [] {
      var init, last := rs[..|rs| - 1], rs[|rs| - 1];
      WritersButCounts(init, c);
      var i, k := IndexOf(rs, c), IndexOf(init, c);
      if k < |init| {
        assert rs[k].client == c && i == k;
      } else if i < |rs| {
        assert i == |init|;
      }
    }
  }

  lemma {:induction false} WritersAtLeast(rs: seq<Record>, i: nat, j: nat)
    requires i < j < |rs| && rs[i].mode.ReadWrite? && rs[j].mode.ReadWrite?
    ensures Writers(rs) >= 2
  {
    WritersSet(rs, i, rs[i].(mode := ReadOnly));
    var rest := rs[i := rs[i].(mode := ReadOnly)];
    WritersSet(rest, j, rest[j].(mode := ReadOnly));
  }

  lemma WriterIsCounted(ps: PortState, c: ClientId)
    requires Drives(ps, c)
    ensures Writers(ps.records) >= 1
  {
    var rs, i := ps.records, IndexOf(ps.records, c);
    WritersSet(rs, i, rs[i].(mode := ReadOnly));
  }

  lemma {:induction false} WriterExists(rs: seq<Record>) returns (i: nat)
    requires Writers(rs) >= 1
    ensures i < |rs| && rs[i].mode.ReadWrite?
  {
    if rs[|rs| - 1].mode.ReadWrite? {
      i := |rs| - 1;
    } else {
      i := WriterExists(rs[..|rs| - 1]);
    }
  }

  // With unique ids, holding a seat anywhere is driving.
  lemma SeatIsDriving(ps: PortState, c: ClientId)
    requires UniqueIds(ps.records)
    ensures HoldsSeat(ps.records, c) <==> Drives(ps, c)
  {
    if HoldsSeat(ps.records, c) {
      var i :| 0 <= i < |ps.records| && ps.records[i].client == c && ps.records[i].mode.ReadWrite?;
      assert i == IndexOf(ps.records, c);
    }
  }

  // Two clients that drive the same port need two seats.
  lemma OneDriver(ps: PortState, c: ClientId, d: ClientId)
    requires Writers(ps.records) <= 1 && Drives(ps, c) && Drives(ps, d)
    ensures c == d
  {
    var i, j := IndexOf(ps.records, c), IndexOf(ps.records, d);
    if i < j {
      WritersAtLeast(ps.records, i, j);
    } else if j < i {
      WritersAtLeast(ps.records, j, i);
    }
  }

  // What a call does to the record of any client `d`.
  function RecordAfter(pc: PortConfig, ps: PortState, call: Call, d: ClientId): Option<Record> {
    var before := RecordOf(ps, d);
    if !Accepts(pc, ps, call) then before else
    match call
    case Add(c, u, m, now) => if c == d then Some(Record(c, u, m, now)) else before
    case Remove(c) => if c == d then None else before
    case Promote(c) => if c == d && before.Some? then Some(before.value.(mode := ReadWrite)) else before
    case Demote(c) => if c == d && before.Some? then Some(before.value.(mode := ReadOnly)) else before
    case _ => before
  }

  lemma IndexIs(rs: seq<Record>, i: nat)
    requires UniqueIds(rs) && i < |rs|
    ensures IndexOf(rs, rs[i].client) == i
  {
  }

  lemma ReplacedRecords(ps: PortState, i: nat, r: Record, d: ClientId)
    requires UniqueIds(ps.records) && i < |ps.records| && r.client == ps.records[i].client
    ensures UniqueIds(ps.records[i := r])
    ensures RecordOf(ps.(records := ps.records[i := r]), d) == if d == r.client then Some(r) else RecordOf(ps, d)
  {
    var rs, rs' := ps.records, ps.records[i := r];
    assert forall j :: 0 <= j < |rs| ==> rs'[j].client == rs[j].client;
    if IndexOf(rs, d) < |rs| {
      IndexIs(rs', IndexOf(rs, d));
    }
  }

  lemma AppendedRecords(ps: PortState, r: Record, d: ClientId)
    requires UniqueIds(ps.records) && !Attached(ps, r.client)
    ensures UniqueIds(ps.records + [r])
    ensures RecordOf(ps.(records := ps.records + [r]), d) == if d == r.client then Some(r) else RecordOf(ps, d)
  {
    var rs, rs' := ps.records, ps.records + [r];
    assert UniqueIds(rs');
    if d == r.client {
      IndexIs(rs', |rs|);
    } else if IndexOf(rs, d) < |rs| {
      IndexIs(rs', IndexOf(rs, d));
    }
  }

  lemma WithoutAt(rs: seq<Record>, i: nat)
    requires UniqueIds(rs) && i < |rs|
    ensures |Without(rs, i)| == |rs| - 1
    ensures forall j :: 0 <= j < |rs| - 1 ==> Without(rs, i)[j] == rs[if j < i then j else j + 1]
    ensures UniqueIds(Without(rs, i))
  {
    assert forall j :: 0 <= j < |rs| - 1 ==> Without(rs, i)[j] == rs[if j < i then j else j + 1];
  }

  lemma RemovedIsGone(rs: seq<Record>, i: nat)
    requires UniqueIds(rs) && i < |rs|
    ensures IndexOf(Without(rs, i), rs[i].client) == |Without(rs, i)|
  {
    WithoutAt(rs, i);
    assert forall j :: 0 <= j < |rs| - 1 ==> Without(rs, i)[j].client != rs[i].client;
  }

  lemma OthersMoveUp(rs: seq<Record>, i: nat, k: nat)
    requires UniqueIds(rs) && i < |rs| && k < |rs| && k != i
    ensures var rs', j := Without(rs, i), if k < i then k else k - 1;
      j < |rs'| && IndexOf(rs', rs[k].client) == j && rs'[j] == rs[k]
  {
    WithoutAt(rs, i);
    IndexIs(Without(rs, i), if k < i then k else k - 1);
  }

  lemma StrangersStayAway(rs: seq<Record>, i: nat, d: ClientId)
    requires UniqueIds(rs) && i < |rs| && IndexOf(rs, d) == |rs|
    ensures IndexOf(Without(rs, i), d) == |Without(rs, i)|
  {
    WithoutAt(rs, i);
    assert forall j :: 0 <= j < |rs| - 1 ==> Without(rs, i)[j].client != d;
  }

  lemma RemovedRecord(ps: PortState, i: nat, d: ClientId)
    requires UniqueIds(ps.records) && i < |ps.records|
    ensures UniqueIds(Without(ps.records, i))
    ensures RecordOf(ps.(records := Without(ps.records, i)), d)
         == if d == ps.records[i].client then None else RecordOf(ps, d)
  {
    var rs, k := ps.records, IndexOf(ps.records, d);
    WithoutAt(rs, i);
    if d == rs[i].client {
      RemovedIsGone(rs, i);
    } else if k < |rs| {
      OthersMoveUp(rs, i, k);
    } else {
      StrangersStayAway(rs, i, d);
    }
  }

  // Every call moves only the record it names, and moves it as RecordAfter says.
  lemma CallMovesRecords(pc: PortConfig, ps: PortState, call: Call, d: ClientId)
    requires UniqueIds(ps.records)
    ensures UniqueIds(Apply(pc, ps, call).records)
    ensures RecordOf(Apply(pc, ps, call), d) == RecordAfter(pc, ps, call, d)
  {
    if Accepts(pc, ps, call) {
      var rs := ps.records;
      match call
      case Add(c, u, m, now) =>
        if IndexOf(rs, c) < |rs| {
          ReplacedRecords(ps, IndexOf(rs, c), Record(c, u, m, now), d);
        } else {
          AppendedRecords(ps, Record(c, u, m, now), d);
        }
      case Remove(c) => RemovedRecord(ps, IndexOf(rs, c), d);
      case Promote(c) => ReplacedRecords(ps, IndexOf(rs, c), rs[IndexOf(rs, c)].(mode := ReadWrite), d);
      case Demote(c) => ReplacedRecords(ps, IndexOf(rs, c), rs[IndexOf(rs, c)].(mode := ReadOnly), d);
      case _ =>
    }
  }

  lemma AddKeepsSeatsFit(cap: Capacity, ps: PortState, r: Record)
    requires Sound(cap, ps) && AddAllowed(cap, ps, r.client, r.mode)
    ensures SeatsFit(cap, Attach(ps, r).records)
  {
    var rs, i := ps.records, IndexOf(ps.records, r.client);
    WritersButCounts(rs, r.client);
    if i < |rs| {
      WritersSet(rs, i, r);
    } else {
      assert (rs + [r])[..|rs|] == rs;
    }
  }

  lemma RemoveKeepsSeatsFit(cap: Capacity, rs: seq<Record>, i: nat)
    requires SeatsFit(cap, rs) && i < |rs|
    ensures SeatsFit(cap, Without(rs, i))
  {
    WritersWithout(rs, i);
  }

  lemma PromoteKeepsSeatsFit(cap: Capacity, ps: PortState, c: ClientId)
    requires Sound(cap, ps) && Attached(ps, c) && PromoteAllowed(cap, ps, c)
    ensures SeatsFit(cap, SetMode(ps, c, ReadWrite).records)
  {
    var rs, i := ps.records, IndexOf(ps.records, c);
    SeatIsDriving(ps, c);
    WritersSet(rs, i, rs[i].(mode := ReadWrite));
  }

  lemma DemoteKeepsSeatsFit(cap: Capacity, ps: PortState, c: ClientId)
    requires SeatsFit(cap, ps.records) && Attached(ps, c)
    ensures SeatsFit(cap, SetMode(ps, c, ReadOnly).records)
  {
    var rs, i := ps.records, IndexOf(ps.records, c);
    WritersSet(rs, i, rs[i].(mode := ReadOnly));
  }

  // Every call keeps ids unique and the seats within capacity.
  lemma CallKeepsSound(pc: PortConfig, ps: PortState, call: Call)
    requires Sound(pc.Capacity(), ps)
    ensures Sound(pc.Capacity(), Apply(pc, ps, call))
  {
    CallMovesRecords(pc, ps, call, "");
    if Accepts(pc, ps, call) {
      match call
      case Add(c, u, m, now) => AddKeepsSeatsFit(pc.Capacity(), ps, Record(c, u, m, now));
      case Remove(c) => RemoveKeepsSeatsFit(pc.Capacity(), ps.records, IndexOf(ps.records, c));
      case Promote(c) => PromoteKeepsSeatsFit(pc.Capacity(), ps, c);
      case Demote(c) => DemoteKeepsSeatsFit(pc.Capacity(), ps, c);
      case _ =>
    }
  }

  // Over every run of calls, from any sound port: unique ids, seats within capacity.
  lemma {:induction false} RunKeepsSound(pc: PortConfig, ps: PortState, calls: seq<Call>)
    requires Sound(pc.Capacity(), ps)
    ensures Sound(pc.Capacity(), Run(pc, ps, calls))
    decreases calls
  {
    if calls != [] {
      CallKeepsSound(pc, ps, calls[0]);
      RunKeepsSound(pc, Apply(pc, ps, calls[0]), calls[1..]);
    }
  }

  lemma {:induction false} RunSplit(pc: PortConfig, ps: PortState, a: seq<Call>, b: seq<Call>)
    ensures Run(pc, ps, a + b) == Run(pc, Run(pc, ps, a), b)
    decreases a
  {
    if a == [] {
      assert a + b == b;
    } else {
      assert (a + b)[1..] == a[1..] + b;
      RunSplit(pc, Apply(pc, ps, a[0]), a[1..], b);
    }
  }

  // ------------------------------------------------------------ writer handover

  // The calls that can end a client's hold on the write seat.
  predicate Unseats(call: Call, c: ClientId) {
    || call == Demote(c)
    || call == Remove(c)
    || (call.Add? && call.client == c)
  }

  lemma {:induction false} DriverStays(pc: PortConfig, ps: PortState, calls: seq<Call>, c: ClientId)
    requires Sound(pc.Capacity(), ps) && Drives(ps, c)
    requires forall k :: 0 <= k < |calls| ==> !Unseats(calls[k], c)
    ensures Drives(Run(pc, ps, calls), c)
    decreases calls
  {
    if calls != [] {
      CallMovesRecords(pc, ps, calls[0], c);
      CallKeepsSound(pc, ps, calls[0]);
      DriverStays(pc, Apply(pc, ps, calls[0]), calls[1..], c);
    }
  }

  // On a port with one seat, two accepted writes by different clients have a
  // demotion, removal or re-add of the first writer between them.
  lemma WriterHandover(pc: PortConfig, ps: PortState, calls: seq<Call>, i: nat, j: nat, c: ClientId, d: ClientId)
    requires pc.Capacity() == Finite(1) && Sound(pc.Capacity(), ps)
    requires i < j < |calls| && c != d
    requires calls[i] == Write(c) && Accepts(pc, Run(pc, ps, calls[..i]), calls[i])
    requires calls[j] == Write(d) && Accepts(pc, Run(pc, ps, calls[..j]), calls[j])
    ensures exists k :: i < k < j && Unseats(calls[k], c)
  {
    var at_i, between := Run(pc, ps, calls[..i]), calls[i..j];
    RunKeepsSound(pc, ps, calls[..i]);
    RunKeepsSound(pc, ps, calls[..j]);
    assert calls[..j] == calls[..i] + between;
    RunSplit(pc, ps, calls[..i], between);
    if forall k :: i < k < j ==> !Unseats(calls[k], c) {
      assert forall k :: 0 <= k < |between| ==> between[k] == calls[i + k];
      DriverStays(pc, at_i, between, c);
      OneDriver(Run(pc, ps, calls[..j]), c, d);
    }
  }
}
