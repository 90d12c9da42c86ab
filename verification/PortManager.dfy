/** `PortManager` and its port objects, updated in place. Every method performs
    exactly one call of PortSeats on the port it names. */
module PortManager {
  import opened Prelude
  import opened AccessControl
  import opened PortSeats
  import opened AccessLadder

  class Port {
    const config: PortConfig
    var connectedClients: seq<Record>
    var clientQueues: map<ClientId, seq<Bytes>>
    var dataQueue: seq<Bytes>
    var droppedChunks: nat
    var scrollback: Bytes
    var federationViewerCount: nat

    constructor (config: PortConfig)
      ensures this.config == config && State() == NEW_PORT
    {
      this.config := config;
      connectedClients, clientQueues, dataQueue := [], map[], [];
      droppedChunks, scrollback, federationViewerCount := 0, [], 0;
    }

    ghost function State(): PortState
      reads this
    {
      PortState(connectedClients, clientQueues, dataQueue, droppedChunks, scrollback, federationViewerCount)
    }
  }

  // A call on one of several ports.
  function CallOn(configs: map<PortName, PortConfig>, states: map<PortName, PortState>, p: PortName, call: Call)
    : map<PortName, PortState>
  {
    if p in configs && p in states then states[p := Apply(configs[p], states[p], call)] else states
  }

  // Chunks a queue loses when one more arrives.
  function Loss(q: seq<Bytes>): nat { if |q| >= QUEUE_SIZE then 1 else 0 }

  ghost function FullIn(queues: map<ClientId, seq<Bytes>>, among: set<ClientId>): set<ClientId> {
    set c | c in queues && c in among && |queues[c]| >= QUEUE_SIZE
  }

  lemma FullStep(queues: map<ClientId, seq<Bytes>>, among: set<ClientId>, c: ClientId)
    requires among <= queues.Keys && c in among
    ensures |FullIn(queues, among)| == |FullIn(queues, among - {c})| + Loss(queues[c])
  {
    if Loss(queues[c]) == 1 {
      assert FullIn(queues, among) == FullIn(queues, among - {c}) + {c};
    } else {
      assert FullIn(queues, among) == FullIn(queues, among - {c});
    }
  }

  class PortManager {
    const ports: map<PortName, Port>

    constructor (ports: map<PortName, Port>)
      ensures this.ports == ports
    {
      this.ports := ports;
    }

    // No two names share a port object.
    ghost predicate Valid() {
      forall a, b :: a in ports && b in ports && a != b ==> ports[a] != ports[b]
    }

    function Configs(): map<PortName, PortConfig> { map p | p in ports :: ports[p].config }

    ghost function View(): map<PortName, PortState>
      reads ports.Values
    {
      map p | p in ports :: ports[p].State()
    }

    ghost function Touched(p: PortName): set<Port> { if p in ports then {ports[p]} else {} }

    twostate lemma OnlyTouched(p: PortName)
      requires p in ports
      requires forall q :: q in ports && q != p ==> ports[q].State() == old(ports[q].State())
      ensures View() == old(View())[p := ports[p].State()]
    {
    }

    // ------------------------------------------------------------- lookups

    static method FindExistingClientIdx(port: Port, clientId: ClientId) returns (i: nat)
      ensures i == IndexOf(port.connectedClients, clientId)
    {
      var rs := port.connectedClients;
      i := 0;
      while i < |rs|
        invariant i <= |rs|
        invariant forall j :: 0 <= j < i ==> rs[j].client != clientId
      {
        if rs[i].client == clientId {
          break;
        }
        i := i + 1;
      }
    }

    static method RwCounts(port: Port, clientId: ClientId) returns (current: nat, capacity: Capacity)
      ensures current == WritersBut(port.connectedClients, clientId)
      ensures capacity == port.config.Capacity()
    {
      var rs := port.connectedClients;
      capacity := WriteCapacity(port.config.maxReadWriteUsers);
      current := 0;
      for i := 0 to |rs|
        invariant current == WritersBut(rs[..i], clientId)
      {
        if rs[i].mode.ReadWrite? && rs[i].client != clientId {
          current := current + 1;
        }
        assert rs[..i + 1][..i] == rs[..i];
      }
      assert rs[..|rs|] == rs;
    }

    static method CountWriters(port: Port) returns (current: nat)
      ensures current == Writers(port.connectedClients)
    {
      var rs := port.connectedClients;
      current := 0;
      for i := 0 to |rs|
        invariant current == Writers(rs[..i])
      {
        if rs[i].mode.ReadWrite? {
          current := current + 1;
        }
        assert rs[..i + 1][..i] == rs[..i];
      }
      assert rs[..|rs|] == rs;
    }

    static method HasSeat(port: Port, clientId: ClientId) returns (held: bool)
      ensures held == HoldsSeat(port.connectedClients, clientId)
    {
      var rs := port.connectedClients;
      held := false;
      for i := 0 to |rs|
        invariant held <==> HoldsSeat(rs[..i], clientId)
      {
        assert forall j :: 0 <= j < i ==> rs[..i + 1][j] == rs[..i][j];
        if rs[i].client == clientId && rs[i].mode.ReadWrite? {
          held := true;
          assert rs[..i + 1][i] == rs[i];
        }
      }
      assert rs[..|rs|] == rs;
    }

    method ClientWriteMode(port: Port, clientId: ClientId) returns (hasWrite: bool, mode: Option<Mode>)
      ensures hasWrite <==> Drives(port.State(), clientId)
      ensures mode == match RecordOf(port.State(), clientId) case None => None case Some(r) => Some(r.mode)
    {
      var i := FindExistingClientIdx(port, clientId);
      if i < |port.connectedClients| {
        mode := Some(port.connectedClients[i].mode);
        hasWrite := port.connectedClients[i].mode.ReadWrite?;
      } else {
        hasWrite, mode := false, None;
      }
    }

    // -------------------------------------------------------------- records

    static method AttachClientRecord(port: Port, record: Record, existing: nat)
      requires existing == IndexOf(port.connectedClients, record.client)
      modifies port
      ensures port.State() == Attach(old(port.State()), record)
    {
      if existing < |port.connectedClients| {
        port.connectedClients := port.connectedClients[existing := record];
        if record.client !in port.clientQueues {
          port.clientQueues := port.clientQueues[record.client := []];
        }
      } else {
        port.connectedClients := port.connectedClients + [record];
        port.clientQueues := port.clientQueues[record.client := []];
      }
    }

    static method AddRecord(port: Port, record: Record) returns (ok: bool)
      modifies port
      ensures ok <==> AddAllowed(port.config.Capacity(), old(port.State()), record.client, record.mode)
      ensures port.State() == if ok then Attach(old(port.State()), record) else old(port.State())
    {
      var existing := FindExistingClientIdx(port, record.client);
      if record.mode.ReadWrite? {
        var current, capacity := RwCounts(port, record.client);
        if capacity.Full(current) {
          return false;
        }
      }
      AttachClientRecord(port, record, existing);
      return true;
    }

    method AddClientToPort(portName: PortName, clientId: ClientId, username: Username, mode: Mode, now: real)
      returns (ok: bool)
      requires Valid()
      modifies Touched(portName)
      ensures portName !in ports ==> !ok
      ensures portName in ports ==>
        (ok <==> Accepts(ports[portName].config, old(View())[portName], Add(clientId, username, mode, now)))
      ensures View() == CallOn(Configs(), old(View()), portName, Add(clientId, username, mode, now))
    {
      ok := false;
      if portName in ports {
        ok := AddRecord(ports[portName], Record(clientId, username, mode, now));
        OnlyTouched(portName);
      }
    }

    static method RemoveRecord(port: Port, clientId: ClientId) returns (ok: bool)
      modifies port
      ensures ok <==> Attached(old(port.State()), clientId)
      ensures port.State() == Apply(port.config, old(port.State()), Remove(clientId))
    {
      var i := FindExistingClientIdx(port, clientId);
      if i == |port.connectedClients| {
        return false;
      }
      port.connectedClients := port.connectedClients[..i] + port.connectedClients[i + 1..];
      port.clientQueues := port.clientQueues - {clientId};
      return true;
    }

    method RemoveClientFromPort(portName: PortName, clientId: ClientId) returns (ok: bool)
      requires Valid()
      modifies Touched(portName)
      ensures ok <==> portName in ports && Attached(old(View())[portName], clientId)
      ensures View() == CallOn(Configs(), old(View()), portName, Remove(clientId))
    {
      ok := false;
      if portName in ports {
        ok := RemoveRecord(ports[portName], clientId);
        OnlyTouched(portName);
      }
    }

    static method PromoteRecord(port: Port, clientId: ClientId) returns (ok: bool)
      modifies port
      ensures ok <==> PromoteAllowed(port.config.Capacity(), old(port.State()), clientId)
                      && Attached(old(port.State()), clientId)
      ensures port.State() == if ok then SetMode(old(port.State()), clientId, ReadWrite) else old(port.State())
    {
      var alreadyRw := HasSeat(port, clientId);
      if !alreadyRw {
        var current := CountWriters(port);
        if WriteCapacity(port.config.maxReadWriteUsers).Full(current) {
          return false;
        }
      }
      var i := FindExistingClientIdx(port, clientId);
      if i < |port.connectedClients| {
        port.connectedClients := port.connectedClients[i := port.connectedClients[i].(mode := ReadWrite)];
        return true;
      }
      return false;
    }

    method PromoteClient(portName: PortName, clientId: ClientId) returns (ok: bool)
      requires Valid()
      modifies Touched(portName)
      ensures portName !in ports ==> !ok
      ensures portName in ports ==>
        (ok <==> Accepts(ports[portName].config, old(View())[portName], Promote(clientId)))
      ensures View() == CallOn(Configs(), old(View()), portName, Promote(clientId))
    {
      ok := false;
      if portName in ports {
        ok := PromoteRecord(ports[portName], clientId);
        OnlyTouched(portName);
      }
    }

    static method DemoteRecord(port: Port, clientId: ClientId) returns (ok: bool)
      modifies port
      ensures ok <==> Attached(old(port.State()), clientId)
      ensures port.State() == Apply(port.config, old(port.State()), Demote(clientId))
    {
      var i := FindExistingClientIdx(port, clientId);
      if i == |port.connectedClients| {
        return false;
      }
      port.connectedClients := port.connectedClients[i := port.connectedClients[i].(mode := ReadOnly)];
      return true;
    }

    method DemoteClient(portName: PortName, clientId: ClientId) returns (ok: bool)
      requires Valid()
      modifies Touched(portName)
      ensures ok <==> portName in ports && Attached(old(View())[portName], clientId)
      ensures View() == CallOn(Configs(), old(View()), portName, Demote(clientId))
    {
      ok := false;
      if portName in ports {
        ok := DemoteRecord(ports[portName], clientId);
        OnlyTouched(portName);
      }
    }

    // The gate, then the device: `delivered` is what the adapter reports.
    method WriteToPort(portName: PortName, clientId: ClientId, delivered: bool) returns (ok: bool)
      ensures ok <==> portName in ports && Drives(View()[portName], clientId) && delivered
    {
      ok := false;
      if portName in ports {
        var hasWrite, _ := ClientWriteMode(ports[portName], clientId);
        ok := hasWrite && delivered;
      }
    }

    // --------------------------------------------------------------- output

    // One queue of the fan-out: a full one drops its oldest chunk.
    static method PushToQueue(port: Port, c: ClientId, data: Bytes)
      requires c in port.clientQueues
      modifies port`clientQueues, port`droppedChunks
      ensures port.clientQueues == old(port.clientQueues)[c := Push(old(port.clientQueues)[c], data)]
      ensures port.droppedChunks == old(port.droppedChunks) + Loss(old(port.clientQueues)[c])
    {
      var q := port.clientQueues[c];
      if |q| >= QUEUE_SIZE {
        q := q[1..];
        port.droppedChunks := port.droppedChunks + 1;
      }
      port.clientQueues := port.clientQueues[c := q + [data]];
    }

    static method FanOutToClientQueues(port: Port, data: Bytes)
      modifies port`clientQueues, port`droppedChunks
      ensures port.clientQueues == map c | c in old(port.clientQueues) :: Push(old(port.clientQueues)[c], data)
      ensures port.droppedChunks == old(port.droppedChunks) + |FullQueues(old(port.State()))|
    {
      ghost var was, lost := port.clientQueues, port.droppedChunks;
      var rest := port.clientQueues.Keys;
      assert FullIn(was, was.Keys) == FullQueues(old(port.State()));
      while rest != {}
        invariant rest <= was.Keys == port.clientQueues.Keys
        invariant forall c :: c in was ==>
          port.clientQueues[c] == if c in rest then was[c] else Push(was[c], data)
        invariant port.droppedChunks + |FullIn(was, rest)| == lost + |FullIn(was, was.Keys)|
        decreases |rest|
      {
        var c :| c in rest;
        FullStep(was, rest, c);
        PushToQueue(port, c, data);
        rest := rest - {c};
      }
    }

    static method AppendScrollback(port: Port, data: Bytes)
      modifies port`scrollback
      ensures port.scrollback == if port.config.scrollbackSize > 0
        then KeepLast(old(port.scrollback) + data, port.config.scrollbackSize) else old(port.scrollback)
    {
      var size := port.config.scrollbackSize;
      if size > 0 {
        port.scrollback := port.scrollback + data;
        if |port.scrollback| > size {
          port.scrollback := port.scrollback[|port.scrollback| - size..];
        }
      }
    }

    static method TakeInData(port: Port, data: Bytes, requireClients: Option<bool>)
      modifies port
      ensures port.State() == TakeIn(port.config, old(port.State()), data, requireClients)
    {
      AppendScrollback(port, data);
      FanOutToClientQueues(port, data);
      if requireClients == Some(false) || |port.connectedClients| > 0 || port.federationViewerCount > 0 {
        if port.config.SharedFull(|port.dataQueue|) {
          port.dataQueue := port.dataQueue[1..];
          port.droppedChunks := port.droppedChunks + 1;
        }
        port.dataQueue := port.dataQueue + [data];
      }
    }

    method HandleIncomingPortData(portName: PortName, data: Bytes, requireClients: Option<bool>) returns (ok: bool)
      requires Valid()
      modifies Touched(portName)
      ensures ok <==> portName in ports
      ensures View() == CallOn(Configs(), old(View()), portName, Incoming(data, requireClients))
    {
      ok := false;
      if portName in ports {
        TakeInData(ports[portName], data, requireClients);
        ok := true;
        OnlyTouched(portName);
      }
    }

    static method TakeChunk(port: Port, clientId: ClientId) returns (chunk: Option<Bytes>)
      modifies port
      ensures chunk == if Accepts(port.config, old(port.State()), Deliver(clientId))
                       then Some(old(port.clientQueues)[clientId][0]) else None
      ensures port.State() == Apply(port.config, old(port.State()), Deliver(clientId))
    {
      chunk := None;
      if clientId in port.clientQueues && port.clientQueues[clientId] != [] {
        chunk := Some(port.clientQueues[clientId][0]);
        port.clientQueues := port.clientQueues[clientId := port.clientQueues[clientId][1..]];
      }
    }

    // What a client's forwarding task takes from its queue.
    method NextChunk(portName: PortName, clientId: ClientId) returns (chunk: Option<Bytes>)
      requires Valid()
      modifies Touched(portName)
      ensures chunk == if portName in ports && Accepts(ports[portName].config, old(View())[portName], Deliver(clientId))
                       then Some(old(View())[portName].queues[clientId][0]) else None
      ensures View() == CallOn(Configs(), old(View()), portName, Deliver(clientId))
    {
      chunk := None;
      if portName in ports {
        chunk := TakeChunk(ports[portName], clientId);
        OnlyTouched(portName);
      }
    }

    method GetPortData(portName: PortName) returns (chunk: Option<Bytes>)
      requires Valid()
      modifies Touched(portName)
      ensures chunk == if portName in ports && old(View())[portName].shared != []
                       then Some(old(View())[portName].shared[0]) else None
      ensures View() == CallOn(Configs(), old(View()), portName, ReadShared)
    {
      chunk := None;
      if portName in ports {
        var port := ports[portName];
        if port.dataQueue != [] {
          chunk := Some(port.dataQueue[0]);
          port.dataQueue := port.dataQueue[1..];
          OnlyTouched(portName);
        }
      }
    }

    method GetScrollback(portName: PortName) returns (bytes: Bytes)
      ensures bytes == if portName in ports then View()[portName].scrollback else []
    {
      bytes := if portName in ports then ports[portName].scrollback else [];
    }

    static method AddHold(port: Port)
      modifies port
      ensures port.State() == Apply(port.config, old(port.State()), Call.Hold)
    {
      port.federationViewerCount := port.federationViewerCount + 1;
    }

    method AddFederationBufferingHold(portName: PortName)
      requires Valid()
      modifies Touched(portName)
      ensures View() == CallOn(Configs(), old(View()), portName, Hold)
    {
      if portName in ports {
        AddHold(ports[portName]);
        OnlyTouched(portName);
      }
    }

    static method Drain(port: Port)
      modifies port`dataQueue
      ensures port.dataQueue == []
    {
      while port.dataQueue != []
        decreases |port.dataQueue|
      {
        port.dataQueue := port.dataQueue[1..];
      }
    }

    static method ReleaseHold(port: Port)
      modifies port
      ensures port.State() == Apply(port.config, old(port.State()), Release)
    {
      var count := if port.federationViewerCount > 0 then port.federationViewerCount - 1 else 0;
      port.federationViewerCount := count;
      if count == 0 {
        Drain(port);
      }
    }

    method RemoveFederationBufferingHold(portName: PortName)
      requires Valid()
      modifies Touched(portName)
      ensures View() == CallOn(Configs(), old(View()), portName, Release)
    {
      if portName in ports {
        ReleaseHold(ports[portName]);
        OnlyTouched(portName);
      }
    }
  }
}
