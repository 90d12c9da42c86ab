/** A port's bounded queues and scrollback against books that forget nothing. */
module PortDelivery {
  import opened Prelude
  import opened PortSeats

  datatype Exit = Delivered | Evicted | Drained

  // Everything offered to one queue since it was made. Chunks leave oldest
  // first: chunk number i left the way exits[i] says.
  datatype Ledger = Ledger(offered: seq<Bytes>, exits: seq<Exit>)
  {
    ghost predicate Valid() { |exits| <= |offered| <= |exits| + QUEUE_SIZE }

    predicate Evicts() { |offered| >= |exits| + QUEUE_SIZE }

    function Offer(data: Bytes): Ledger {
      Ledger(offered + [data], if Evicts() then exits + [Evicted] else exits)
    }

    function Leave(e: Exit): Ledger { this.(exits := exits + [e]) }

    function Waiting(): seq<Bytes>
      requires |exits| <= |offered|
    {
      offered[|exits|..]
    }

    function Size(): nat { if |offered| >= |exits| then |offered| - |exits| else 0 }
  }

  const NEW_LEDGER := Ledger([], [])

  // The ledgers of the queues in use, of every queue ever removed, and of the shared queue.
  datatype Books = Books(
    clients: map<ClientId, Ledger>,
    departed: seq<Ledger>,
    shared: Ledger,
    received: Bytes,
    holds: nat)

  const NEW_BOOKS := Books(map[], [], NEW_LEDGER, [], 0)

  predicate BooksOfferShared(b: Books, requireClients: Option<bool>) {
    requireClients == Some(false) || b.clients != map[] || b.holds > 0
  }

  function OfferShared(pc: PortConfig, l: Ledger, data: Bytes): Ledger {
    Ledger(l.offered + [data], if pc.SharedFull(l.Size()) then l.exits + [Evicted] else l.exits)
  }

  function OfferAll(clients: map<ClientId, Ledger>, data: Bytes): map<ClientId, Ledger> {
    map c | c in clients :: clients[c].Offer(data)
  }

  function Receive(pc: PortConfig, b: Books, data: Bytes, requireClients: Option<bool>): Books {
    b.(clients := OfferAll(b.clients, data),
       shared := if BooksOfferShared(b, requireClients) then OfferShared(pc, b.shared, data) else b.shared,
       received := b.received + data)
  }

  function Drains(n: nat): (exits: seq<Exit>)
    ensures |exits| == n
  {
    seq(n, i => Drained)
  }

  function DrainShared(l: Ledger): Ledger { l.(exits := l.exits + Drains(l.Size())) }

  // What the books note for a call, given the answer the port gave.
  function Note(pc: PortConfig, b: Books, call: Call, accepted: bool): Books {
    if !accepted then b else
    match call
    case Add(c, _, _, _) => if c in b.clients then b else b.(clients := b.clients[c := NEW_LEDGER])
    case Remove(c) =>
      if c !in b.clients then b
      else b.(clients := b.clients - {c}, departed := b.departed + [b.clients[c]])
    case Incoming(data, required) => Receive(pc, b, data, required)
    case Deliver(c) =>
      if c !in b.clients then b else b.(clients := b.clients[c := b.clients[c].Leave(Delivered)])
    case ReadShared => b.(shared := b.shared.Leave(Delivered))
    case Hold => b.(holds := b.holds + 1)
    case Release =>
      var left := if b.holds > 0 then b.holds - 1 else 0;
      if left == 0 then b.(holds := 0, shared := DrainShared(b.shared)) else b.(holds := left)
    case _ => b
  }

  function NoteAll(pc: PortConfig, ps: PortState, b: Books, calls: seq<Call>): Books
    decreases calls
  {
    if calls == [] then b
    else NoteAll(pc, Apply(pc, ps, calls[0]), Note(pc, b, calls[0], Accepts(pc, ps, calls[0])), calls[1..])
  }

  // ------------------------------------------------------------- counting exits

  function Count(exits: seq<Exit>, e: Exit): nat {
    if exits == [] then 0
    else Count(exits[..|exits| - 1], e) + (if exits[|exits| - 1] == e then 1 else 0)
  }

  lemma CountNext(exits: seq<Exit>, x: Exit, e: Exit)
    ensures Count(exits + [x], e) == Count(exits, e) + (if x == e then 1 else 0)
  {
    assert (exits + [x])[..|exits|] == exits;
  }

  lemma {:induction false} CountDrains(exits: seq<Exit>, n: nat, e: Exit)
    requires e != Drained
    ensures Count(exits + Drains(n), e) == Count(exits, e)
  {
    if n == 0 {
      assert exits + Drains(0) == exits;
    } else {
      assert exits + Drains(n) == (exits + Drains(n - 1)) + [Drained];
      CountNext(exits + Drains(n - 1), Drained, e);
      CountDrains(exits, n - 1, e);
    }
  }

  lemma {:induction false} EveryExitCounts(exits: seq<Exit>)
    requires Drained !in exits
    ensures Count(exits, Delivered) + Count(exits, Evicted) == |exits|
  {
    if exits != [] {
      assert forall e :: e in exits[..|exits| - 1] ==> e in exits;
      assert exits[|exits| - 1] in exits;
      EveryExitCounts(exits[..|exits| - 1]);
    }
  }

  // The evictions over the ledgers of all the queues in use.
  ghost function SumEvicted(m: map<ClientId, Ledger>): nat
    decreases |m|
  {
    if m == map[] then 0
    else
      var c :| c in m;
      assert |m - {c}| < |m| by { Smaller(m, c); }
      Count(m[c].exits, Evicted) + SumEvicted(m - {c})
  }

  lemma Smaller(m: map<ClientId, Ledger>, c: ClientId)
    requires c in m
    ensures |m - {c}| < |m|
  {
    assert (m - {c}).Keys == m.Keys - {c};
  }

  function SumDeparted(ledgers: seq<Ledger>): nat {
    if ledgers == [] then 0
    else SumDeparted(ledgers[..|ledgers| - 1]) + Count(ledgers[|ledgers| - 1].exits, Evicted)
  }

  // Every eviction from any queue there ever was.
  ghost function Evictions(b: Books): nat {
    SumEvicted(b.clients) + SumDeparted(b.departed) + Count(b.shared.exits, Evicted)
  }

  lemma {:induction false} SumTakesOut(m: map<ClientId, Ledger>, c: ClientId)
    requires c in m
    ensures SumEvicted(m) == Count(m[c].exits, Evicted) + SumEvicted(m - {c})
    decreases |m|
  {
    var d :| d in m && SumEvicted(m) == Count(m[d].exits, Evicted) + SumEvicted(m - {d});
    if d != c {
      Smaller(m, c);
      Smaller(m, d);
      SumTakesOut(m - {d}, c);
      SumTakesOut(m - {c}, d);
      assert m - {d} - {c} == m - {c} - {d};
    }
  }

  lemma SumOfUpdate(m: map<ClientId, Ledger>, c: ClientId, l: Ledger)
    ensures SumEvicted(m[c := l]) == SumEvicted(m - {c}) + Count(l.exits, Evicted)
  {
    SumTakesOut(m[c := l], c);
    assert m[c := l] - {c} == m - {c};
  }

  ghost function Evicting(m: map<ClientId, Ledger>): set<ClientId> {
    set c | c in m && m[c].Evicts()
  }

  lemma OfferCounts(l: Ledger, data: Bytes)
    ensures Count(l.Offer(data).exits, Evicted) == Count(l.exits, Evicted) + (if l.Evicts() then 1 else 0)
  {
    CountNext(l.exits, Evicted, Evicted);
  }

  lemma EvictingStep(m: map<ClientId, Ledger>, c: ClientId)
    requires c in m
    ensures |Evicting(m)| == |Evicting(m - {c})| + (if m[c].Evicts() then 1 else 0)
  {
    if m[c].Evicts() {
      assert Evicting(m) == Evicting(m - {c}) + {c};
    } else {
      assert Evicting(m) == Evicting(m - {c});
    }
  }

  lemma OfferStep(m: map<ClientId, Ledger>, data: Bytes, c: ClientId)
    requires c in m
    ensures SumEvicted(OfferAll(m, data)) ==
      SumEvicted(OfferAll(m - {c}, data)) + Count(m[c].exits, Evicted) + (if m[c].Evicts() then 1 else 0)
  {
    SumTakesOut(OfferAll(m, data), c);
    OfferCounts(m[c], data);
    assert OfferAll(m, data) - {c} == OfferAll(m - {c}, data);
  }

  // One chunk for every queue evicts once from each full one.
  lemma {:induction false} SumOfOffer(m: map<ClientId, Ledger>, data: Bytes)
    ensures SumEvicted(OfferAll(m, data)) == SumEvicted(m) + |Evicting(m)|
    decreases |m|
  {
    if m == map[] {
      assert OfferAll(m, data) == map[];
    } else {
      var c :| c in m;
      Smaller(m, c);
      SumOfOffer(m - {c}, data);
      SumTakesOut(m, c);
      OfferStep(m, data, c);
      EvictingStep(m, c);
    }
  }

  // --------------------------------------------------------------- refinement

  // Exactly the attached clients have a queue.
  ghost predicate QueuesFit(ps: PortState) {
    forall c :: c in ps.queues <==> Attached(ps, c)
  }

  ghost predicate QueueRefines(ps: PortState, b: Books, c: ClientId) {
    && (c in ps.queues <==> c in b.clients)
    && (c in b.clients ==>
          b.clients[c].Valid() && ps.queues[c] == b.clients[c].Waiting() && Drained !in b.clients[c].exits)
  }

  ghost predicate SharedRefines(pc: PortConfig, ps: PortState, b: Books) {
    && |b.shared.exits| <= |b.shared.offered|
    && ps.shared == b.shared.Waiting()
    && (!pc.federated ==> |ps.shared| <= QUEUE_SIZE)
    && ps.holds == b.holds
  }

  ghost predicate TotalsRefine(pc: PortConfig, ps: PortState, b: Books) {
    && ps.dropped == Evictions(b)
    && ps.scrollback == (if pc.scrollbackSize > 0 then KeepLast(b.received, pc.scrollbackSize) else [])
  }

  // The port keeps exactly what the books say is still waiting.
  ghost predicate Refines(pc: PortConfig, ps: PortState, b: Books) {
    && UniqueIds(ps.records)
    && QueuesFit(ps)
    && (forall c :: QueueRefines(ps, b, c))
    && SharedRefines(pc, ps, b)
    && TotalsRefine(pc, ps, b)
  }

  // Whether `c` is still counted in after a call, if it was before.
  predicate RemainsAfter(pc: PortConfig, ps: PortState, call: Call, c: ClientId, before: bool) {
    if !Accepts(pc, ps, call) then before else
    match call
    case Add(d, _, _, _) => d == c || before
    case Remove(d) => d != c && before
    case _ => before
  }

  lemma ListedAfter(pc: PortConfig, ps: PortState, call: Call, c: ClientId)
    requires UniqueIds(ps.records)
    ensures Attached(Apply(pc, ps, call), c) <==> RemainsAfter(pc, ps, call, c, Attached(ps, c))
  {
    CallMovesRecords(pc, ps, call, c);
  }

  lemma QueuedAfter(pc: PortConfig, ps: PortState, call: Call, c: ClientId)
    ensures c in Apply(pc, ps, call).queues <==> RemainsAfter(pc, ps, call, c, c in ps.queues)
  {
    if call.Incoming? {
      assert c in Apply(pc, ps, call).queues <==> c in ps.queues;
    }
  }

  lemma CallKeepsQueuesFit(pc: PortConfig, ps: PortState, call: Call)
    requires UniqueIds(ps.records) && QueuesFit(ps)
    ensures UniqueIds(Apply(pc, ps, call).records) && QueuesFit(Apply(pc, ps, call))
  {
    CallMovesRecords(pc, ps, call, "");
    forall c ensures c in Apply(pc, ps, call).queues <==> Attached(Apply(pc, ps, call), c) {
      ListedAfter(pc, ps, call, c);
      QueuedAfter(pc, ps, call, c);
    }
  }

  lemma OfferIsPush(l: Ledger, data: Bytes)
    requires l.Valid()
    ensures l.Offer(data).Valid() && l.Offer(data).Waiting() == Push(l.Waiting(), data)
    ensures Drained !in l.exits ==> Drained !in l.Offer(data).exits
  {
  }

  lemma DeliveryIsExit(l: Ledger)
    requires l.Valid() && l.Waiting() != []
    ensures l.Leave(Delivered).Valid() && l.Leave(Delivered).Waiting() == l.Waiting()[1..]
    ensures Drained !in l.exits ==> Drained !in l.Leave(Delivered).exits
  {
  }

  lemma QueueFollowsIncoming(pc: PortConfig, ps: PortState, b: Books, data: Bytes, required: Option<bool>, c: ClientId)
    requires QueueRefines(ps, b, c)
    ensures QueueRefines(TakeIn(pc, ps, data, required), Receive(pc, b, data, required), c)
  {
    if c in b.clients {
      OfferIsPush(b.clients[c], data);
      assert TakeIn(pc, ps, data, required).queues[c] == Push(ps.queues[c], data);
      assert Receive(pc, b, data, required).clients[c] == b.clients[c].Offer(data);
    }
  }

  lemma QueueFollowsAdd(pc: PortConfig, ps: PortState, b: Books, call: Call, c: ClientId)
    requires QueuesFit(ps) && QueueRefines(ps, b, c) && call.Add?
    ensures QueueRefines(Apply(pc, ps, call), Note(pc, b, call, Accepts(pc, ps, call)), c)
  {
    assert call.client in ps.queues <==> Attached(ps, call.client);
  }

  lemma QueueFollowsDelivery(pc: PortConfig, ps: PortState, b: Books, call: Call, c: ClientId)
    requires QueuesFit(ps) && QueueRefines(ps, b, c) && call.Deliver?
    ensures QueueRefines(Apply(pc, ps, call), Note(pc, b, call, Accepts(pc, ps, call)), c)
  {
    if c in b.clients && Accepts(pc, ps, call) && call.client == c {
      DeliveryIsExit(b.clients[c]);
    }
  }

  lemma QueueFollowsRest(pc: PortConfig, ps: PortState, b: Books, call: Call, c: ClientId)
    requires QueuesFit(ps) && QueueRefines(ps, b, c)
    requires !call.Add? && !call.Deliver? && !call.Incoming?
    ensures QueueRefines(Apply(pc, ps, call), Note(pc, b, call, Accepts(pc, ps, call)), c)
  {
  }

  lemma QueueFollows(pc: PortConfig, ps: PortState, b: Books, call: Call, c: ClientId)
    requires QueuesFit(ps) && QueueRefines(ps, b, c)
    ensures QueueRefines(Apply(pc, ps, call), Note(pc, b, call, Accepts(pc, ps, call)), c)
  {
    if call.Incoming? {
      QueueFollowsIncoming(pc, ps, b, call.data, call.requireClients, c);
    } else if call.Add? {
      QueueFollowsAdd(pc, ps, b, call, c);
    } else if call.Deliver? {
      QueueFollowsDelivery(pc, ps, b, call, c);
    } else {
      QueueFollowsRest(pc, ps, b, call, c);
    }
  }

  lemma SameOffer(ps: PortState, b: Books, required: Option<bool>)
    requires QueuesFit(ps) && (forall c :: QueueRefines(ps, b, c)) && ps.holds == b.holds
    ensures OffersShared(ps, required) == BooksOfferShared(b, required)
  {
    if |ps.records| > 0 {
      assert Attached(ps, ps.records[0].client);
      assert QueueRefines(ps, b, ps.records[0].client);
    } else {
      forall c ensures c !in b.clients {
        assert QueueRefines(ps, b, c) && !Attached(ps, c);
      }
    }
  }

  lemma SameEvictions(ps: PortState, b: Books)
    requires forall c :: QueueRefines(ps, b, c)
    ensures FullQueues(ps) == Evicting(b.clients)
  {
    forall c ensures c in FullQueues(ps) <==> c in Evicting(b.clients) {
      assert QueueRefines(ps, b, c);
    }
  }

  lemma SharedFollowsOffer(pc: PortConfig, l: Ledger, data: Bytes)
    requires |l.exits| <= |l.offered|
    ensures var after, q := OfferShared(pc, l, data), l.Waiting();
      && |after.exits| <= |after.offered|
      && after.Waiting() == (if pc.SharedFull(|q|) then q[1..] + [data] else q + [data])
      && Count(after.exits, Evicted) == Count(l.exits, Evicted) + (if pc.SharedFull(|q|) then 1 else 0)
  {
    CountNext(l.exits, Evicted, Evicted);
  }

  lemma KeepLastTwice(b: Bytes, data: Bytes, n: nat)
    ensures KeepLast(KeepLast(b, n) + data, n) == KeepLast(b + data, n)
  {
  }

  lemma IncomingTotals(pc: PortConfig, ps: PortState, b: Books, data: Bytes, required: Option<bool>)
    requires Refines(pc, ps, b)
    ensures SharedRefines(pc, TakeIn(pc, ps, data, required), Receive(pc, b, data, required))
    ensures TotalsRefine(pc, TakeIn(pc, ps, data, required), Receive(pc, b, data, required))
  {
    SameOffer(ps, b, required);
    SameEvictions(ps, b);
    SumOfOffer(b.clients, data);
    SharedFollowsOffer(pc, b.shared, data);
    KeepLastTwice(b.received, data, pc.scrollbackSize);
  }

  // Calls other than an intake evict nothing.
  lemma QuietCallEvicts(pc: PortConfig, b: Books, call: Call, accepted: bool)
    requires !call.Incoming?
    ensures Evictions(Note(pc, b, call, accepted)) == Evictions(b)
  {
    if call.Add? {
      SumOfUpdate(b.clients, call.client, NEW_LEDGER);
      assert call.client !in b.clients ==> b.clients - {call.client} == b.clients;
    } else if call.Remove? && call.client in b.clients {
      var gone := b.clients[call.client];
      SumTakesOut(b.clients, call.client);
      assert (b.departed + [gone])[..|b.departed|] == b.departed;
    } else if call.Deliver? && call.client in b.clients {
      var l := b.clients[call.client];
      SumOfUpdate(b.clients, call.client, l.Leave(Delivered));
      SumTakesOut(b.clients, call.client);
      CountNext(l.exits, Delivered, Evicted);
    } else if call.ReadShared? {
      CountNext(b.shared.exits, Delivered, Evicted);
    } else if call.Release? {
      CountDrains(b.shared.exits, b.shared.Size(), Evicted);
    }
  }

  lemma QuietCallShared(pc: PortConfig, ps: PortState, b: Books, call: Call)
    requires SharedRefines(pc, ps, b) && !call.Incoming?
    ensures SharedRefines(pc, Apply(pc, ps, call), Note(pc, b, call, Accepts(pc, ps, call)))
  {
  }

  // Every call the port performs, the books can follow.
  lemma CallRefines(pc: PortConfig, ps: PortState, b: Books, call: Call)
    requires Refines(pc, ps, b)
    ensures Refines(pc, Apply(pc, ps, call), Note(pc, b, call, Accepts(pc, ps, call)))
  {
    CallKeepsQueuesFit(pc, ps, call);
    forall c ensures QueueRefines(Apply(pc, ps, call), Note(pc, b, call, Accepts(pc, ps, call)), c) {
      QueueFollows(pc, ps, b, call, c);
    }
    if call.Incoming? {
      IncomingTotals(pc, ps, b, call.data, call.requireClients);
    } else {
      QuietCallShared(pc, ps, b, call);
      QuietCallEvicts(pc, b, call, Accepts(pc, ps, call));
    }
  }

  // Over every run: each queue, the shared queue, the drop counter, the holds
  // and the scrollback are what the full history determines.
  lemma {:induction false} RunRefines(pc: PortConfig, ps: PortState, b: Books, calls: seq<Call>)
    requires Refines(pc, ps, b)
    ensures Refines(pc, Run(pc, ps, calls), NoteAll(pc, ps, b, calls))
    decreases calls
  {
    if calls != [] {
      CallRefines(pc, ps, b, calls[0]);
      RunRefines(pc, Apply(pc, ps, calls[0]), Note(pc, b, calls[0], Accepts(pc, ps, calls[0])), calls[1..]);
    }
  }

  // The drop counter is the number of evictions over every queue there ever was.
  lemma DroppedIsEveryEviction(pc: PortConfig, calls: seq<Call>)
    ensures Run(pc, NEW_PORT, calls).dropped == Evictions(NoteAll(pc, NEW_PORT, NEW_BOOKS, calls))
  {
    RunRefines(pc, NEW_PORT, NEW_BOOKS, calls);
  }

  // ------------------------------------------------------ ledgers and the calls

  // The chunks a run delivers to `c`.
  function Deliveries(pc: PortConfig, ps: PortState, calls: seq<Call>, c: ClientId): nat
    decreases calls
  {
    if calls == [] then 0
    else
      (if calls[0] == Deliver(c) && Accepts(pc, ps, calls[0]) then 1 else 0)
      + Deliveries(pc, Apply(pc, ps, calls[0]), calls[1..], c)
  }

  lemma LedgerStep(pc: PortConfig, ps: PortState, b: Books, call: Call, c: ClientId)
    requires c in b.clients && call != Remove(c)
    ensures var accepted := Accepts(pc, ps, call);
      var after := Note(pc, b, call, accepted);
      && c in after.clients
      && after.clients[c].offered == b.clients[c].offered + Payload(call)
      && Count(after.clients[c].exits, Delivered) ==
         Count(b.clients[c].exits, Delivered) + (if call == Deliver(c) && accepted then 1 else 0)
  {
    var l := b.clients[c];
    if call.Incoming? {
      CountNext(l.exits, Evicted, Delivered);
      assert Note(pc, b, call, true).clients[c] == l.Offer(call.data);
    } else {
      assert l.offered + Payload(call) == l.offered;
      CountNext(l.exits, Delivered, Delivered);
      QuietLedgerStep(pc, b, call, Accepts(pc, ps, call), c);
    }
  }

  lemma QuietLedgerStep(pc: PortConfig, b: Books, call: Call, accepted: bool, c: ClientId)
    requires c in b.clients && call != Remove(c) && !call.Incoming?
    ensures var after := Note(pc, b, call, accepted);
      && c in after.clients
      && after.clients[c] == if accepted && call == Deliver(c) then b.clients[c].Leave(Delivered) else b.clients[c]
  {
  }

  // While `c` is not removed, its ledger is offered exactly the payloads of the calls, in order,
  // and notes exactly the accepted deliveries.
  lemma {:induction false} LedgerFollowsCalls(pc: PortConfig, ps: PortState, b: Books, calls: seq<Call>, c: ClientId)
    requires c in b.clients && Remove(c) !in calls
    ensures var after := NoteAll(pc, ps, b, calls);
      && c in after.clients
      && after.clients[c].offered == b.clients[c].offered + Payloads(calls)
      && Count(after.clients[c].exits, Delivered) ==
         Count(b.clients[c].exits, Delivered) + Deliveries(pc, ps, calls, c)
    decreases calls
  {
    if calls != [] {
      var call := calls[0];
      var next := Note(pc, b, call, Accepts(pc, ps, call));
      LedgerStep(pc, ps, b, call, c);
      LedgerFollowsCalls(pc, Apply(pc, ps, call), next, calls[1..], c);
      Regroup(b.clients[c].offered, Payload(call), Payloads(calls[1..]));
    }
  }

  lemma {:induction false} NoteAllSplit(pc: PortConfig, ps: PortState, b: Books, x: seq<Call>, y: seq<Call>)
    ensures NoteAll(pc, ps, b, x + y) == NoteAll(pc, Run(pc, ps, x), NoteAll(pc, ps, b, x), y)
    decreases x
  {
    if x == [] {
      assert x + y == y;
    } else {
      assert (x + y)[1..] == x[1..] + y;
      NoteAllSplit(pc, Apply(pc, ps, x[0]), Note(pc, b, x[0], Accepts(pc, ps, x[0])), x[1..], y);
    }
  }

  // The port and the books of any run from a new port, cut at the moment `c` attaches.
  lemma AttachOpensLedger(pc: PortConfig, ps: PortState, b: Books, add: Call, c: ClientId)
    requires Refines(pc, ps, b) && add.Add? && add.client == c && Accepts(pc, ps, add) && !Attached(ps, c)
    ensures var after, noted := Apply(pc, ps, add), Note(pc, b, add, true);
      Refines(pc, after, noted) && c in noted.clients && noted.clients[c] == NEW_LEDGER
  {
    CallRefines(pc, ps, b, add);
    assert QueueRefines(ps, b, c);
  }

  lemma WaitingIsTail(l: Ledger, since: seq<Bytes>)
    requires l.Valid() && l.offered == [] + since && Drained !in l.exits
    ensures var q := l.Waiting();
      && |q| <= QUEUE_SIZE && |q| <= |since| && q == since[|since| - |q|..]
      && Count(l.exits, Delivered) + Count(l.exits, Evicted) + |q| == |since|
  {
    EveryExitCounts(l.exits);
    assert [] + since == since;
  }

  // The books after one call and the rest are the books after the call, carried on.
  lemma NoteAllAfter(pc: PortConfig, ps: PortState, b: Books, call: Call, calls: seq<Call>)
    ensures NoteAll(pc, ps, b, [call] + calls)
         == NoteAll(pc, Apply(pc, ps, call), Note(pc, b, call, Accepts(pc, ps, call)), calls)
  {
    assert ([call] + calls)[1..] == calls;
  }

  lemma QueueSinceAttach(pc: PortConfig, ps: PortState, b: Books, calls: seq<Call>, c: ClientId)
    requires Refines(pc, ps, b) && c in b.clients && b.clients[c] == NEW_LEDGER && Remove(c) !in calls
    ensures var after, noted := Run(pc, ps, calls), NoteAll(pc, ps, b, calls);
      && c in after.queues && c in noted.clients && |after.queues[c]| <= QUEUE_SIZE
      && var q, since := after.queues[c], Payloads(calls);
      && |q| <= |since| && q == since[|since| - |q|..]
      && Deliveries(pc, ps, calls, c) + Count(noted.clients[c].exits, Evicted) + |q| == |since|
  {
    RunRefines(pc, ps, b, calls);
    LedgerFollowsCalls(pc, ps, b, calls, c);
    assert QueueRefines(Run(pc, ps, calls), NoteAll(pc, ps, b, calls), c);
    WaitingIsTail(NoteAll(pc, ps, b, calls).clients[c], Payloads(calls));
  }

  // Take any run from a new port in which `c` attaches, and any calls after that which do not
  // detach it, re-adds in any mode included: its queue is the most recent of the chunks that
  // arrived since it attached, in order and at most 100, and those delivered, evicted and queued
  // are all of them.
  lemma QueueIsRecentHistory(pc: PortConfig, before: seq<Call>, add: Call, calls: seq<Call>, c: ClientId)
    requires add.Add? && add.client == c && Accepts(pc, Run(pc, NEW_PORT, before), add)
    requires !Attached(Run(pc, NEW_PORT, before), c) && Remove(c) !in calls
    ensures var attached := Apply(pc, Run(pc, NEW_PORT, before), add);
      var ps, b := Run(pc, attached, calls), NoteAll(pc, NEW_PORT, NEW_BOOKS, before + ([add] + calls));
      && c in ps.queues && c in b.clients && |ps.queues[c]| <= QUEUE_SIZE
      && var q, since := ps.queues[c], Payloads(calls);
      && |q| <= |since| && q == since[|since| - |q|..]
      && Deliveries(pc, attached, calls, c) + Count(b.clients[c].exits, Evicted) + |q| == |since|
  {
    var start, books := Run(pc, NEW_PORT, before), NoteAll(pc, NEW_PORT, NEW_BOOKS, before);
    RunRefines(pc, NEW_PORT, NEW_BOOKS, before);
    AttachOpensLedger(pc, start, books, add, c);
    var attached, noted := Apply(pc, start, add), Note(pc, books, add, true);
    NoteAllSplit(pc, NEW_PORT, NEW_BOOKS, before, [add] + calls);
    NoteAllAfter(pc, start, books, add, calls);
    QueueSinceAttach(pc, attached, noted, calls, c);
  }

  // In any run from a new port, the scrollback is the end of everything received: all of it while that
  // is at most `scrollbackSize` bytes, and that many bytes from then on.
  lemma ScrollbackIsTail(pc: PortConfig, calls: seq<Call>)
    ensures var kept, received := Run(pc, NEW_PORT, calls).scrollback, Concat(Payloads(calls));
      && |kept| == (if |received| <= pc.scrollbackSize then |received| else pc.scrollbackSize)
      && kept == received[|received| - |kept|..]
  {
    RunRefines(pc, NEW_PORT, NEW_BOOKS, calls);
    ReceivedIsPayloads(pc, NEW_PORT, NEW_BOOKS, calls);
    assert [] + Concat(Payloads(calls)) == Concat(Payloads(calls));
  }

  function Payload(call: Call): seq<Bytes> {
    if call.Incoming? then [call.data] else []
  }

  function Payloads(calls: seq<Call>): seq<Bytes> {
    if calls == [] then [] else Payload(calls[0]) + Payloads(calls[1..])
  }

  lemma NoteReceives(pc: PortConfig, ps: PortState, b: Books, call: Call)
    ensures Note(pc, b, call, Accepts(pc, ps, call)).received == b.received + Concat(Payload(call))
  {
    if call.Incoming? {
      assert Concat([call.data]) == call.data + Concat([]);
    }
  }

  lemma {:induction false} ReceivedIsPayloads(pc: PortConfig, ps: PortState, b: Books, calls: seq<Call>)
    ensures NoteAll(pc, ps, b, calls).received == b.received + Concat(Payloads(calls))
    decreases calls
  {
    if calls != [] {
      var rest, noted := calls[1..], Note(pc, b, calls[0], Accepts(pc, ps, calls[0]));
      NoteReceives(pc, ps, b, calls[0]);
      ReceivedIsPayloads(pc, Apply(pc, ps, calls[0]), noted, rest);
      ConcatSplit(Payload(calls[0]), Payloads(rest));
      Regroup(b.received, Concat(Payload(calls[0])), Concat(Payloads(rest)));
    }
  }

  // An accepted delivery hands out the oldest chunk that has not left yet.
  lemma DeliveryIsOldest(pc: PortConfig, ps: PortState, b: Books, c: ClientId)
    requires Refines(pc, ps, b) && Accepts(pc, ps, Deliver(c))
    ensures c in b.clients && |b.clients[c].exits| < |b.clients[c].offered|
    ensures ps.queues[c][0] == b.clients[c].offered[|b.clients[c].exits|]
  {
    assert QueueRefines(ps, b, c);
  }

  // Re-adding an attached client, in any mode, loses no queued chunk.
  lemma ReAddKeepsQueue(pc: PortConfig, ps: PortState, c: ClientId, u: Username, m: Mode, now: real)
    requires QueuesFit(ps) && Attached(ps, c)
    ensures Apply(pc, ps, Add(c, u, m, now)).queues == ps.queues
  {
  }
}
