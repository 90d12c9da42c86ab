/** The shared queue of a port, read by relays and programs: which chunks are offered to it, when it
    loses them, and how holds keep it. Bounds are those of the queues as they are built. */
module SharedQueue {
  import opened Prelude
  import opened PortSeats
  import opened PortDelivery

  // Somebody is there to read: a client, a relay that holds the port, or the sender insists.
  predicate Wanted(ps: PortState, call: Call) {
    call.Incoming? && (|ps.records| > 0 || ps.holds > 0 || call.requireClients == Some(false))
  }

  // The chunks a run offers to the shared queue, in order.
  function SharedOffers(pc: PortConfig, ps: PortState, calls: seq<Call>): seq<Bytes>
    decreases calls
  {
    if calls == [] then []
    else (if Wanted(ps, calls[0]) then [calls[0].data] else []) + SharedOffers(pc, Apply(pc, ps, calls[0]), calls[1..])
  }

  lemma OfferIsWanted(pc: PortConfig, ps: PortState, b: Books, call: Call)
    requires Refines(pc, ps, b)
    ensures Note(pc, b, call, Accepts(pc, ps, call)).shared.offered
         == b.shared.offered + (if Wanted(ps, call) then [call.data] else [])
  {
    if call.Incoming? {
      SameOffer(ps, b, call.requireClients);
    }
  }

  lemma {:induction false} OffersAreNoted(pc: PortConfig, ps: PortState, b: Books, calls: seq<Call>)
    requires Refines(pc, ps, b)
    ensures NoteAll(pc, ps, b, calls).shared.offered == b.shared.offered + SharedOffers(pc, ps, calls)
    decreases calls
  {
    if calls != [] {
      var noted := Note(pc, b, calls[0], Accepts(pc, ps, calls[0]));
      CallRefines(pc, ps, b, calls[0]);
      OfferIsWanted(pc, ps, b, calls[0]);
      OffersAreNoted(pc, Apply(pc, ps, calls[0]), noted, calls[1..]);
      Regroup(b.shared.offered, if Wanted(ps, calls[0]) then [calls[0].data] else [],
              SharedOffers(pc, Apply(pc, ps, calls[0]), calls[1..]));
    }
  }

  // Nothing but the arrival of one chunk too many makes the queue lose one.
  predicate OnlyOffers(calls: seq<Call>) {
    forall i :: 0 <= i < |calls| ==> !calls[i].ReadShared? && !calls[i].Release?
  }

  // How much of `n` offered chunks waits while nobody reads.
  function Backlog(pc: PortConfig, n: nat): nat { if pc.federated || n <= 100 then n else 100 }

  lemma CallKeepsBacklog(pc: PortConfig, ps: PortState, b: Books, call: Call)
    requires Refines(pc, ps, b) && !call.ReadShared? && !call.Release?
    requires |ps.shared| == Backlog(pc, |b.shared.offered|)
    ensures |Apply(pc, ps, call).shared|
         == Backlog(pc, |Note(pc, b, call, Accepts(pc, ps, call)).shared.offered|)
  {
    OfferIsWanted(pc, ps, b, call);
  }

  lemma {:induction false} OffersKeepBacklog(pc: PortConfig, ps: PortState, b: Books, calls: seq<Call>)
    requires Refines(pc, ps, b) && OnlyOffers(calls) && |ps.shared| == Backlog(pc, |b.shared.offered|)
    ensures |Run(pc, ps, calls).shared| == Backlog(pc, |NoteAll(pc, ps, b, calls).shared.offered|)
    decreases calls
  {
    if calls != [] {
      CallRefines(pc, ps, b, calls[0]);
      CallKeepsBacklog(pc, ps, b, calls[0]);
      OffersKeepBacklog(pc, Apply(pc, ps, calls[0]), Note(pc, b, calls[0], Accepts(pc, ps, calls[0])), calls[1..]);
    }
  }

  lemma NewPortRefines(pc: PortConfig)
    ensures Refines(pc, NEW_PORT, NEW_BOOKS)
  {
    RunRefines(pc, NEW_PORT, NEW_BOOKS, []);
  }

  lemma SharedIsTail(pc: PortConfig, ps: PortState, b: Books)
    requires SharedRefines(pc, ps, b)
    ensures var q, offered := ps.shared, b.shared.offered;
      |q| <= |offered| && q == offered[|offered| - |q|..] && (!pc.federated ==> |q| <= 100)
  {
  }

  lemma NewBooksAreNoted(pc: PortConfig, calls: seq<Call>)
    ensures NoteAll(pc, NEW_PORT, NEW_BOOKS, calls).shared.offered == SharedOffers(pc, NEW_PORT, calls)
    ensures SharedRefines(pc, Run(pc, NEW_PORT, calls), NoteAll(pc, NEW_PORT, NEW_BOOKS, calls))
  {
    RunRefines(pc, NEW_PORT, NEW_BOOKS, calls);
    OffersAreNoted(pc, NEW_PORT, NEW_BOOKS, calls);
    assert [] + SharedOffers(pc, NEW_PORT, calls) == SharedOffers(pc, NEW_PORT, calls);
  }

  // In any run from a new port, the shared queue is the most recent of the chunks that arrived while
  // somebody was there to read, in order; a local port keeps at most 100. While nobody reads and no hold
  // is dropped it keeps all of them, or the last 100 on a local port.
  lemma SharedQueueIsRecent(pc: PortConfig, calls: seq<Call>)
    ensures var q, offered := Run(pc, NEW_PORT, calls).shared, SharedOffers(pc, NEW_PORT, calls);
      && |q| <= |offered| && q == offered[|offered| - |q|..]
      && (!pc.federated ==> |q| <= 100)
      && (OnlyOffers(calls) ==> |q| == if pc.federated || |offered| <= 100 then |offered| else 100)
  {
    NewBooksAreNoted(pc, calls);
    SharedIsTail(pc, Run(pc, NEW_PORT, calls), NoteAll(pc, NEW_PORT, NEW_BOOKS, calls));
    if OnlyOffers(calls) {
      NewPortRefines(pc);
      OffersKeepBacklog(pc, NEW_PORT, NEW_BOOKS, calls);
    }
  }

  // ------------------------------------------------------------------------ holds

  // Holds taken and not yet dropped; a drop without a hold is ignored.
  function Held(calls: seq<Call>): nat {
    if calls == [] then 0
    else
      var before, last := Held(calls[..|calls| - 1]), calls[|calls| - 1];
      if last.Hold? then before + 1 else if last.Release? && before > 0 then before - 1 else before
  }

  lemma {:induction false} HoldsAreHeld(pc: PortConfig, calls: seq<Call>)
    ensures Run(pc, NEW_PORT, calls).holds == Held(calls)
    decreases calls
  {
    if calls != [] {
      var init, last := calls[..|calls| - 1], calls[|calls| - 1];
      assert calls == init + [last] && [last][1..] == [];
      RunSplit(pc, NEW_PORT, init, [last]);
      assert Run(pc, Run(pc, NEW_PORT, init), [last]) == Apply(pc, Run(pc, NEW_PORT, init), last);
      HoldsAreHeld(pc, init);
    }
  }

  // Dropping a hold empties the shared queue exactly when no other hold is left.
  lemma LastReleaseDrains(pc: PortConfig, calls: seq<Call>)
    ensures var before, after := Run(pc, NEW_PORT, calls), Run(pc, NEW_PORT, calls + [Release]);
      after.shared == if Held(calls) <= 1 then [] else before.shared
  {
    HoldsAreHeld(pc, calls);
    RunSplit(pc, NEW_PORT, calls, [Release]);
    assert [Release][1..] == [];
    assert Run(pc, Run(pc, NEW_PORT, calls), [Release]) == Apply(pc, Run(pc, NEW_PORT, calls), Release);
  }

  // ------------------------------------------------------------- a client's own queue

  // Whoever does not read loses nothing until 100 chunks wait, and then one for each that comes.
  lemma OfferKeepsBacklog(l: Ledger, data: Bytes)
    requires l.Valid() && |l.Waiting()| == (if |l.offered| <= 100 then |l.offered| else 100)
    ensures |l.Offer(data).Waiting()| == (if |l.offered| + 1 <= 100 then |l.offered| + 1 else 100)
  {
  }

  predicate OnlyArrivals(calls: seq<Call>, c: ClientId) {
    forall i :: 0 <= i < |calls| ==> calls[i] != Remove(c) && calls[i] != Deliver(c)
  }

  lemma ArrivalKeepsBacklog(pc: PortConfig, ps: PortState, b: Books, call: Call, c: ClientId)
    requires Refines(pc, ps, b) && c in b.clients && b.clients[c].Valid() && call != Remove(c) && call != Deliver(c)
    requires |b.clients[c].Waiting()| == (if |b.clients[c].offered| <= 100 then |b.clients[c].offered| else 100)
    ensures var after := Note(pc, b, call, Accepts(pc, ps, call));
      && c in after.clients && after.clients[c].Valid()
      && |after.clients[c].Waiting()| ==
         (if |after.clients[c].offered| <= 100 then |after.clients[c].offered| else 100)
  {
    assert QueueRefines(ps, b, c);
    if call.Incoming? {
      OfferKeepsBacklog(b.clients[c], call.data);
    } else {
      QuietLedgerStep(pc, b, call, Accepts(pc, ps, call), c);
    }
  }

  lemma {:induction false} ArrivalsKeepBacklog(pc: PortConfig, ps: PortState, b: Books, calls: seq<Call>, c: ClientId)
    requires Refines(pc, ps, b) && c in b.clients && b.clients[c].Valid() && OnlyArrivals(calls, c)
    requires |b.clients[c].Waiting()| == (if |b.clients[c].offered| <= 100 then |b.clients[c].offered| else 100)
    ensures var after := NoteAll(pc, ps, b, calls);
      && c in after.clients && after.clients[c].Valid()
      && |after.clients[c].Waiting()| ==
         (if |after.clients[c].offered| <= 100 then |after.clients[c].offered| else 100)
    decreases calls
  {
    if calls != [] {
      CallRefines(pc, ps, b, calls[0]);
      ArrivalKeepsBacklog(pc, ps, b, calls[0], c);
      ArrivalsKeepBacklog(pc, Apply(pc, ps, calls[0]), Note(pc, b, calls[0], Accepts(pc, ps, calls[0])), calls[1..], c);
    }
  }

  // From the moment a client attaches until it is first served, its queue is every chunk that arrived,
  // or the last 100 of them, in order.
  lemma UnservedQueueKeepsTheLast(pc: PortConfig, before: seq<Call>, add: Call, calls: seq<Call>, c: ClientId)
    requires add.Add? && add.client == c && Accepts(pc, Run(pc, NEW_PORT, before), add)
    requires !Attached(Run(pc, NEW_PORT, before), c) && OnlyArrivals(calls, c)
    ensures var ps, since := Run(pc, Apply(pc, Run(pc, NEW_PORT, before), add), calls), Payloads(calls);
      && c in ps.queues
      && ps.queues[c] == since[if |since| <= 100 then 0 else |since| - 100..]
  {
    var start, books := Run(pc, NEW_PORT, before), NoteAll(pc, NEW_PORT, NEW_BOOKS, before);
    RunRefines(pc, NEW_PORT, NEW_BOOKS, before);
    AttachOpensLedger(pc, start, books, add, c);
    var attached, noted := Apply(pc, start, add), Note(pc, books, add, true);
    assert Remove(c) !in calls;
    QueueSinceAttach(pc, attached, noted, calls, c);
    ArrivalsKeepBacklog(pc, attached, noted, calls, c);
    RunRefines(pc, attached, noted, calls);
    LedgerFollowsCalls(pc, attached, noted, calls, c);
    assert QueueRefines(Run(pc, attached, calls), NoteAll(pc, attached, noted, calls), c);
    assert [] + Payloads(calls) == Payloads(calls);
  }
}
