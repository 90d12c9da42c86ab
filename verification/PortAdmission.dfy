/** Whom a port admits as a writer, by its configured mode: what the capacity lets in as well as what
    it keeps out, stated on the records alone. */
module PortAdmission {
  import opened AccessControl
  import opened PortSeats

  // The mode a port is run in. A value that is no mode acts as `one`.
  function ModeOf(pc: PortConfig): WriteMode {
    match ParseWriteMode(pc.maxReadWriteUsers)
    case Some(m) => m
    case None => OneWriter
  }

  predicate Writes(r: Record) { r.mode.ReadWrite? }

  ghost predicate IsListed(ps: PortState, c: ClientId) {
    exists i :: 0 <= i < |ps.records| && ps.records[i].client == c
  }

  ghost predicate SomeoneWrites(ps: PortState) {
    exists i :: 0 <= i < |ps.records| && Writes(ps.records[i])
  }

  ghost predicate SomeoneElseWrites(ps: PortState, c: ClientId) {
    exists i :: 0 <= i < |ps.records| && Writes(ps.records[i]) && ps.records[i].client != c
  }

  lemma WritersAreSomeone(ps: PortState)
    ensures Writers(ps.records) > 0 <==> SomeoneWrites(ps)
  {
    if Writers(ps.records) > 0 {
      var i := WriterExists(ps.records);
      assert Writes(ps.records[i]);
    }
    if SomeoneWrites(ps) {
      var i :| 0 <= i < |ps.records| && Writes(ps.records[i]);
      WritersSet(ps.records, i, ps.records[i].(mode := ReadOnly));
    }
  }

  lemma {:induction false} OthersAreCounted(rs: seq<Record>, c: ClientId)
    ensures WritersBut(rs, c) > 0 <==> exists i :: 0 <= i < |rs| && Writes(rs[i]) && rs[i].client != c
  {
    if rs != [] {
      var init, last := rs[..|rs| - 1], rs[|rs| - 1];
      OthersAreCounted(init, c);
      if WritersBut(init, c) > 0 {
        var i :| 0 <= i < |init| && Writes(init[i]) && init[i].client != c;
        assert Writes(rs[i]) && rs[i].client != c;
      }
      if i :| 0 <= i < |rs| && Writes(rs[i]) && rs[i].client != c {
        assert i < |init| ==> Writes(init[i]);
      }
    }
  }

  lemma ListedIsAttached(ps: PortState, c: ClientId)
    ensures IsListed(ps, c) <==> Attached(ps, c)
  {
  }

  // A `multiple` port takes in everyone, a `one` port a writer only while nobody else writes there,
  // a `none` port no writer at all. Watchers are never turned away.
  lemma AddIsAdmittedExactly(pc: PortConfig, ps: PortState, c: ClientId, u: Username, m: Mode, now: real)
    ensures Accepts(pc, ps, Add(c, u, m, now)) <==>
      match ModeOf(pc)
      case ManyWriters => true
      case OneWriter => m.ReadOnly? || !SomeoneElseWrites(ps, c)
      case NoWriter => m.ReadOnly?
  {
    OthersAreCounted(ps.records, c);
  }

  // Of the clients listed there, a `multiple` port promotes any, a `one` port its writer and, while it
  // has none, any, and a `none` port none, unless a record that should not be there says it writes.
  lemma PromoteIsAdmittedExactly(pc: PortConfig, ps: PortState, c: ClientId)
    ensures Accepts(pc, ps, Promote(c)) <==>
      && IsListed(ps, c)
      && match ModeOf(pc)
         case ManyWriters => true
         case OneWriter => HoldsSeat(ps.records, c) || !SomeoneWrites(ps)
         case NoWriter => HoldsSeat(ps.records, c)
    ensures ModeOf(pc).NoWriter? && Sound(pc.Capacity(), ps) ==> !Accepts(pc, ps, Promote(c))
  {
    ListedIsAttached(ps, c);
    WritersAreSomeone(ps);
    if HoldsSeat(ps.records, c) {
      var i :| 0 <= i < |ps.records| && ps.records[i].client == c && ps.records[i].mode.ReadWrite?;
      assert Writes(ps.records[i]);
    }
  }

  // On a `multiple` port a listed client that asks writes from then on, beside everyone who did.
  lemma ManyWriteTogether(pc: PortConfig, ps: PortState, c: ClientId, d: ClientId)
    requires ModeOf(pc).ManyWriters? && UniqueIds(ps.records) && IsListed(ps, c)
    ensures var after := Apply(pc, ps, Promote(c));
      Drives(after, c) && (d != c ==> (Drives(after, d) <==> Drives(ps, d)))
  {
    PromoteIsAdmittedExactly(pc, ps, c);
    CallMovesRecords(pc, ps, Promote(c), c);
    CallMovesRecords(pc, ps, Promote(c), d);
  }

  // Over any run of calls on a new port: with `none` nobody ever writes, with `one` never two clients.
  lemma ModeBoundsWriters(pc: PortConfig, calls: seq<Call>, c: ClientId, d: ClientId)
    ensures var ps := Run(pc, NEW_PORT, calls);
      && (ModeOf(pc).NoWriter? ==> !Drives(ps, c))
      && (ModeOf(pc).OneWriter? && Drives(ps, c) && Drives(ps, d) ==> c == d)
  {
    var ps := Run(pc, NEW_PORT, calls);
    RunKeepsSound(pc, NEW_PORT, calls);
    if Drives(ps, c) {
      WriterIsCounted(ps, c);
      if ModeOf(pc).OneWriter? && Drives(ps, d) {
        OneDriver(ps, c, d);
      }
    }
  }

  // ------------------------------------------------------------------ the list

  // The listed ids, in the order of the list.
  function Ids(rs: seq<Record>): (ids: seq<ClientId>)
    ensures |ids| == |rs| && forall i :: 0 <= i < |rs| ==> ids[i] == rs[i].client
  {
    seq(|rs|, i requires 0 <= i < |rs| => rs[i].client)
  }

  // A newcomer is listed last, a re-add or a change of mode keeps every place, a removal closes its gap.
  lemma ListKeepsItsOrder(pc: PortConfig, ps: PortState, call: Call)
    requires UniqueIds(ps.records)
    ensures var before, after := Ids(ps.records), Ids(Apply(pc, ps, call).records);
      if call.Add? && Accepts(pc, ps, call) && !IsListed(ps, call.client) then after == before + [call.client]
      else if call.Remove? && IsListed(ps, call.client) then
        exists i :: 0 <= i < |before| && before[i] == call.client && after == before[..i] + before[i + 1..]
      else after == before
  {
    if call.Remove? && IsListed(ps, call.client) {
      var i := IndexOf(ps.records, call.client);
      var before, after := Ids(ps.records), Ids(Apply(pc, ps, call).records);
      assert before[i] == call.client && after == before[..i] + before[i + 1..];
    }
  }
}
