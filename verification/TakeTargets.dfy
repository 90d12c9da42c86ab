/** Whom a take displaces: what the choice of a victim means, apart from how it is searched. */
module TakeTargets {
  import opened Prelude
  import opened AccessControl
  import opened PortSeats
  import opened AccessDecision
  import opened Protocol

  // A read-write record of someone else.
  predicate IsHolder(ps: PortState, taker: ClientId, r: Record) {
    r in ps.records && r.mode.ReadWrite? && r.client != taker
  }

  // `target` means `h`: its exact id, or the printed id of `h` alone when nobody has that exact id.
  ghost predicate Means(hs: seq<Record>, target: string, h: Record) {
    && h in hs
    && (|| h.client == target
        || (&& (forall g :: g in hs ==> g.client != target)
            && HolderIdShort(h.client) == target
            && (forall g :: g in hs && HolderIdShort(g.client) == target ==> g == h)))
  }

  lemma UniqueCons(r: Record, rs: seq<Record>)
    requires UniqueIds(rs) && forall s :: s in rs ==> s.client != r.client
    ensures UniqueIds([r] + rs)
  {
    assert forall j :: 0 < j < |rs| + 1 ==> ([r] + rs)[j] == rs[j - 1] && rs[j - 1] in rs;
  }

  lemma UniqueTail(rs: seq<Record>)
    requires UniqueIds(rs) && rs != []
    ensures UniqueIds(rs[1..]) && forall s :: s in rs[1..] ==> s.client != rs[0].client
  {
    assert forall j :: 0 <= j < |rs| - 1 ==> rs[1..][j] == rs[j + 1];
  }

  lemma {:induction false} PrintedUnique(hs: seq<Record>, target: string)
    requires UniqueIds(hs)
    ensures UniqueIds(Printed(hs, target))
    decreases hs
  {
    if hs != [] {
      UniqueTail(hs);
      PrintedUnique(hs[1..], target);
      if HolderIdShort(hs[0].client) == target {
        UniqueCons(hs[0], Printed(hs[1..], target));
      } else {
        assert Printed(hs, target) == Printed(hs[1..], target);
      }
    }
  }

  lemma {:induction false} HoldersUnique(rs: seq<Record>, taker: ClientId)
    requires UniqueIds(rs)
    ensures UniqueIds(Holders(rs, taker))
    decreases rs
  {
    if rs != [] {
      UniqueTail(rs);
      HoldersUnique(rs[1..], taker);
      if rs[0].mode.ReadWrite? && rs[0].client != taker {
        UniqueCons(rs[0], Holders(rs[1..], taker));
      } else {
        assert Holders(rs, taker) == Holders(rs[1..], taker);
      }
    }
  }

  lemma SameClientSameRecord(rs: seq<Record>, a: Record, b: Record)
    requires UniqueIds(rs) && a in rs && b in rs && a.client == b.client
    ensures a == b
  {
  }

  lemma OneOfAKind(rs: seq<Record>, r: Record)
    requires UniqueIds(rs) && r in rs && forall s :: s in rs ==> s == r
    ensures rs == [r]
  {
    UniqueTail(rs);
    assert rs[0] in rs && forall s :: s in rs[1..] ==> s in rs;
    if rs[1..] != [] {
      HasMember(rs[1..]);
    }
  }

  lemma HasMember(rs: seq<Record>)
    requires rs != []
    ensures exists r :: r in rs
  {
    assert rs[0] in rs;
  }

  // A holder is found if and only if the target means it. An exact id beats every printed one,
  // and two holders that print alike are told apart by neither.
  lemma MatchIsMeaning(hs: seq<Record>, target: string, h: Record)
    requires UniqueIds(hs)
    ensures MatchTakeTarget(hs, target) == Some(h) <==> Means(hs, target, h)
  {
    if IndexOf(hs, target) < |hs| {
      ExactMatch(hs, target, h);
    } else {
      PrintedMatch(hs, target, h);
    }
  }

  lemma ExactMatch(hs: seq<Record>, target: string, h: Record)
    requires UniqueIds(hs) && IndexOf(hs, target) < |hs|
    ensures hs[IndexOf(hs, target)] == h <==> Means(hs, target, h)
  {
    var i := IndexOf(hs, target);
    assert hs[i] in hs;
    if Means(hs, target, h) {
      SameClientSameRecord(hs, h, hs[i]);
    }
  }

  lemma PrintedMatch(hs: seq<Record>, target: string, h: Record)
    requires UniqueIds(hs) && IndexOf(hs, target) == |hs|
    ensures Printed(hs, target) == [h] <==> Means(hs, target, h)
  {
    var printed := Printed(hs, target);
    assert forall g :: g in hs ==> g.client != target;
    PrintedUnique(hs, target);
    if printed == [h] {
      assert h in printed && forall g :: g in printed ==> g == h;
    }
    if Means(hs, target, h) {
      OneOfAKind(printed, h);
    }
  }

  lemma {:induction false} LatestIsFirst(hs: seq<Record>) returns (k: nat)
    requires hs != []
    ensures k < |hs| && hs[k] == Latest(hs)
    ensures forall j :: 0 <= j < k ==> hs[j].connectedAt < hs[k].connectedAt
    ensures forall j :: k <= j < |hs| ==> hs[j].connectedAt <= hs[k].connectedAt
  {
    if |hs| == 1 {
      k := 0;
    } else {
      var last := |hs| - 1;
      var best := LatestIsFirst(hs[..last]);
      assert forall j :: 0 <= j < last ==> hs[..last][j] == hs[j];
      k := if hs[last].connectedAt > hs[best].connectedAt then last else best;
    }
  }

  // There is no holder to take from exactly when nobody else is listed read-write.
  lemma NoHolderIsExact(ps: PortState, taker: ClientId, target: Option<string>)
    ensures ResolveTakeTarget(ps, taker, target) == NoChoice(NoHolder) <==> !exists r :: IsHolder(ps, taker, r)
  {
    var hs := Holders(ps.records, taker);
    if hs != [] {
      assert hs[0] in hs;
      assert IsHolder(ps, taker, hs[0]);
    } else {
      forall r ensures !IsHolder(ps, taker, r) {
        assert r !in hs;
      }
    }
  }

  // A named target picks the holder it means.
  lemma NamedChoiceIsExact(ps: PortState, taker: ClientId, target: string, h: Record)
    requires UniqueIds(ps.records)
    ensures var choice, hs := ResolveTakeTarget(ps, taker, Some(target)), Holders(ps.records, taker);
      && (choice == Chosen(h) <==> Means(hs, target, h))
      && (Means(hs, target, h) ==> IsHolder(ps, taker, h))
  {
    HoldersUnique(ps.records, taker);
    MatchIsMeaning(Holders(ps.records, taker), target, h);
  }

  // It is invalid exactly when there are holders and it means none of them.
  lemma InvalidTargetIsExact(ps: PortState, taker: ClientId, target: string)
    requires UniqueIds(ps.records)
    ensures ResolveTakeTarget(ps, taker, Some(target)) == NoChoice(InvalidTarget) <==>
      (exists r :: IsHolder(ps, taker, r)) && !exists h :: Means(Holders(ps.records, taker), target, h)
  {
    var choice, hs := ResolveTakeTarget(ps, taker, Some(target)), Holders(ps.records, taker);
    NoHolderIsExact(ps, taker, Some(target));
    if choice.Chosen? {
      NamedChoiceIsExact(ps, taker, target, choice.victim);
      assert Means(hs, target, choice.victim);
    } else {
      forall h ensures !Means(hs, target, h) {
        NamedChoiceIsExact(ps, taker, target, h);
      }
    }
  }

  // Without a target the victim is a holder that nobody attached later than.
  lemma DefaultChoiceIsLatest(ps: PortState, taker: ClientId, r: Record)
    requires IsHolder(ps, taker, r)
    ensures var choice := ResolveTakeTarget(ps, taker, None);
      choice.Chosen? && IsHolder(ps, taker, choice.victim) && r.connectedAt <= choice.victim.connectedAt
  {
    assert r in Holders(ps.records, taker);
  }
}
