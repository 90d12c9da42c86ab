/** Password logins against the lockout: what each verification tells the failure tracker, and so when
    even the right response is refused. */
module LoginLockout {
  import opened Prelude
  import opened AuthLockout

  const NOBODY := State(map[], map[])

  // What one move tells the tracker. A verification asks first; unless the key is locked it then counts
  // a failure or, accepted, clears the record.
  function Tells(c: Crypto, s: State, m: Move): seq<Event> {
    match m
    case Start(_, _, _) => []
    case Track(e) => [e]
    case Verify(username, srcIp, response, clock) =>
      var key := KeyOf(username, srcIp);
      if LockedAt(Look(s.tracker, key), clock.asked) then [Ask(key, clock.asked)]
      else if Accepts(c, s, key, response, clock) then [Ask(key, clock.asked), Clear(key, clock.checked)]
      else [Ask(key, clock.asked), Fail(key, clock.failed)]
  }

  function AllTold(p: Policy, c: Crypto, users: seq<User>, s: State, moves: seq<Move>): seq<Event>
    requires p.Good()
    decreases moves
  {
    if moves == [] then []
    else Tells(c, s, moves[0]) + AllTold(p, c, users, Moved(p, c, users, s, moves[0]), moves[1..])
  }

  lemma OneEvent(p: Policy, t: Tracker, a: Event)
    requires p.Good()
    ensures Run(p, t, [a]) == Apply(p, t, a)
  {
    assert [a][1..] == [];
  }

  lemma TwoEvents(p: Policy, t: Tracker, a: Event, b: Event)
    requires p.Good()
    ensures Run(p, t, [a, b]) == Apply(p, Apply(p, t, a), b)
  {
    assert [a, b][1..] == [b];
    OneEvent(p, Apply(p, t, a), b);
  }

  lemma AskingALockedKey(p: Policy, t: Tracker, key: Key, now: real)
    requires p.Good() && LockedAt(Look(t, key), now)
    ensures Apply(p, t, Ask(key, now)) == t
  {
    assert t[key := t[key]] == t;
  }

  lemma MoveIsTold(p: Policy, c: Crypto, users: seq<User>, s: State, m: Move)
    requires p.Good()
    ensures Moved(p, c, users, s, m).tracker == Run(p, s.tracker, Tells(c, s, m))
  {
    match m
    case Start(_, _, _) =>
    case Track(e) => OneEvent(p, s.tracker, e);
    case Verify(username, srcIp, response, clock) => AttemptIsTold(p, c, s, KeyOf(username, srcIp), response, clock, m);
  }

  lemma AttemptIsTold(p: Policy, c: Crypto, s: State, key: Key, response: Option<Bytes>, clock: Clock, m: Move)
    requires p.Good() && m.Verify? && KeyOf(m.username, m.srcIp) == key && m.response == response && m.clock == clock
    ensures Verified(p, c, s, key, response, clock).tracker == Run(p, s.tracker, Tells(c, s, m))
  {
    var ask := Ask(key, clock.asked);
    var asked := Asked(p, Look(s.tracker, key), clock.asked);
    if LockedAt(Look(s.tracker, key), clock.asked) {
      OneEvent(p, s.tracker, ask);
      AskingALockedKey(p, s.tracker, key, clock.asked);
    } else if Accepts(c, s, key, response, clock) {
      TwoEvents(p, s.tracker, ask, Clear(key, clock.checked));
      StoreTwice(s.tracker, key, asked, None);
    } else {
      TwoEvents(p, s.tracker, ask, Fail(key, clock.failed));
      StoreTwice(s.tracker, key, asked, Failed(p, asked, clock.failed));
    }
  }

  // Over every run of challenges, verifications and other logins' events, the tracker is what the told
  // events make of it: each refused attempt on an unlocked key counts as one failure, each accepted one
  // clears the key, and each attempt asks.
  lemma {:induction false} TrackerIsToldEverything(p: Policy, c: Crypto, users: seq<User>, s: State, moves: seq<Move>)
    requires p.Good()
    ensures AfterMoves(p, c, users, s, moves).tracker == Run(p, s.tracker, AllTold(p, c, users, s, moves))
    decreases moves
  {
    if moves != [] {
      var next := Moved(p, c, users, s, moves[0]);
      MoveIsTold(p, c, users, s, moves[0]);
      TrackerIsToldEverything(p, c, users, next, moves[1..]);
      RunOnward(p, s.tracker, Tells(c, s, moves[0]), AllTold(p, c, users, next, moves[1..]));
    }
  }

  // The documented curve for logins, at every moment after every run: an attempt is refused because of
  // the lock if and only if, with n failures in the current episode, it comes within
  // min(base * 2^(n - threshold), 3600) seconds of the last of them.
  lemma LoginsFollowTheCurve(p: Policy, c: Crypto, users: seq<User>, moves: seq<Move>, from: real, key: Key, now: real)
    requires p.Good() && Timely(AllTold(p, c, users, NOBODY, moves), from)
    requires 0.0 <= End(AllTold(p, c, users, NOBODY, moves), from) <= now
    ensures var times := Episode(p, AllTold(p, c, users, NOBODY, moves), key);
      var n := |times|;
      LockedAt(Look(AfterMoves(p, c, users, NOBODY, moves).tracker, key), now) <==>
        n >= 2 && n >= p.threshold && now < times[n - 1] + Min(p.base * Pow2(n - p.threshold), 3600) as real
  {
    var told := AllTold(p, c, users, NOBODY, moves);
    TrackerIsToldEverything(p, c, users, NOBODY, moves);
    LockCurve(p, map[], told, from, key, now);
  }

  // However many wrong responses a key has had: threshold + k of them inside one window, none of them
  // answered by an accepted one, and even the right response is refused, and changes nothing, until
  // min(base * 2^k, 3600) seconds after the last.
  lemma WrongResponsesLock(p: Policy, c: Crypto, users: seq<User>, moves: seq<Move>, from: real, key: Key, k: nat,
                           response: Option<Bytes>, clock: Clock)
    requires p.Good() && Timely(AllTold(p, c, users, NOBODY, moves), from)
    requires 0.0 <= End(AllTold(p, c, users, NOBODY, moves), from) <= clock.asked
    requires NeverCleared(AllTold(p, c, users, NOBODY, moves), key)
    requires var times := FailTimes(AllTold(p, c, users, NOBODY, moves), key);
      && |times| == p.threshold + k && |times| >= 2 && times[|times| - 1] - times[0] <= p.window as real
      && clock.asked < times[|times| - 1] + Min(p.base * Pow2(k), 3600) as real
    ensures var s := AfterMoves(p, c, users, NOBODY, moves);
      !Accepts(c, s, key, response, clock) && Verified(p, c, s, key, response, clock) == s
  {
    var told := AllTold(p, c, users, NOBODY, moves);
    OneWindowIsOneEpisode(p, told, from, key);
    LoginsFollowTheCurve(p, c, users, moves, from, key, clock.asked);
  }

  // ------------------------------------------------------------------- guessing

  // One round of guessing a password: a challenge is started and answered.
  datatype Guess = Guess(nonce: Bytes, response: Option<Bytes>, at: real)

  function Round(username: string, srcIp: Option<string>, g: Guess): seq<Move> {
    [Start(username, g.nonce, g.at), Verify(username, srcIp, g.response, Clock(g.at, g.at, g.at))]
  }

  function Rounds(username: string, srcIp: Option<string>, gs: seq<Guess>): seq<Move> {
    if gs == [] then [] else Rounds(username, srcIp, gs[..|gs| - 1]) + Round(username, srcIp, gs[|gs| - 1])
  }

  function Times(gs: seq<Guess>): (times: seq<real>)
    ensures |times| == |gs| && forall i :: 0 <= i < |gs| ==> times[i] == gs[i].at
  {
    seq(|gs|, i requires 0 <= i < |gs| => gs[i].at)
  }

  // The response is not the HMAC of the round's nonce under the user's hash.
  predicate IsWrong(c: Crypto, users: seq<User>, username: string, g: Guess) {
    var hash := HashOf(users, username);
    hash.Some? && hash.value != "" && c.fromHex(hash.value).Some? ==>
      g.response != Some(c.hmac(c.fromHex(hash.value).value, g.nonce))
  }

  lemma {:induction false} MovesOnward(p: Policy, c: Crypto, users: seq<User>, s: State, a: seq<Move>, b: seq<Move>)
    requires p.Good()
    ensures AfterMoves(p, c, users, s, a + b) == AfterMoves(p, c, users, AfterMoves(p, c, users, s, a), b)
    decreases a
  {
    if a == [] {
      assert a + b == b;
    } else {
      assert (a + b)[1..] == a[1..] + b;
      MovesOnward(p, c, users, Moved(p, c, users, s, a[0]), a[1..], b);
    }
  }

  lemma TwoMoves(p: Policy, c: Crypto, users: seq<User>, s: State, a: Move, b: Move)
    requires p.Good()
    ensures AfterMoves(p, c, users, s, [a, b]) == Moved(p, c, users, Moved(p, c, users, s, a), b)
  {
    var next := Moved(p, c, users, s, a);
    assert [a, b][1..] == [b] && [b][1..] == [];
    assert AfterMoves(p, c, users, next, [b]) == Moved(p, c, users, next, b);
  }

  // A wrong guess on an unlocked key counts as one failure.
  lemma WrongGuessCounts(p: Policy, c: Crypto, users: seq<User>, s: State, username: string, srcIp: Option<string>,
                         g: Guess)
    requires p.Good() && IsWrong(c, users, username, g) && username !in s.challenges
    requires var slot := Look(s.tracker, KeyOf(username, srcIp));
      slot.Some? ==> slot.value.lockedUntil == 0.0 && !Expired(p, slot.value, g.at)
    requires g.at >= 0.0
    ensures var key, after := KeyOf(username, srcIp), AfterMoves(p, c, users, s, Round(username, srcIp, g));
      Look(after.tracker, key) == Failed(p, Look(s.tracker, key), g.at) && username !in after.challenges
  {
    var answer := Clock(g.at, g.at, g.at);
    TwoMoves(p, c, users, s, Start(username, g.nonce, g.at), Verify(username, srcIp, g.response, answer));
  }

  // While fewer than the threshold have failed, the record counts them and sets no deadline.
  lemma {:induction false} GuessesAreCounted(p: Policy, c: Crypto, users: seq<User>, username: string,
                                             srcIp: Option<string>, gs: seq<Guess>)
    requires p.Good() && p.threshold >= 2 && 1 <= |gs| <= p.threshold && Within(Times(gs), gs[|gs| - 1].at)
    requires gs[|gs| - 1].at - gs[0].at <= p.window as real
    requires forall i :: 0 <= i < |gs| ==> IsWrong(c, users, username, gs[i])
    ensures var s := AfterMoves(p, c, users, NOBODY, Rounds(username, srcIp, gs));
      && username !in s.challenges
      && Look(s.tracker, KeyOf(username, srcIp)) == Some(Record(|gs|, gs[0].at,
           if |gs| < p.threshold then 0.0 else gs[|gs| - 1].at + Min(p.base, 3600) as real))
    decreases gs
  {
    var init, g := gs[..|gs| - 1], gs[|gs| - 1];
    MovesOnward(p, c, users, NOBODY, Rounds(username, srcIp, init), Round(username, srcIp, g));
    if init != [] {
      assert Times(gs)[|init| - 1] <= Times(gs)[|init|] && Times(gs)[0] <= Times(gs)[|init| - 1];
      assert forall i :: 0 <= i < |init| ==> Times(init)[i] == Times(gs)[i] <= Times(gs)[|init| - 1];
      GuessesAreCounted(p, c, users, username, srcIp, init);
    }
    WrongGuessCounts(p, c, users, AfterMoves(p, c, users, NOBODY, Rounds(username, srcIp, init)), username, srcIp, g);
    assert p.base * Pow2(0) == p.base;
  }

  // From a fresh server, as many wrong responses as the threshold, each to a challenge of its own and all
  // inside one window, lock the key: nothing is accepted for min(base, 3600) seconds after the last.
  lemma ThresholdGuessesLock(p: Policy, c: Crypto, users: seq<User>, username: string, srcIp: Option<string>,
                             gs: seq<Guess>, response: Option<Bytes>, clock: Clock)
    requires p.Good() && p.threshold >= 2 && |gs| == p.threshold && Within(Times(gs), gs[|gs| - 1].at)
    requires gs[|gs| - 1].at - gs[0].at <= p.window as real
    requires forall i :: 0 <= i < |gs| ==> IsWrong(c, users, username, gs[i])
    requires clock.asked < gs[|gs| - 1].at + Min(p.base, 3600) as real
    ensures var s, key := AfterMoves(p, c, users, NOBODY, Rounds(username, srcIp, gs)), KeyOf(username, srcIp);
      !Accepts(c, s, key, response, clock) && Verified(p, c, s, key, response, clock) == s
  {
    GuessesAreCounted(p, c, users, username, srcIp, gs);
  }

  // ----------------------------------------------------------------- keys and users

  // Failures are kept apart by user and by address; a login without an address counts under "?".
  lemma KeysTellAddressesApart(u: string, v: string, a: string, b: string)
    requires a != "" && b != ""
    ensures KeyOf(u, Some(a)) == KeyOf(v, Some(b)) <==> u == v && a == b
    ensures KeyOf(u, None) == KeyOf(u, Some("")) == KeyOf(u, Some("?"))
  {
  }

  // A user's hash is that of the first entry under the name.
  lemma {:induction false} FirstEntryCounts(users: seq<User>, i: nat)
    requires i < |users| && forall j :: 0 <= j < i ==> users[j].name != users[i].name
    ensures HashOf(users, users[i].name) == users[i].passwordHash
    decreases users
  {
    if i > 0 {
      FirstEntryCounts(users[1..], i - 1);
    }
  }

  lemma {:induction false} UnknownUserHasNone(users: seq<User>, username: string)
    requires forall j :: 0 <= j < |users| ==> users[j].name != username
    ensures HashOf(users, username) == None
    decreases users
  {
    if users != [] {
      UnknownUserHasNone(users[1..], username);
    }
  }

  // After an accepted response nothing is left of earlier failures, and the challenge is spent.
  lemma AcceptanceWipesTheRecord(p: Policy, c: Crypto, s: State, key: Key, response: Option<Bytes>, clock: Clock)
    requires p.Good() && Accepts(c, s, key, response, clock)
    ensures var after := Verified(p, c, s, key, response, clock);
      key !in after.tracker && key.username !in after.challenges
      && forall other :: other != key ==> Look(after.tracker, other) == Look(s.tracker, other)
  {
  }
}
