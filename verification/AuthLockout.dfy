/** The login lockout of `openmux/server/auth_manager.py`: failure windows, the capped
    exponential lock, and the one-time password challenge it guards. Clock readings are
    arguments; HMAC, hexadecimal and base64 decoding are left abstract. */
module AuthLockout {
  import opened Prelude

  const LOCK_CAP := 3600
  const CHALLENGE_SECONDS := 30

  datatype Policy = Policy(window: int, threshold: int, base: int)
  {
    // The security policy only ever installs positive limits.
    predicate Good() { window > 0 && threshold > 0 && base > 0 }
  }

  datatype Record = Record(failures: nat, first: real, lockedUntil: real)

  datatype Key = Key(username: string, ip: string)

  function KeyOf(username: string, srcIp: Option<string>): Key {
    Key(username, if srcIp.Some? && srcIp.value != "" then srcIp.value else "?")
  }

  type Tracker = map<Key, Record>
  type Slot = Option<Record>

  function Look(t: Tracker, key: Key): Slot { if key in t then Some(t[key]) else None }

  function Store(t: Tracker, key: Key, slot: Slot): (r: Tracker)
    ensures Look(r, key) == slot
    ensures forall other :: other != key ==> Look(r, other) == Look(t, other)
  {
    if slot.Some? then t[key := slot.value] else t - {key}
  }

  function Pow2(n: nat): (p: int)
    ensures p >= 1
  {
    if n == 0 then 1 else 2 * Pow2(n - 1)
  }

  function Min(a: int, b: int): int { if a < b then a else b }

  function Max(a: real, b: real): real { if a < b then b else a }

  function LockSeconds(p: Policy, over: nat): (s: int)
    requires p.Good()
    ensures 0 < s <= LOCK_CAP
  {
    Positive(p.base, Pow2(over));
    Min(p.base * Pow2(over), LOCK_CAP)
  }

  lemma Positive(a: int, b: int)
    requires a > 0 && b > 0
    ensures a * b >= a
  {
  }

  predicate Expired(p: Policy, r: Record, now: real) { now - r.first > p.window as real }

  // ------------------------------------------------------ one record at a time

  function Failed(p: Policy, slot: Slot, now: real): (after: Slot)
    requires p.Good()
  {
    if slot.None? || Expired(p, slot.value, now) then Some(Record(1, now, 0.0))
    else
      var r := slot.value;
      var failures := r.failures + 1;
      if failures >= p.threshold then
        Some(Record(failures, r.first, Max(r.lockedUntil, now + LockSeconds(p, failures - p.threshold) as real)))
      else
        Some(Record(failures, r.first, r.lockedUntil))
  }

  predicate LockedAt(slot: Slot, now: real) { slot.Some? && slot.value.lockedUntil > now }

  // What a lock query leaves behind.
  function Asked(p: Policy, slot: Slot, now: real): Slot {
    if slot.None? || LockedAt(slot, now) then slot
    else if Expired(p, slot.value, now) then None
    else Some(slot.value.(lockedUntil := 0.0))
  }

  // The lock deadline, while it lies ahead.
  function Ahead(slot: Slot, now: real): Option<real> {
    if LockedAt(slot, now) then Some(slot.value.lockedUntil) else None
  }

  // -------------------------------------------------------------- whole runs

  datatype Event =
    | Fail(key: Key, at: real)
    | Clear(key: Key, at: real)
    | Ask(key: Key, at: real)

  function Apply(p: Policy, t: Tracker, e: Event): Tracker
    requires p.Good()
  {
    match e
    case Fail(key, at) => Store(t, key, Failed(p, Look(t, key), at))
    case Clear(key, _) => Store(t, key, None)
    case Ask(key, at) => Store(t, key, Asked(p, Look(t, key), at))
  }

  function Run(p: Policy, t: Tracker, events: seq<Event>): Tracker
    requires p.Good()
    decreases events
  {
    if events == [] then t else Run(p, Apply(p, t, events[0]), events[1..])
  }

  // The clock never runs backwards and starts at or after zero.
  predicate Timely(events: seq<Event>, from: real)
    decreases events
  {
    events == [] || (0.0 <= from <= events[0].at && Timely(events[1..], events[0].at))
  }

  function End(events: seq<Event>, from: real): real { if events == [] then from else events[|events| - 1].at }

  // `fewer` is `more` without some of its queries.
  predicate Thins(more: seq<Event>, fewer: seq<Event>)
    decreases more
  {
    if more == [] then fewer == []
    else
      || (fewer != [] && fewer[0] == more[0] && Thins(more[1..], fewer[1..]))
      || (more[0].Ask? && Thins(more[1..], fewer))
  }

  // ------------------------------------------------- queries are invisible

  // Records no caller can tell apart from `now` on.
  predicate Alike(p: Policy, a: Slot, b: Slot, now: real) {
    match (a, b)
    case (None, None) => true
    case (Some(x), Some(y)) =>
      && x.failures == y.failures
      && x.first == y.first
      && (x.lockedUntil == y.lockedUntil || (x.lockedUntil <= now && y.lockedUntil <= now))
    case (Some(x), None) => Spent(p, x, now)
    case (None, Some(y)) => Spent(p, y, now)
  }

  // Neither locked nor counting any more.
  predicate Spent(p: Policy, r: Record, now: real) { Expired(p, r, now) && r.lockedUntil <= now }

  ghost predicate AllAlike(p: Policy, a: Tracker, b: Tracker, now: real) {
    forall key :: Alike(p, Look(a, key), Look(b, key), now)
  }

  lemma FailKeepsAlike(p: Policy, a: Slot, b: Slot, from: real, now: real)
    requires p.Good() && from <= now && Alike(p, a, b, from)
    ensures Alike(p, Failed(p, a, now), Failed(p, b, now), now)
  {
  }

  lemma AskKeepsAlike(p: Policy, a: Slot, b: Slot, from: real, now: real)
    requires 0.0 <= from <= now && Alike(p, a, b, from)
    ensures Alike(p, Asked(p, a, now), Asked(p, b, now), now)
    ensures Alike(p, Asked(p, a, now), b, now)
  {
  }

  lemma AlikeIsStable(p: Policy, a: Tracker, b: Tracker, from: real, now: real)
    requires from <= now && AllAlike(p, a, b, from)
    ensures AllAlike(p, a, b, now)
  {
    forall key ensures Alike(p, Look(a, key), Look(b, key), now) {
      assert Alike(p, Look(a, key), Look(b, key), from);
    }
  }

  lemma StepKeepsAlike(p: Policy, a: Tracker, b: Tracker, e: Event, from: real)
    requires p.Good() && 0.0 <= from <= e.at && AllAlike(p, a, b, from)
    ensures AllAlike(p, Apply(p, a, e), Apply(p, b, e), e.at)
    ensures e.Ask? ==> AllAlike(p, Apply(p, a, e), b, e.at)
  {
    AlikeIsStable(p, a, b, from, e.at);
    assert Alike(p, Look(a, e.key), Look(b, e.key), from);
    if e.Fail? {
      FailKeepsAlike(p, Look(a, e.key), Look(b, e.key), from, e.at);
    } else if e.Ask? {
      AskKeepsAlike(p, Look(a, e.key), Look(b, e.key), from, e.at);
    }
  }

  // Deleting any of a run's queries leaves records no later caller can tell apart.
  lemma {:induction false} ThinnedRunsAgree(p: Policy, a: Tracker, b: Tracker, more: seq<Event>, fewer: seq<Event>,
                                           from: real)
    requires p.Good() && Timely(more, from) && Thins(more, fewer) && AllAlike(p, a, b, from)
    ensures AllAlike(p, Run(p, a, more), Run(p, b, fewer), End(more, from))
    decreases more
  {
    if more != [] {
      var e := more[0];
      StepKeepsAlike(p, a, b, e, from);
      if fewer != [] && fewer[0] == e && Thins(more[1..], fewer[1..]) {
        ThinnedRunsAgree(p, Apply(p, a, e), Apply(p, b, e), more[1..], fewer[1..], e.at);
      } else {
        ThinnedRunsAgree(p, Apply(p, a, e), b, more[1..], fewer, e.at);
      }
    }
  }

  // From the same records, with queries inserted anywhere or not: at every later moment every
  // key is locked or not alike, and up to the same deadline.
  lemma QueriesAreInvisible(p: Policy, t: Tracker, more: seq<Event>, fewer: seq<Event>, from: real, key: Key, now: real)
    requires p.Good() && Timely(more, from) && Thins(more, fewer) && End(more, from) <= now
    ensures Ahead(Look(Run(p, t, more), key), now) == Ahead(Look(Run(p, t, fewer), key), now)
  {
    ThinnedRunsAgree(p, t, t, more, fewer, from);
    assert Alike(p, Look(Run(p, t, more), key), Look(Run(p, t, fewer), key), End(more, from));
  }

  // ----------------------------------------------------------- the lock curve

  // The failures of `key` that count together: those since its record was last cleared or, the
  // window of the first of them having closed, begun anew.
  function Episode(p: Policy, events: seq<Event>, key: Key): seq<real> {
    if events == [] then []
    else
      var before := Episode(p, events[..|events| - 1], key);
      var e := events[|events| - 1];
      if e.key != key || e.Ask? then before
      else if e.Clear? then []
      else if before != [] && e.at - before[0] <= p.window as real then before + [e.at]
      else [e.at]
  }

  function WithoutQueries(events: seq<Event>): seq<Event> {
    if events == [] then []
    else (if events[0].Ask? then [] else [events[0]]) + WithoutQueries(events[1..])
  }

  lemma {:induction false} WithoutQueriesThins(events: seq<Event>)
    ensures Thins(events, WithoutQueries(events))
  {
    if events != [] {
      WithoutQueriesThins(events[1..]);
      var rest := WithoutQueries(events[1..]);
      if events[0].Ask? {
        assert WithoutQueries(events) == rest;
      } else {
        assert WithoutQueries(events) == [events[0]] + rest;
        assert ([events[0]] + rest)[1..] == rest;
      }
    }
  }

  lemma {:induction false} WithoutQueriesSplit(a: seq<Event>, b: seq<Event>)
    ensures WithoutQueries(a + b) == WithoutQueries(a) + WithoutQueries(b)
    decreases a
  {
    if a == [] {
      assert a + b == b;
    } else {
      assert (a + b)[1..] == a[1..] + b;
      WithoutQueriesSplit(a[1..], b);
    }
  }

  lemma WithoutQueriesLast(events: seq<Event>)
    requires events != []
    ensures var init, e := events[..|events| - 1], events[|events| - 1];
      WithoutQueries(events) == WithoutQueries(init) + (if e.Ask? then [] else [e])
  {
    var init, e := events[..|events| - 1], events[|events| - 1];
    assert events == init + [e];
    WithoutQueriesSplit(init, [e]);
    assert [e][1..] == [];
  }

  // Deleting queries changes no episode.
  lemma {:induction false} WithoutQueriesEpisode(p: Policy, events: seq<Event>, key: Key)
    ensures Episode(p, WithoutQueries(events), key) == Episode(p, events, key)
    decreases events
  {
    if events != [] {
      var init, e := events[..|events| - 1], events[|events| - 1];
      WithoutQueriesLast(events);
      WithoutQueriesEpisode(p, init, key);
      if e.Ask? {
        assert WithoutQueries(init) + [] == WithoutQueries(init);
      } else {
        assert (WithoutQueries(init) + [e])[..|WithoutQueries(init)|] == WithoutQueries(init);
      }
    }
  }

  lemma {:induction false} WithoutQueriesTimely(events: seq<Event>, from: real)
    requires Timely(events, from)
    ensures Timely(WithoutQueries(events), from)
    ensures forall i :: 0 <= i < |WithoutQueries(events)| ==> !WithoutQueries(events)[i].Ask?
    decreases events
  {
    if events != [] {
      var rest := WithoutQueries(events[1..]);
      WithoutQueriesTimely(events[1..], events[0].at);
      if events[0].Ask? {
        TimelyEarlier(rest, events[0].at, from);
        assert [] + rest == rest;
      } else {
        assert ([events[0]] + rest)[1..] == rest;
      }
    }
  }

  lemma TimelyEarlier(events: seq<Event>, later: real, from: real)
    requires 0.0 <= from <= later && Timely(events, later)
    ensures Timely(events, from)
  {
  }

  lemma {:induction false} RunOnward(p: Policy, t: Tracker, a: seq<Event>, b: seq<Event>)
    requires p.Good()
    ensures Run(p, t, a + b) == Run(p, Run(p, t, a), b)
    decreases a
  {
    if a == [] {
      assert a + b == b;
    } else {
      assert (a + b)[1..] == a[1..] + b;
      RunOnward(p, Apply(p, t, a[0]), a[1..], b);
    }
  }

  lemma RunLast(p: Policy, t: Tracker, events: seq<Event>)
    requires p.Good() && events != []
    ensures Run(p, t, events) == Apply(p, Run(p, t, events[..|events| - 1]), events[|events| - 1])
  {
    var init, e := events[..|events| - 1], events[|events| - 1];
    assert events == init + [e];
    RunOnward(p, t, init, [e]);
    assert [e][1..] == [];
  }

  predicate Rising(times: seq<real>) { forall i, j :: 0 <= i < j < |times| ==> times[i] <= times[j] }

  predicate Within(times: seq<real>, end: real) {
    Rising(times) && forall i :: 0 <= i < |times| ==> 0.0 <= times[i] <= end
  }

  lemma {:induction false} TimelyPrefix(events: seq<Event>, from: real)
    requires events != [] && Timely(events, from)
    ensures Timely(events[..|events| - 1], from)
    ensures 0.0 <= from <= End(events[..|events| - 1], from) <= End(events, from)
    decreases events
  {
    if |events| > 1 {
      var init := events[..|events| - 1];
      TimelyPrefix(events[1..], events[0].at);
      assert init[1..] == events[1..][..|events| - 2];
    }
  }

  lemma {:induction false} EpisodeRises(p: Policy, events: seq<Event>, from: real, key: Key)
    requires Timely(events, from)
    ensures Within(Episode(p, events, key), End(events, from))
    decreases events
  {
    if events != [] {
      TimelyPrefix(events, from);
      EpisodeRises(p, events[..|events| - 1], from, key);
    }
  }

  lemma Pow2Grows(p: Policy, k: nat)
    requires p.Good()
    ensures LockSeconds(p, k) <= LockSeconds(p, k + 1)
  {
    Positive(p.base, Pow2(k));
    assert p.base * Pow2(k + 1) == 2 * (p.base * Pow2(k));
  }

  // The record the documented curve predicts after failures at `times`.
  function OnTheCurve(p: Policy, times: seq<real>): Record
    requires p.Good() && times != []
  {
    var n := |times|;
    Record(n, times[0],
           if n == 1 || n < p.threshold then 0.0
           else times[n - 1] + LockSeconds(p, n - p.threshold) as real)
  }

  function CurveSlot(p: Policy, times: seq<real>): Slot
    requires p.Good()
  {
    if times == [] then None else Some(OnTheCurve(p, times))
  }

  lemma OneMoreFailure(p: Policy, times: seq<real>, now: real)
    requires p.Good() && times != [] && Within(times, now) && now - times[0] <= p.window as real
    ensures Failed(p, Some(OnTheCurve(p, times)), now) == Some(OnTheCurve(p, times + [now]))
  {
    var n := |times|;
    assert times[n - 1] <= now && times[0] <= now;
    if n >= p.threshold {
      Pow2Grows(p, n - p.threshold);
    }
  }

  lemma {:induction false} CurveWithoutQueries(p: Policy, t: Tracker, events: seq<Event>, from: real, key: Key)
    requires p.Good() && key !in t && Timely(events, from)
    requires forall i :: 0 <= i < |events| ==> !events[i].Ask?
    ensures Look(Run(p, t, events), key) == CurveSlot(p, Episode(p, events, key))
    decreases events
  {
    if events != [] {
      var init, e := events[..|events| - 1], events[|events| - 1];
      var before := Episode(p, init, key);
      RunLast(p, t, events);
      TimelyPrefix(events, from);
      EpisodeRises(p, init, from, key);
      CurveWithoutQueries(p, t, init, from, key);
      if e.Fail? && e.key == key && before != [] && e.at - before[0] <= p.window as real {
        OneMoreFailure(p, before, e.at);
      }
    }
  }

  // When the lock after failures at `times` ends.
  function CurveDeadline(p: Policy, times: seq<real>): Option<real> {
    var n := |times|;
    if n <= 1 || n < p.threshold || p.threshold < 0 then None
    else Some(times[n - 1] + Min(p.base * Pow2(n - p.threshold), LOCK_CAP) as real)
  }

  // The documented curve, at every moment after every run, whatever queries, clears, closed windows
  // and other users' traffic it holds: with n failures in the current episode the key is locked
  // until exactly min(base * 2^(n - threshold), 3600) seconds after the last of them, and a key with
  // fewer than the threshold, or with just one, is not locked at all.
  lemma LockCurve(p: Policy, t: Tracker, events: seq<Event>, from: real, key: Key, now: real)
    requires p.Good() && key !in t && Timely(events, from) && 0.0 <= End(events, from) <= now
    ensures var until := CurveDeadline(p, Episode(p, events, key));
      Ahead(Look(Run(p, t, events), key), now) == if until.Some? && until.value > now then until else None
  {
    var quiet := WithoutQueries(events);
    WithoutQueriesTimely(events, from);
    CurveWithoutQueries(p, t, quiet, from, key);
    WithoutQueriesEpisode(p, events, key);
    WithoutQueriesThins(events);
    QueriesAreInvisible(p, t, events, quiet, from, key, now);
    CurveAhead(p, Episode(p, events, key), now);
  }

  lemma CurveAhead(p: Policy, times: seq<real>, now: real)
    requires p.Good() && now >= 0.0
    ensures var until := CurveDeadline(p, times);
      Ahead(CurveSlot(p, times), now) == if until.Some? && until.value > now then until else None
  {
  }

  // ------------------------------------------------------- failures in one window

  // The moments `key` failed, in order.
  function FailTimes(events: seq<Event>, key: Key): seq<real> {
    if events == [] then []
    else
      var before := FailTimes(events[..|events| - 1], key);
      var e := events[|events| - 1];
      if e.Fail? && e.key == key then before + [e.at] else before
  }

  predicate NeverCleared(events: seq<Event>, key: Key) {
    forall i :: 0 <= i < |events| ==> !(events[i].Clear? && events[i].key == key)
  }

  lemma {:induction false} TimelyTimes(events: seq<Event>, from: real, key: Key)
    requires Timely(events, from)
    ensures Within(FailTimes(events, key), End(events, from))
    decreases events
  {
    if events != [] {
      TimelyPrefix(events, from);
      TimelyTimes(events[..|events| - 1], from, key);
    }
  }

  // Failures never cleared and all inside the window of the first are one episode.
  lemma {:induction false} OneWindowIsOneEpisode(p: Policy, events: seq<Event>, from: real, key: Key)
    requires Timely(events, from) && NeverCleared(events, key)
    requires var times := FailTimes(events, key);
      times != [] ==> times[|times| - 1] - times[0] <= p.window as real
    ensures Episode(p, events, key) == FailTimes(events, key)
    decreases events
  {
    if events != [] {
      var before, times := FailTimes(events[..|events| - 1], key), FailTimes(events, key);
      TimelyPrefix(events, from);
      TimelyTimes(events, from, key);
      assert before != [] ==> before[0] == times[0] && before[|before| - 1] <= times[|times| - 1] by {
        assert forall i :: 0 <= i < |before| ==> before[i] == times[i];
      }
      OneWindowIsOneEpisode(p, events[..|events| - 1], from, key);
    }
  }

  // With a threshold of one the first failure still locks nothing: a new record starts without a
  // deadline, and the curve is entered at its second step.
  lemma ThresholdOneSparesTheFirst(key: Key)
    ensures var p, one := Policy(300, 1, 30), [Fail(key, 10.0)];
      && p.Good()
      && Ahead(Look(Run(p, map[], one), key), 10.0) == None
      && Ahead(Look(Run(p, map[], one + [Fail(key, 20.0)]), key), 20.0) == Some(80.0)
  {
    var p, one, both := Policy(300, 1, 30), [Fail(key, 10.0)], [Fail(key, 10.0), Fail(key, 20.0)];
    assert one + [Fail(key, 20.0)] == both;
    assert Episode(p, one[..0], key) == [];
    assert both[..1] == one;
    assert Episode(p, both, key) == [10.0, 20.0];
    LockCurve(p, map[], one, 0.0, key, 10.0);
    LockCurve(p, map[], both, 0.0, key, 20.0);
    assert Pow2(1) == 2;
  }

  // --------------------------------------------------------- no lock is longer

  // Over every run from an empty tracker, whatever is mixed in: a record exists only for a key
  // that failed, and no deadline lies more than an hour past that key's last failure.
  lemma {:induction false} DeadlineBound(p: Policy, events: seq<Event>, from: real, key: Key)
    requires p.Good() && Timely(events, from) && key in Run(p, map[], events)
    ensures FailTimes(events, key) != []
    ensures var times := FailTimes(events, key);
      Run(p, map[], events)[key].lockedUntil <= times[|times| - 1] + LOCK_CAP as real
    decreases events
  {
    if events != [] {
      var init := events[..|events| - 1];
      RunLast(p, map[], events);
      TimelyPrefix(events, from);
      TimelyTimes(init, from, key);
      if key in Run(p, map[], init) {
        DeadlineBound(p, init, from, key);
      }
    }
  }

  // ------------------------------------------------------ password challenges

  // HMAC-SHA256 and `bytes.fromhex`, uninterpreted.
  datatype Crypto = Crypto(hmac: (Bytes, Bytes) -> Bytes, fromHex: string -> Option<Bytes>)

  datatype Challenge = Challenge(nonce: Bytes, expiresAt: real, pwHex: string)

  datatype State = State(tracker: Tracker, challenges: map<string, Challenge>)

  // The three clock readings of one verification, in the order they are taken.
  datatype Clock = Clock(asked: real, checked: real, failed: real)

  datatype User = User(name: string, passwordHash: Option<string>)

  function HashOf(users: seq<User>, username: string): Option<string> {
    if users == [] then None
    else if users[0].name == username then users[0].passwordHash
    else HashOf(users[1..], username)
  }

  function Started(s: State, users: seq<User>, username: string, nonce: Bytes, now: real): State {
    var hash := HashOf(users, username);
    if hash.None? || hash.value == "" then s
    else s.(challenges := s.challenges[username := Challenge(nonce, now + CHALLENGE_SECONDS as real, hash.value)])
  }

  // The pending challenge is met: it is alive and the response is its HMAC under the user's key.
  predicate Meets(c: Crypto, ch: Challenge, response: Option<Bytes>, now: real) {
    && now <= ch.expiresAt
    && response.Some?
    && ch.pwHex != ""
    && c.fromHex(ch.pwHex).Some?
    && c.hmac(c.fromHex(ch.pwHex).value, ch.nonce) == response.value
  }

  predicate Accepts(c: Crypto, s: State, key: Key, response: Option<Bytes>, clock: Clock) {
    && !LockedAt(Look(s.tracker, key), clock.asked)
    && key.username in s.challenges
    && Meets(c, s.challenges[key.username], response, clock.checked)
  }

  function Verified(p: Policy, c: Crypto, s: State, key: Key, response: Option<Bytes>, clock: Clock): State
    requires p.Good()
  {
    if LockedAt(Look(s.tracker, key), clock.asked) then s
    else
      State(
        if Accepts(c, s, key, response, clock) then Store(s.tracker, key, None)
        else Store(s.tracker, key, Failed(p, Asked(p, Look(s.tracker, key), clock.asked), clock.failed)),
        s.challenges - {key.username})
  }

  // Attempts against a locked key, right or wrong, are refused and leave every record and every
  // challenge as they were, until the deadline.
  lemma {:induction false} LockedKeyIsInert(p: Policy, c: Crypto, s: State, key: Key,
                                           tries: seq<(Option<Bytes>, Clock)>)
    requires p.Good() && key in s.tracker
    requires forall i :: 0 <= i < |tries| ==> tries[i].1.asked < s.tracker[key].lockedUntil
    ensures AfterTries(p, c, s, key, tries) == s
    ensures AcceptedTries(p, c, s, key, tries) == 0
    decreases tries
  {
    if tries != [] {
      LockedKeyIsInert(p, c, s, key, tries[1..]);
    }
  }

  function AfterTries(p: Policy, c: Crypto, s: State, key: Key, tries: seq<(Option<Bytes>, Clock)>): State
    requires p.Good()
    decreases tries
  {
    if tries == [] then s
    else AfterTries(p, c, Verified(p, c, s, key, tries[0].0, tries[0].1), key, tries[1..])
  }

  function AcceptedTries(p: Policy, c: Crypto, s: State, key: Key, tries: seq<(Option<Bytes>, Clock)>): nat
    requires p.Good()
    decreases tries
  {
    if tries == [] then 0
    else
      (if Accepts(c, s, key, tries[0].0, tries[0].1) then 1 else 0)
      + AcceptedTries(p, c, Verified(p, c, s, key, tries[0].0, tries[0].1), key, tries[1..])
  }

  datatype Move =
    | Start(username: string, nonce: Bytes, at: real)
    | Verify(username: string, srcIp: Option<string>, response: Option<Bytes>, clock: Clock)
    | Track(event: Event)

  function Moved(p: Policy, c: Crypto, users: seq<User>, s: State, m: Move): State
    requires p.Good()
  {
    match m
    case Start(username, nonce, at) => Started(s, users, username, nonce, at)
    case Verify(username, srcIp, response, clock) => Verified(p, c, s, KeyOf(username, srcIp), response, clock)
    case Track(e) => s.(tracker := Apply(p, s.tracker, e))
  }

  function Starts(moves: seq<Move>, username: string): nat {
    if moves == [] then 0
    else (if moves[0].Start? && moves[0].username == username then 1 else 0) + Starts(moves[1..], username)
  }

  function Logins(p: Policy, c: Crypto, users: seq<User>, s: State, moves: seq<Move>, username: string): nat
    requires p.Good()
    decreases moves
  {
    if moves == [] then 0
    else
      var m := moves[0];
      (if m.Verify? && m.username == username && Accepts(c, s, KeyOf(username, m.srcIp), m.response, m.clock)
       then 1 else 0)
      + Logins(p, c, users, Moved(p, c, users, s, m), moves[1..], username)
  }

  function AfterMoves(p: Policy, c: Crypto, users: seq<User>, s: State, moves: seq<Move>): State
    requires p.Good()
    decreases moves
  {
    if moves == [] then s else AfterMoves(p, c, users, Moved(p, c, users, s, moves[0]), moves[1..])
  }

  predicate Attempts(m: Move, key: Key) { m.Verify? && KeyOf(m.username, m.srcIp) == key }

  // Accepted attempts on one key.
  function KeyLogins(p: Policy, c: Crypto, users: seq<User>, s: State, moves: seq<Move>, key: Key): nat
    requires p.Good()
    decreases moves
  {
    if moves == [] then 0
    else
      var m := moves[0];
      (if Attempts(m, key) && Accepts(c, s, key, m.response, m.clock) then 1 else 0)
      + KeyLogins(p, c, users, Moved(p, c, users, s, m), moves[1..], key)
  }

  // What other login paths do to this key before the deadline: they may ask, not clear or count.
  predicate Before(m: Move, key: Key, deadline: real) {
    && (Attempts(m, key) ==> m.clock.asked < deadline)
    && (m.Track? && m.event.key == key ==> m.event.Ask? && m.event.at < deadline)
  }

  // The same with anything interleaved: until the deadline, while challenges start, other keys fail,
  // clear and log in, and this key is asked about and tried with right and wrong responses, no
  // attempt on it is accepted and its record does not move.
  lemma {:induction false} LockedKeyStaysInert(p: Policy, c: Crypto, users: seq<User>, s: State, moves: seq<Move>,
                                              key: Key)
    requires p.Good() && key in s.tracker
    requires forall i :: 0 <= i < |moves| ==> Before(moves[i], key, s.tracker[key].lockedUntil)
    ensures Look(AfterMoves(p, c, users, s, moves).tracker, key) == Some(s.tracker[key])
    ensures KeyLogins(p, c, users, s, moves, key) == 0
    decreases moves
  {
    if moves != [] {
      assert Before(moves[0], key, s.tracker[key].lockedUntil);
      var next := Moved(p, c, users, s, moves[0]);
      assert Look(next.tracker, key) == Look(s.tracker, key);
      LockedKeyStaysInert(p, c, users, next, moves[1..], key);
    }
  }

  // Challenges are single-use: over any run, from any addresses, a user is accepted at most once
  // per challenge started for that user, so no response can be replayed.
  lemma {:induction false} NoReplay(p: Policy, c: Crypto, users: seq<User>, s: State, moves: seq<Move>,
                                   username: string)
    requires p.Good()
    ensures Logins(p, c, users, s, moves, username) <=
      Starts(moves, username) + (if username in s.challenges then 1 else 0)
    decreases moves
  {
    if moves != [] {
      NoReplay(p, c, users, Moved(p, c, users, s, moves[0]), moves[1..], username);
    }
  }

  // Right after a challenge was started for a user with a password hash, a response is accepted
  // if and only if the key is not locked, it comes within 30 seconds, and it is the HMAC of that
  // very nonce under the hash.
  lemma FreshChallengeVerdict(c: Crypto, s: State, users: seq<User>, username: string, srcIp: Option<string>,
                              nonce: Bytes, at: real, response: Bytes, clock: Clock)
    requires HashOf(users, username).Some? && HashOf(users, username).value != ""
    ensures var key, hash := KeyOf(username, srcIp), c.fromHex(HashOf(users, username).value);
      Accepts(c, Started(s, users, username, nonce, at), key, Some(response), clock) <==>
      && !LockedAt(Look(s.tracker, key), clock.asked)
      && clock.checked - at <= 30.0
      && hash.Some? && c.hmac(hash.value, nonce) == response
  {
  }

  // A user without a usable password hash is never accepted unless a challenge was already pending.
  lemma {:induction false} NoHashNoLogin(p: Policy, c: Crypto, users: seq<User>, s: State, moves: seq<Move>,
                                        username: string)
    requires p.Good() && username !in s.challenges
    requires HashOf(users, username) == None || HashOf(users, username) == Some("")
    ensures Logins(p, c, users, s, moves, username) == 0
    decreases moves
  {
    if moves != [] {
      NoHashNoLogin(p, c, users, Moved(p, c, users, s, moves[0]), moves[1..], username);
    }
  }

  // ------------------------------------------------------- the auth manager

  class AuthManager {
    const crypto: Crypto
    const policy: Policy
    const users: seq<User>
    var failTracker: Tracker
    var challenges: map<string, Challenge>

    constructor (crypto: Crypto, policy: Policy, users: seq<User>)
      ensures this.crypto == crypto && this.policy == policy && this.users == users
      ensures Now() == State(map[], map[])
    {
      this.crypto, this.policy, this.users := crypto, policy, users;
      failTracker, challenges := map[], map[];
    }

    ghost function Now(): State
      reads this
    {
      State(failTracker, challenges)
    }

    method GetPasswordHash(username: string) returns (hash: Option<string>)
      ensures hash == HashOf(users, username)
    {
      var i := 0;
      while i < |users|
        invariant 0 <= i <= |users|
        invariant HashOf(users, username) == HashOf(users[i..], username)
      {
        assert users[i..][1..] == users[i + 1..];
        if users[i].name == username {
          return users[i].passwordHash;
        }
        i := i + 1;
      }
      hash := None;
    }

    method StartPasswordChallenge(username: string, nonce: Bytes, now: real) returns (sent: Option<Bytes>)
      modifies this
      ensures Now() == Started(old(Now()), users, username, nonce, now)
      ensures sent == if HashOf(users, username) in {None, Some("")} then None else Some(nonce)
    {
      var hash := GetPasswordHash(username);
      if hash.None? || hash.value == "" {
        return None;
      }
      challenges := challenges[username := Challenge(nonce, now + CHALLENGE_SECONDS as real, hash.value)];
      sent := Some(nonce);
    }

    method RegisterFailure(username: string, srcIp: Option<string>, now: real)
      requires policy.Good()
      modifies this`failTracker
      ensures failTracker == Apply(policy, old(failTracker), Fail(KeyOf(username, srcIp), now))
    {
      var key := KeyOf(username, srcIp);
      if key !in failTracker {
        failTracker := failTracker[key := Record(1, now, 0.0)];
        return;
      }
      var rec := failTracker[key];
      if now - rec.first > policy.window as real {
        failTracker := failTracker[key := Record(1, now, 0.0)];
        return;
      }
      rec := rec.(failures := rec.failures + 1);
      if rec.failures >= policy.threshold {
        var exponent := rec.failures - policy.threshold;
        var lockSeconds := Min(policy.base * Pow2(exponent), LOCK_CAP);
        rec := rec.(lockedUntil := Max(rec.lockedUntil, now + lockSeconds as real));
      }
      failTracker := failTracker[key := rec];
    }

    method ClearFailures(username: string, srcIp: Option<string>)
      modifies this`failTracker
      ensures failTracker == Store(old(failTracker), KeyOf(username, srcIp), None)
    {
      var key := KeyOf(username, srcIp);
      if key in failTracker {
        failTracker := failTracker - {key};
      }
      assert old(failTracker) - {key} == failTracker;
    }

    method IsUserLocked(username: string, srcIp: Option<string>, now: real) returns (locked: bool)
      requires policy.Good()
      modifies this`failTracker
      ensures locked == LockedAt(Look(old(failTracker), KeyOf(username, srcIp)), now)
      ensures failTracker == Apply(policy, old(failTracker), Ask(KeyOf(username, srcIp), now))
      ensures locked ==> failTracker == old(failTracker)
    {
      var key := KeyOf(username, srcIp);
      if key !in failTracker {
        assert failTracker - {key} == failTracker;
        return false;
      }
      var rec := failTracker[key];
      if rec.lockedUntil > now {
        assert failTracker[key := rec] == failTracker;
        return true;
      }
      if rec.lockedUntil != 0.0 {
        rec := rec.(lockedUntil := 0.0);
        failTracker := failTracker[key := rec];
      }
      assert failTracker == old(failTracker)[key := rec];
      if now - rec.first > policy.window as real {
        failTracker := failTracker - {key};
        assert failTracker == old(failTracker) - {key};
      }
      locked := false;
    }

    method VerifyPasswordHmac(username: string, response: Option<Bytes>, srcIp: Option<string>, clock: Clock)
      returns (ok: bool)
      requires policy.Good()
      modifies this
      ensures ok == Accepts(crypto, old(Now()), KeyOf(username, srcIp), response, clock)
      ensures Now() == Verified(policy, crypto, old(Now()), KeyOf(username, srcIp), response, clock)
    {
      var locked := IsUserLocked(username, srcIp, clock.asked);
      if locked {
        return false;
      }
      ghost var key := KeyOf(username, srcIp);
      ghost var asked := failTracker;
      if username !in challenges {
        assert challenges - {username} == challenges;
        RegisterFailure(username, srcIp, clock.failed);
        StoreTwice(old(failTracker), key, Look(asked, key), Look(failTracker, key));
        return false;
      }
      var entry := challenges[username];
      challenges := challenges - {username};
      ok := clock.checked <= entry.expiresAt && response.Some? && entry.pwHex != "";
      if ok {
        var keyBytes := crypto.fromHex(entry.pwHex);
        ok := keyBytes.Some? && crypto.hmac(keyBytes.value, entry.nonce) == response.value;
      }
      if ok {
        ClearFailures(username, srcIp);
      } else {
        RegisterFailure(username, srcIp, clock.failed);
      }
      StoreTwice(old(failTracker), key, Look(asked, key), Look(failTracker, key));
    }
  }

  lemma StoreTwice(t: Tracker, key: Key, first: Slot, second: Slot)
    ensures Store(Store(t, key, first), key, second) == Store(t, key, second)
  {
    assert (t - {key}) - {key} == t - {key};
    if first.Some? {
      assert t[key := first.value] - {key} == t - {key};
    }
    if second.Some? {
      assert (t - {key})[key := second.value] == t[key := second.value];
    }
  }
}
