/** What a listener session reads in its client's bytes: which of them go to the port, which are
    commands, and which are never passed on. The cases below cover every stream. */
module EscapeMeaning {
  import opened Prelude
  import opened EscapeScanner

  // `e`, `f`, `p` and `.` on the wire.
  const E_BYTE: byte := 101
  const ENDING: set<byte> := {46, 102, 112}

  lemma FirstByte(e: Escape, b: byte, rest: Bytes)
    ensures Scan(e, [b] + rest) ==
      match Feed(e, b).command
      case None => Scan(Feed(e, b).escape, rest).After(Forwards(Feed(e, b).extra))
      case Some(c) => ScanCommand(Feed(e, b).escape, c, rest)
  {
    assert ([b] + rest)[1..] == rest;
  }

  lemma AfterForwards(a: Bytes, b: Bytes, t: Trace)
    ensures t.After(Forwards(b)).After(Forwards(a)) == t.After(Forwards(a + b))
    ensures t.After(Forwards([])) == t
  {
    ForwardsSplit(a, b);
    Regroup(Forwards(a), Forwards(b), t.events);
  }

  // Bytes other than the first of the pair go to the port as they come.
  lemma {:induction false} PlainIsForwarded(e: Escape, plain: Bytes, rest: Bytes)
    requires e.state == 0 && e.char1 !in plain
    ensures Scan(e, plain + rest) == Scan(e, rest).After(Forwards(plain))
    decreases plain
  {
    if plain == [] {
      assert plain + rest == rest;
      AfterForwards([], [], Scan(e, rest));
    } else {
      assert plain + rest == [plain[0]] + (plain[1..] + rest);
      FirstByte(e, plain[0], plain[1..] + rest);
      PlainIsForwarded(e, plain[1..], rest);
      AfterForwards([plain[0]], plain[1..], Scan(e, rest));
      assert [plain[0]] + plain[1..] == plain;
      assert Forwards([plain[0]]) == [Forward(plain[0])];
    }
  }

  // The pair is absorbed: what follows it is a command.
  lemma PairIsAbsorbed(e: Escape, rest: Bytes)
    requires e.state == 0
    ensures Scan(e, [e.char1, e.char2] + rest) == Scan(e.(state := 2), rest)
  {
    var one := e.(state := 1);
    assert [e.char1, e.char2] + rest == [e.char1] + ([e.char2] + rest);
    FirstByte(e, e.char1, [e.char2] + rest);
    FirstByte(one, e.char2, rest);
    AfterForwards([], [], Scan(e.(state := 2), rest));
    AfterForwards([], [], Scan(one, [e.char2] + rest));
  }

  lemma CommandFollows(e: Escape, c: byte, rest: Bytes)
    requires e.state == 0
    ensures Scan(e, [e.char1, e.char2, c] + rest) == ScanCommand(e, c, rest)
  {
    assert [e.char1, e.char2, c] + rest == [e.char1, e.char2] + ([c] + rest);
    PairIsAbsorbed(e, [c] + rest);
    FirstByte(e.(state := 2), c, rest);
  }

  // Plain bytes, the pair and a command byte: the bytes go to the port, the command is run, and the scan
  // goes on behind it, or stops there for `.`, `f` and `p`.
  lemma PairIsCommand(e: Escape, plain: Bytes, c: byte, rest: Bytes)
    requires e.state == 0 && e.char1 !in plain && c != E_BYTE
    ensures var t := Scan(e, plain + ([e.char1, e.char2, c] + rest));
      if c in ENDING then t == Trace(Forwards(plain) + [Command(c)], e, rest, [])
      else t == Scan(e, rest).After(Forwards(plain) + [Command(c)])
  {
    PlainIsForwarded(e, plain, [e.char1, e.char2, c] + rest);
    CommandFollows(e, c, rest);
    Regroup(Forwards(plain), [Command(c)], Scan(e, rest).events);
  }

  // `e` takes the two bytes behind it as the new pair, under which the scan goes on.
  lemma PairIsRebound(e: Escape, plain: Bytes, a: byte, b: byte, rest: Bytes)
    requires e.state == 0 && e.char1 !in plain
    ensures Scan(e, plain + ([e.char1, e.char2, E_BYTE, a, b] + rest)) ==
      Scan(Escape(a, b, 0), rest).After(Forwards(plain) + [Rebind(a, b)])
  {
    var args := [a, b] + rest;
    assert [e.char1, e.char2, E_BYTE, a, b] + rest == [e.char1, e.char2, E_BYTE] + args;
    assert args[2..] == rest && args[0] == a && args[1] == b;
    PlainIsForwarded(e, plain, [e.char1, e.char2, E_BYTE] + args);
    CommandFollows(e, E_BYTE, args);
    Regroup(Forwards(plain), [Rebind(a, b)], Scan(Escape(a, b, 0), rest).events);
  }

  // An `e` that the stream ends behind changes nothing and sends nothing on.
  lemma CutRebindIsSwallowed(e: Escape, plain: Bytes, args: Bytes)
    requires e.state == 0 && e.char1 !in plain && |args| < 2
    ensures Scan(e, plain + ([e.char1, e.char2, E_BYTE] + args)) ==
      Trace(Forwards(plain), e, [], [e.char1, e.char2, E_BYTE] + args)
  {
    PlainIsForwarded(e, plain, [e.char1, e.char2, E_BYTE] + args);
    CommandFollows(e, E_BYTE, args);
  }

  // The first byte of the pair on its own is replayed with the byte that followed it.
  lemma LoneFirstByteIsReplayed(e: Escape, plain: Bytes, b: byte, rest: Bytes)
    requires e.state == 0 && e.char1 !in plain && b != e.char2
    ensures Scan(e, plain + ([e.char1, b] + rest)) == Scan(e, rest).After(Forwards(plain + [e.char1, b]))
  {
    assert [e.char1, b] + rest == [e.char1] + ([b] + rest);
    PlainIsForwarded(e, plain, [e.char1, b] + rest);
    FirstByte(e, e.char1, [b] + rest);
    FirstByte(e.(state := 1), b, rest);
    AfterForwards([], [], Scan(e.(state := 1), [b] + rest));
    AfterForwards(plain, [e.char1, b], Scan(e, rest));
  }

  // At the end of the stream an unfinished pair is held back.
  lemma UnfinishedPairIsHeld(e: Escape, plain: Bytes)
    requires e.state == 0 && e.char1 !in plain
    ensures Scan(e, plain) == Trace(Forwards(plain), e, [], [])
    ensures Scan(e, plain + [e.char1]) == Trace(Forwards(plain), e.(state := 1), [], [])
    ensures Scan(e, plain + [e.char1, e.char2]) == Trace(Forwards(plain), e.(state := 2), [], [])
  {
    PlainIsForwarded(e, plain, []);
    assert plain + [] == plain && [e.char1] + [] == [e.char1] && [e.char1, e.char2] + [] == [e.char1, e.char2];
    PlainIsForwarded(e, plain, [e.char1]);
    FirstByte(e, e.char1, []);
    AfterForwards([], [], Scan(e.(state := 1), []));
    PlainIsForwarded(e, plain, [e.char1, e.char2]);
    PairIsAbsorbed(e, []);
  }

  // So the pair is never handed to the port: whatever stands before and behind it, what the session does
  // after passing on the bytes before it, if anything, is not to pass on a byte.
  lemma PairIsNeverForwarded(e: Escape, plain: Bytes, rest: Bytes)
    requires e.state == 0 && e.char1 !in plain
    ensures var events := Scan(e, plain + ([e.char1, e.char2] + rest)).events;
      && |events| >= |plain| && events[..|plain|] == Forwards(plain)
      && (|events| > |plain| ==> !events[|plain|].Forward?)
  {
    ForwardsCount(plain);
    PlainIsForwarded(e, plain, [e.char1, e.char2] + rest);
    PairIsAbsorbed(e, rest);
    if rest != [] {
      var behind := rest[1..];
      assert rest == [rest[0]] + behind;
      FirstByte(e.(state := 2), rest[0], behind);
    }
  }

  lemma {:induction false} ForwardsCount(bytes: Bytes)
    ensures |Forwards(bytes)| == |bytes|
  {
    if bytes != [] {
      ForwardsCount(bytes[1..]);
    }
  }
}
