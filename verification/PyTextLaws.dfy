/** What `PyText` reads, said without the reading loops: which characters `strip` trims, which strings
    are numerals, and what `lower` changes. */
module PyTextLaws {
  import opened Prelude
  import opened PyText

  // The ASCII characters that `str.isspace` accepts.
  predicate IsPad(c: char) {
    var n := c as int;
    9 <= n <= 13 || 28 <= n <= 32
  }

  predicate Pads(s: string) { forall i :: 0 <= i < |s| ==> IsPad(s[i]) }

  predicate Trimmed(s: string) { s != "" ==> !IsPad(s[0]) && !IsPad(s[|s| - 1]) }

  lemma {:induction false} LeftPadsGo(left: string, s: string)
    requires Pads(left)
    ensures StripLeft(left + s) == StripLeft(s)
    decreases left
  {
    if left == "" {
      assert left + s == s;
    } else {
      assert (left + s)[1..] == left[1..] + s;
      LeftPadsGo(left[1..], s);
    }
  }

  lemma {:induction false} RightPadsGo(s: string, right: string)
    requires Pads(right)
    ensures StripRight(s + right) == StripRight(s)
    decreases right
  {
    if right == "" {
      assert s + right == s;
    } else {
      assert (s + right)[..|s + right| - 1] == s + right[..|right| - 1];
      RightPadsGo(s, right[..|right| - 1]);
    }
  }

  // Whatever pads surround it, a trimmed text is what `strip` leaves.
  lemma StripLeavesTheCore(left: string, core: string, right: string)
    requires Pads(left) && Trimmed(core) && Pads(right)
    ensures Strip(left + core + right) == core
  {
    assert left + core + right == left + (core + right);
    LeftPadsGo(left, core + right);
    if core == "" {
      assert core + right == right;
      LeftPadsGo(right, "");
      assert right + "" == right;
    } else {
      assert StripLeft(core + right) == core + right;
      RightPadsGo(core, right);
    }
  }

  // Lower case moves the letters A to Z by 32 and nothing else.
  lemma LowerMovesCapitals(s: string)
    ensures |Lower(s)| == |s|
    ensures forall i :: 0 <= i < |s| ==>
      Lower(s)[i] as int == if 65 <= s[i] as int <= 90 then s[i] as int + 32 else s[i] as int
  {
  }

  // ---------------------------------------------------------------- numerals

  // Runs of digits joined by single underscores.
  function Joined(groups: seq<string>): string {
    if groups == [] then ""
    else if |groups| == 1 then groups[0]
    else Joined(groups[..|groups| - 1]) + "_" + groups[|groups| - 1]
  }

  predicate DigitGroups(groups: seq<string>) {
    groups != [] && forall i :: 0 <= i < |groups| ==> groups[i] != "" && AllDigits(groups[i])
  }

  lemma JoinedEnds(groups: seq<string>)
    requires DigitGroups(groups)
    ensures Joined(groups) != "" && IsDigit(Joined(groups)[|Joined(groups)| - 1])
    ensures IsDigit(Joined(groups)[0])
  {
    var last := groups[|groups| - 1];
    assert IsDigit(last[|last| - 1]);
    if |groups| > 1 {
      JoinedEnds(groups[..|groups| - 1]);
    }
  }

  // The text is read as the value of these digits.
  predicate ReadsAs(s: string, digits: string) {
    s != "" && IsDigit(s[|s| - 1]) && AllDigits(digits) && Numeral(s) == Some(DigitsValue(digits))
  }

  lemma DigitIsRead(d: char)
    requires IsDigit(d)
    ensures ReadsAs([d], [d])
  {
    assert [d][..0] == "";
  }

  lemma DigitsStep(head: string, d: char)
    requires AllDigits(head) && IsDigit(d)
    ensures AllDigits(head + [d]) && DigitsValue(head + [d]) == 10 * DigitsValue(head) + DigitValue(d)
  {
    assert (head + [d])[..|head|] == head;
  }

  lemma GrownNumeral(s: string, before: string, d: char, v: nat)
    requires s != "" && before == s[..|s| - 1] && d == s[|s| - 1] && IsDigit(d)
    requires before != "" && before[|before| - 1] != '_' && Numeral(before) == Some(v)
    ensures Numeral(s) == Some(10 * v + DigitValue(d))
  {
  }

  lemma JoinedNumeral(s: string, joint: string, before: string, d: char, v: nat)
    requires s != "" && joint == s[..|s| - 1] && d == s[|s| - 1] && IsDigit(d)
    requires joint != "" && joint[|joint| - 1] == '_' && before == joint[..|joint| - 1] && Numeral(before) == Some(v)
    ensures Numeral(s) == Some(10 * v + DigitValue(d))
  {
  }

  // One more digit, at once or behind an underscore.
  lemma OneMoreDigit(s: string, digits: string, d: char)
    requires ReadsAs(s, digits) && IsDigit(d)
    ensures ReadsAs(s + [d], digits + [d])
  {
    var longer := s + [d];
    assert longer[|longer| - 1] == d && longer[..|longer| - 1] == s;
    GrownNumeral(longer, s, d, DigitsValue(digits));
    DigitsStep(digits, d);
  }

  lemma OneMoreRun(s: string, digits: string, d: char)
    requires ReadsAs(s, digits) && IsDigit(d)
    ensures ReadsAs(s + "_" + [d], digits + [d])
  {
    var joint, longer := s + "_", s + "_" + [d];
    assert longer[|longer| - 1] == d && longer[..|longer| - 1] == joint && joint[..|joint| - 1] == s;
    JoinedNumeral(longer, joint, s, d, DigitsValue(digits));
    DigitsStep(digits, d);
  }

  lemma ConcatLast(groups: seq<string>)
    requires groups != []
    ensures Concat(groups) == Concat(groups[..|groups| - 1]) + groups[|groups| - 1]
  {
    var init, last := groups[..|groups| - 1], groups[|groups| - 1];
    assert groups == init + [last];
    ConcatSplit(init, [last]);
    assert [last][1..] == [];
    assert Concat([last]) == last + Concat([last][1..]);
  }

  // Groups whose last one is one digit shorter.
  lemma ShorterGroup(groups: seq<string>, init: string, d: char)
    requires groups != [] && groups[|groups| - 1] == init + [d]
    ensures var shorter := groups[|groups| - 1 := init];
      Joined(groups) == Joined(shorter) + [d] && Concat(groups) == Concat(shorter) + [d]
  {
    var k := |groups| - 1;
    var shorter := groups[k := init];
    assert shorter[..k] == groups[..k];
    ConcatLast(groups);
    ConcatLast(shorter);
    Regroup(Concat(groups[..k]), init, [d]);
    if k > 0 {
      Regroup(Joined(groups[..k]) + "_", init, [d]);
    }
  }

  // One group fewer, whose last one is a single digit.
  lemma FewerGroups(groups: seq<string>, d: char)
    requires |groups| > 1 && groups[|groups| - 1] == [d]
    ensures var fewer := groups[..|groups| - 1];
      Joined(groups) == Joined(fewer) + "_" + [d] && Concat(groups) == Concat(fewer) + [d]
  {
    ConcatLast(groups);
  }

  lemma OneGroup(digit: string)
    ensures Joined([digit]) == digit && Concat([digit]) == digit
  {
    ConcatLast([digit]);
    assert [digit][..0] == [];
  }

  // A numeral is runs of digits joined by single underscores, and its value is that of the digits.
  lemma {:induction false} NumeralIsRead(groups: seq<string>)
    requires DigitGroups(groups)
    ensures ReadsAs(Joined(groups), Concat(groups))
    decreases |groups|, |groups[|groups| - 1]|
  {
    var k := |groups| - 1;
    var init, d := groups[k][..|groups[k]| - 1], groups[k][|groups[k]| - 1];
    assert groups[k] == init + [d];
    if init != "" {
      var shorter := groups[k := init];
      NumeralIsRead(shorter);
      ShorterGroup(groups, init, d);
      OneMoreDigit(Joined(shorter), Concat(shorter), d);
    } else if k > 0 {
      NumeralIsRead(groups[..k]);
      FewerGroups(groups, d);
      OneMoreRun(Joined(groups[..k]), Concat(groups[..k]), d);
    } else {
      assert groups == [[d]];
      OneGroup([d]);
      DigitIsRead(d);
    }
  }

  lemma GroupsGrow(groups: seq<string>, d: char)
    requires DigitGroups(groups) && IsDigit(d)
    ensures var k := |groups| - 1;
      var longer := groups[k := groups[k] + [d]];
      DigitGroups(longer) && Joined(longer) == Joined(groups) + [d]
  {
    var k := |groups| - 1;
    var longer := groups[k := groups[k] + [d]];
    ShorterGroup(longer, groups[k], d);
    assert longer[k := groups[k]] == groups;
  }

  lemma GroupsAdd(groups: seq<string>, d: char)
    requires DigitGroups(groups) && IsDigit(d)
    ensures DigitGroups(groups + [[d]]) && Joined(groups + [[d]]) == Joined(groups) + "_" + [d]
  {
    FewerGroups(groups + [[d]], d);
    assert (groups + [[d]])[..|groups|] == groups;
  }

  // What a numeral ends in, and what is a numeral before that.
  lemma NumeralEnds(s: string, init: string)
    requires Numeral(s).Some? && s != "" && init == s[..|s| - 1]
    ensures IsDigit(s[|s| - 1])
    ensures init != "" ==> Numeral(if init[|init| - 1] == '_' then init[..|init| - 1] else init).Some?
  {
  }

  lemma LastOf(s: string)
    requires s != ""
    ensures s == s[..|s| - 1] + [s[|s| - 1]]
  {
  }

  lemma LastTwoOf(s: string, head: string)
    requires |s| >= 2 && s[|s| - 2] == '_' && head == s[..|s| - 1][..|s| - 2]
    ensures s == head + "_" + [s[|s| - 1]]
  {
  }

  // Nothing else is one.
  lemma {:induction false} OnlyNumeralsAreRead(s: string) returns (groups: seq<string>)
    requires Numeral(s).Some?
    ensures DigitGroups(groups) && s == Joined(groups)
    decreases |s|
  {
    var init, d := s[..|s| - 1], s[|s| - 1];
    NumeralEnds(s, init);
    LastOf(s);
    if init == "" {
      groups := [[d]];
      OneGroup([d]);
    } else if init[|init| - 1] == '_' {
      var head := init[..|init| - 1];
      var before := OnlyNumeralsAreRead(head);
      groups := before + [[d]];
      GroupsAdd(before, d);
      LastTwoOf(s, head);
    } else {
      var before := OnlyNumeralsAreRead(init);
      groups := before[|before| - 1 := before[|before| - 1] + [d]];
      GroupsGrow(before, d);
    }
  }

  // The sign that may stand before a numeral.
  datatype Sign = Bare | Plus | Minus

  function Written(sign: Sign): string {
    match sign
    case Bare => ""
    case Plus => "+"
    case Minus => "-"
  }

  function Signed(sign: Sign, n: nat): int { if sign.Minus? then 0 - n else n }

  // `int` reads padded, signed numerals.
  lemma IntIsRead(left: string, sign: Sign, groups: seq<string>, right: string)
    requires Pads(left) && DigitGroups(groups) && Pads(right)
    ensures AllDigits(Concat(groups))
    ensures PyInt(left + (Written(sign) + Joined(groups)) + right) == Some(Signed(sign, DigitsValue(Concat(groups))))
  {
    NumeralIsRead(groups);
    JoinedEnds(groups);
    var core := Written(sign) + Joined(groups);
    assert core[|core| - 1] == Joined(groups)[|Joined(groups)| - 1];
    assert sign.Bare? ==> core == Joined(groups);
    assert !sign.Bare? ==> core[1..] == Joined(groups);
    StripLeavesTheCore(left, core, right);
  }

  // Nothing else is read as a number.
  lemma OnlyIntsAreRead(core: string) returns (sign: Sign, groups: seq<string>)
    requires Trimmed(core) && PyInt(core).Some?
    ensures DigitGroups(groups) && core == Written(sign) + Joined(groups)
  {
    StripsToItself(core);
    sign := if core != "" && core[0] == '-' then Minus else if core != "" && core[0] == '+' then Plus else Bare;
    groups := OnlyNumeralsAreRead(if sign.Bare? then core else core[1..]);
  }

  lemma StripsToItself(core: string)
    requires Trimmed(core)
    ensures Strip(core) == core
  {
    StripLeavesTheCore("", core, "");
    assert "" + core + "" == core;
  }

  // Numbers are written without leading zeros.
  lemma {:induction false} DecimalIsCanonical(n: nat)
    ensures Decimal(n) != "" && AllDigits(Decimal(n)) && DigitsValue(Decimal(n)) == n
    ensures n > 0 ==> Decimal(n)[0] != '0'
    ensures n == 0 ==> Decimal(n) == "0"
  {
    DecimalIsDigits(n);
    if n >= 10 {
      DecimalIsCanonical(n / 10);
    }
  }

  // The value of a run of digits: the last one counts once, all before it tenfold.
  lemma DigitsCountTens(head: string, d: char)
    requires AllDigits(head) && 48 <= d as int <= 57
    ensures AllDigits(head + [d])
    ensures DigitsValue(head + [d]) == 10 * DigitsValue(head) + (d as int - 48)
    ensures DigitsValue("") == 0
  {
    DigitsStep(head, d);
  }
}
