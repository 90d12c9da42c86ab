/** The natural sort key of `openmux/server/port_utils.py` on ASCII names, and Python's
    comparison of the lists it returns. */
module NaturalSort {
  import opened Prelude
  import opened PyText

  datatype Segment = Text(text: string) | Num(value: nat)

  // First position at or after `i` whose character is a digit, or is not one.
  function NextWhere(s: string, i: nat, digit: bool): (j: nat)
    requires i <= |s|
    ensures i <= j <= |s|
    ensures forall k :: i <= k < j ==> IsDigit(s[k]) != digit
    ensures j < |s| ==> IsDigit(s[j]) == digit
    decreases |s| - i
  {
    if i == |s| || IsDigit(s[i]) == digit then i else NextWhere(s, i + 1, digit)
  }

  // `re.split(r"(\d+)", s)`: text at even places, digit runs at odd ones.
  function Split(s: string): (parts: seq<string>)
    decreases |s|
  {
    var i := NextWhere(s, 0, true);
    if i == |s| then [s]
    else
      var j := NextWhere(s, i, false);
      [s[..i], s[i..j]] + Split(s[j..])
  }

  // `int(part) if part.isdigit() else part.lower()`.
  function SegmentOf(part: string): Segment {
    if part != "" && AllDigits(part) then Num(DigitsValue(part)) else Text(Lower(part))
  }

  function KeyOf(parts: seq<string>): (key: seq<Segment>) {
    seq(|parts|, i requires 0 <= i < |parts| => SegmentOf(parts[i]))
  }

  function Key(s: string): seq<Segment> { KeyOf(Split(s)) }

  datatype Order = Less | Equal | Greater | TypeError

  function Flip(o: Order): Order { if o == Less then Greater else if o == Greater then Less else o }

  function CompareInts(a: int, b: int): Order { if a < b then Less else if a == b then Equal else Greater }

  // `str` comparison: by code point, a prefix first.
  function CompareText(a: string, b: string): Order
    decreases a
  {
    if a == "" && b == "" then Equal
    else if a == "" then Less
    else if b == "" then Greater
    else if a[0] == b[0] then CompareText(a[1..], b[1..])
    else CompareInts(a[0] as int, b[0] as int)
  }

  // A number and a string have no order.
  function CompareSegments(a: Segment, b: Segment): Order {
    match (a, b)
    case (Text(x), Text(y)) => CompareText(x, y)
    case (Num(x), Num(y)) => CompareInts(x, y)
    case _ => TypeError
  }

  // `list` comparison: the first unequal items decide, a prefix comes first.
  function Compare(a: seq<Segment>, b: seq<Segment>): Order
    decreases a
  {
    if a == [] && b == [] then Equal
    else if a == [] then Less
    else if b == [] then Greater
    else if a[0] == b[0] then Compare(a[1..], b[1..])
    else CompareSegments(a[0], b[0])
  }

  // ----------------------------------------------------------- never a TypeError

  predicate Digits(part: string) { part != "" && AllDigits(part) }

  predicate NoDigits(part: string) { forall i :: 0 <= i < |part| ==> !IsDigit(part[i]) }

  // Digit runs, each as long as can be, between stretches of text.
  predicate WellCut(parts: seq<string>) {
    && |parts| % 2 == 1
    && (forall i :: 0 <= i < |parts| ==> if i % 2 == 1 then Digits(parts[i]) else NoDigits(parts[i]))
    && (forall i :: 0 < i < |parts| - 1 && i % 2 == 0 ==> parts[i] != "")
  }

  function Join(parts: seq<string>): string { Concat(parts) }

  lemma CutStep(text: string, digits: string, rest: seq<string>)
    requires NoDigits(text) && Digits(digits) && WellCut(rest) && (|rest| > 1 ==> rest[0] != "")
    ensures WellCut([text, digits] + rest)
  {
    var parts := [text, digits] + rest;
    forall i | 0 <= i < |parts| ensures if i % 2 == 1 then Digits(parts[i]) else NoDigits(parts[i]) {
      if i >= 2 {
        assert parts[i] == rest[i - 2];
      }
    }
    forall i | 0 < i < |parts| - 1 && i % 2 == 0 ensures parts[i] != "" {
      assert parts[i] == rest[i - 2];
    }
  }

  lemma {:induction false} SplitIsWellCut(s: string)
    ensures WellCut(Split(s))
    ensures s != "" && !IsDigit(s[0]) ==> Split(s)[0] != ""
    ensures s == "" ==> |Split(s)| == 1
    decreases |s|
  {
    var i := NextWhere(s, 0, true);
    if i < |s| {
      var j := NextWhere(s, i, false);
      SplitIsWellCut(s[j..]);
      CutStep(s[..i], s[i..j], Split(s[j..]));
    }
  }

  lemma {:induction false} JoinOfSplit(s: string)
    ensures Join(Split(s)) == s
    decreases |s|
  {
    var i := NextWhere(s, 0, true);
    if i < |s| {
      var j := NextWhere(s, i, false);
      JoinOfSplit(s[j..]);
      JoinStep(s[..i], s[i..j], Split(s[j..]));
      assert s == s[..i] + (s[i..j] + s[j..]);
    } else {
      JoinOne(s);
    }
  }

  lemma JoinOne(part: string)
    ensures Join([part]) == part
  {
    assert [part][1..] == [];
    assert Concat([part]) == part + Concat([part][1..]);
    assert Concat([part][1..]) == "";
  }

  lemma JoinStep(text: string, digits: string, rest: seq<string>)
    ensures Join([text, digits] + rest) == text + (digits + Join(rest))
  {
    assert ([digits] + rest)[1..] == rest;
    assert ([text, digits] + rest)[1..] == [digits] + rest;
    assert Concat([digits] + rest) == digits + Concat(rest);
  }

  lemma {:induction false} NextWhereIs(s: string, i: nat, j: nat, digit: bool)
    requires i <= j <= |s|
    requires forall k :: i <= k < j ==> IsDigit(s[k]) != digit
    requires j < |s| ==> IsDigit(s[j]) == digit
    ensures NextWhere(s, i, digit) == j
    decreases j - i
  {
    if i < j {
      NextWhereIs(s, i + 1, j, digit);
    }
  }

  lemma SplitStep(text: string, digits: string, rest: string)
    requires NoDigits(text) && Digits(digits) && (rest != "" ==> !IsDigit(rest[0]))
    ensures Split(text + (digits + rest)) == [text, digits] + Split(rest)
  {
    var s, i, j := text + (digits + rest), |text|, |text| + |digits|;
    NextWhereIs(s, 0, i, true);
    NextWhereIs(s, i, j, false);
    assert s[..i] == text && s[i..j] == digits && s[j..] == rest;
  }

  // There is only one way to cut a name into text and maximal digit runs.
  lemma {:induction false} SplitOfJoin(parts: seq<string>)
    requires WellCut(parts)
    ensures Split(Join(parts)) == parts
    decreases |parts|
  {
    if |parts| == 1 {
      assert parts == [parts[0]];
      JoinOne(parts[0]);
      NextWhereIs(parts[0], 0, |parts[0]|, true);
    } else {
      var rest := TailIsWellCut(parts);
      SplitOfJoin(rest);
      SplitStep(parts[0], parts[1], Join(rest));
      JoinStep(parts[0], parts[1], rest);
    }
  }

  lemma TailIsWellCut(parts: seq<string>) returns (rest: seq<string>)
    requires WellCut(parts) && |parts| > 1
    ensures |rest| < |parts| && WellCut(rest) && parts == [parts[0], parts[1]] + rest
    ensures NoDigits(parts[0]) && Digits(parts[1])
    ensures Join(rest) != "" ==> !IsDigit(Join(rest)[0])
  {
    rest := parts[2..];
    forall i | 0 <= i < |rest| ensures if i % 2 == 1 then Digits(rest[i]) else NoDigits(rest[i]) {
      assert rest[i] == parts[i + 2];
    }
    forall i | 0 < i < |rest| - 1 && i % 2 == 0 ensures rest[i] != "" {
      assert rest[i] == parts[i + 2];
    }
    assert Join(rest) == rest[0] + Join(rest[1..]);
    if |rest| == 1 {
      assert rest == [rest[0]];
      JoinOne(rest[0]);
    }
  }

  // Text at even places, numbers at odd ones.
  predicate Alternates(key: seq<Segment>, text: bool) {
    forall i :: 0 <= i < |key| ==> key[i].Text? == ((i % 2 == 0) == text)
  }

  lemma KeyAlternates(s: string)
    ensures Alternates(Key(s), true)
  {
    var parts := Split(s);
    SplitIsWellCut(s);
    forall i | 0 <= i < |parts| ensures KeyOf(parts)[i].Text? == (i % 2 == 0) {
      if i % 2 == 1 {
        assert Digits(parts[i]);
      } else if parts[i] != "" {
        assert !IsDigit(parts[i][0]);
      }
    }
  }

  lemma {:induction false} CompareTextOrders(a: string, b: string)
    ensures CompareText(a, b) != TypeError
    ensures CompareText(a, b) == Equal <==> a == b
    ensures CompareText(b, a) == Flip(CompareText(a, b))
    decreases a
  {
    if a != "" && b != "" && a[0] == b[0] {
      CompareTextOrders(a[1..], b[1..]);
      assert a == [a[0]] + a[1..] && b == [b[0]] + b[1..];
    }
  }

  lemma {:induction false} CompareOrders(a: seq<Segment>, b: seq<Segment>, text: bool)
    requires Alternates(a, text) && Alternates(b, text)
    ensures Compare(a, b) != TypeError
    ensures Compare(a, b) == Equal <==> a == b
    ensures Compare(b, a) == Flip(Compare(a, b))
    decreases a
  {
    if a != [] && b != [] {
      if a[0] == b[0] {
        CompareOrders(a[1..], b[1..], !text);
        assert a == [a[0]] + a[1..] && b == [b[0]] + b[1..];
      } else if text {
        CompareTextOrders(a[0].text, b[0].text);
      }
    }
  }

  predicate AtMost(o: Order) { o == Less || o == Equal }

  lemma {:induction false} CompareTextChains(a: string, b: string, c: string)
    requires AtMost(CompareText(a, b)) && AtMost(CompareText(b, c))
    ensures AtMost(CompareText(a, c))
    decreases a
  {
    if a != "" && b != "" && c != "" && a[0] == b[0] == c[0] {
      CompareTextChains(a[1..], b[1..], c[1..]);
    }
  }

  lemma SegmentsChain(a: Segment, b: Segment, c: Segment)
    requires AtMost(CompareSegments(a, b)) && AtMost(CompareSegments(b, c))
    ensures AtMost(CompareSegments(a, c))
    ensures a != b ==> a != c
  {
    if a.Text? {
      CompareTextChains(a.text, b.text, c.text);
      CompareTextOrders(a.text, b.text);
    }
  }

  lemma {:induction false} CompareChains(a: seq<Segment>, b: seq<Segment>, c: seq<Segment>)
    requires AtMost(Compare(a, b)) && AtMost(Compare(b, c))
    ensures AtMost(Compare(a, c))
    decreases a
  {
    if a != [] && b != [] && c != [] {
      if a[0] == b[0] == c[0] {
        CompareChains(a[1..], b[1..], c[1..]);
      } else if a[0] != b[0] && b[0] != c[0] {
        SegmentsChain(a[0], b[0], c[0]);
      }
    }
  }

  // Sorting names by their keys never fails and is a total preorder: names tie exactly when
  // their keys are equal.
  lemma NamesAreOrdered(a: string, b: string, c: string)
    ensures Compare(Key(a), Key(b)) != TypeError
    ensures Compare(Key(a), Key(b)) == Equal <==> Key(a) == Key(b)
    ensures Compare(Key(b), Key(a)) == Flip(Compare(Key(a), Key(b)))
    ensures AtMost(Compare(Key(a), Key(b))) && AtMost(Compare(Key(b), Key(c))) ==> AtMost(Compare(Key(a), Key(c)))
  {
    KeyAlternates(a);
    KeyAlternates(b);
    CompareOrders(Key(a), Key(b), true);
    if AtMost(Compare(Key(a), Key(b))) && AtMost(Compare(Key(b), Key(c))) {
      CompareChains(Key(a), Key(b), Key(c));
    }
  }

  // -------------------------------------------------------------- digit runs

  lemma {:induction false} CompareAtUpdate(key: seq<Segment>, m: nat, x: Segment)
    requires m < |key|
    ensures Compare(key, key[m := x]) == if key[m] == x then Equal else CompareSegments(key[m], x)
    decreases m
  {
    if key[m] == x {
      assert key[m := x] == key;
      CompareToItself(key);
    } else if m > 0 {
      assert key[m := x][1..] == key[1..][m - 1 := x];
      CompareAtUpdate(key[1..], m - 1, x);
    }
  }

  lemma {:induction false} CompareToItself(key: seq<Segment>)
    ensures Compare(key, key) == Equal
    decreases key
  {
    if key != [] {
      CompareToItself(key[1..]);
    }
  }

  // Names that differ in one maximal digit run only, wherever it is, sort by its numeric value.
  lemma RunsSortByValue(parts: seq<string>, m: nat, digits: string)
    requires WellCut(parts) && m < |parts| && m % 2 == 1 && Digits(digits)
    ensures Compare(Key(Join(parts)), Key(Join(parts[m := digits]))) ==
      CompareInts(DigitsValue(parts[m]), DigitsValue(digits))
  {
    KeyAtUpdate(parts, m, digits, parts[m := digits]);
    CompareAtUpdate(KeyOf(parts), m, Num(DigitsValue(digits)));
  }

  lemma KeyAtUpdate(parts: seq<string>, m: nat, digits: string, changed: seq<string>)
    requires WellCut(parts) && m < |parts| && m % 2 == 1 && Digits(digits) && changed == parts[m := digits]
    ensures Key(Join(parts)) == KeyOf(parts) && KeyOf(parts)[m] == Num(DigitsValue(parts[m]))
    ensures Key(Join(changed)) == KeyOf(parts)[m := Num(DigitsValue(digits))]
  {
    SplitOfJoin(parts);
    SplitOfJoin(changed);
    KeyOfUpdate(parts, m, digits);
    assert Digits(parts[m]);
  }

  lemma KeyOfUpdate(parts: seq<string>, m: nat, part: string)
    requires m < |parts|
    ensures KeyOf(parts[m := part]) == KeyOf(parts)[m := SegmentOf(part)]
  {
  }

  // So numbered ports list in the order of their numbers, as they are usually written.
  lemma NumberedPortsSort(stem: string, m: nat, n: nat)
    requires NoDigits(stem)
    ensures Compare(Key(stem + Decimal(m)), Key(stem + Decimal(n))) == CompareInts(m, n)
  {
    var parts := [stem, Decimal(m), ""];
    DecimalIsDigits(m);
    DecimalIsDigits(n);
    assert WellCut(parts);
    RunsSortByValue(parts, 1, Decimal(n));
    JoinsToName(stem, Decimal(m));
    JoinsToName(stem, Decimal(n));
    assert parts[1 := Decimal(n)] == [stem, Decimal(n), ""];
  }

  lemma JoinsToName(stem: string, digits: string)
    ensures Join([stem, digits, ""]) == stem + digits
  {
    JoinStep(stem, digits, [""]);
    JoinOne("");
    assert digits + "" == digits;
    assert [stem, digits] + [""] == [stem, digits, ""];
  }

  // -------------------------------------------------------------------- case

  function AllLower(parts: seq<string>): (low: seq<string>)
    ensures |low| == |parts| && forall i :: 0 <= i < |parts| ==> low[i] == Lower(parts[i])
  {
    seq(|parts|, i requires 0 <= i < |parts| => Lower(parts[i]))
  }

  lemma LowerKeepsSegment(part: string)
    ensures SegmentOf(Lower(part)) == SegmentOf(part)
    ensures Digits(part) ==> Digits(Lower(part))
    ensures NoDigits(part) ==> NoDigits(Lower(part))
  {
    assert Lower(Lower(part)) == Lower(part);
    if AllDigits(part) {
      assert Lower(part) == part;
    } else {
      var i :| 0 <= i < |part| && !IsDigit(part[i]);
      assert !IsDigit(Lower(part)[i]);
    }
  }

  lemma LowerKeepsCut(parts: seq<string>)
    requires WellCut(parts)
    ensures WellCut(AllLower(parts)) && KeyOf(AllLower(parts)) == KeyOf(parts)
  {
    forall i | 0 <= i < |parts|
      ensures SegmentOf(AllLower(parts)[i]) == SegmentOf(parts[i])
      ensures if i % 2 == 1 then Digits(AllLower(parts)[i]) else NoDigits(AllLower(parts)[i])
    {
      LowerKeepsSegment(parts[i]);
    }
  }

  lemma {:induction false} JoinOfLower(parts: seq<string>)
    ensures Join(AllLower(parts)) == Lower(Join(parts))
    decreases parts
  {
    if parts != [] {
      assert AllLower(parts)[1..] == AllLower(parts[1..]);
      JoinOfLower(parts[1..]);
    }
  }

  // The same characters, but that an ASCII letter may be a capital in one and not in the other.
  predicate SameButCase(a: string, b: string) {
    && |a| == |b|
    && forall i :: 0 <= i < |a| ==>
         || a[i] == b[i]
         || (65 <= a[i] as int <= 90 && b[i] as int == a[i] as int + 32)
         || (65 <= b[i] as int <= 90 && a[i] as int == b[i] as int + 32)
  }

  lemma LowerKeepsKey(s: string)
    ensures Key(Lower(s)) == Key(s)
  {
    var parts := Split(s);
    SplitIsWellCut(s);
    JoinOfSplit(s);
    LowerKeepsCut(parts);
    JoinOfLower(parts);
    SplitOfJoin(AllLower(parts));
  }

  // Upper and lower case never separate two names.
  lemma CaseIsIgnored(a: string, b: string)
    requires SameButCase(a, b)
    ensures Key(a) == Key(b)
  {
    LowerKeepsKey(a);
    LowerKeepsKey(b);
    assert Lower(a) == Lower(b);
  }

  // ------------------------------------------------------------ the first difference

  // The texts agree up to `k`, where `a` ends or has the smaller character.
  predicate FallsBehind(a: string, b: string, k: nat) {
    && k <= |a| && k < |b| && (forall i :: 0 <= i < k ==> a[i] == b[i])
    && (k == |a| || a[k] < b[k])
  }

  ghost predicate Precedes(a: string, b: string) { exists k :: FallsBehind(a, b, k) }

  lemma FallsBehindOn(a: string, b: string, k: nat)
    requires a != "" && b != "" && a[0] == b[0] && k > 0
    ensures FallsBehind(a, b, k) <==> FallsBehind(a[1..], b[1..], k - 1)
  {
    if FallsBehind(a[1..], b[1..], k - 1) {
      forall i | 0 <= i < k ensures a[i] == b[i] {
        assert i > 0 ==> a[1..][i - 1] == b[1..][i - 1];
      }
    }
  }

  lemma PrecedesOn(a: string, b: string)
    requires a != "" && b != "" && a[0] == b[0]
    ensures Precedes(a, b) <==> Precedes(a[1..], b[1..])
  {
    if k :| FallsBehind(a, b, k) {
      FallsBehindOn(a, b, k);
    }
    if k: nat :| FallsBehind(a[1..], b[1..], k) {
      FallsBehindOn(a, b, k + 1);
    }
  }

  lemma {:induction false} TextOrderIsFirstDifference(a: string, b: string)
    ensures CompareText(a, b) == Less <==> Precedes(a, b)
    decreases a
  {
    if a != "" && b != "" && a[0] == b[0] {
      TextOrderIsFirstDifference(a[1..], b[1..]);
      PrecedesOn(a, b);
    } else if b != "" {
      assert a == "" || a[0] < b[0] ==> FallsBehind(a, b, 0);
      assert forall k :: FallsBehind(a, b, k) ==> k == 0;
    }
  }

  lemma {:induction false} FirstSegmentDecides(a: seq<Segment>, b: seq<Segment>, m: nat)
    requires m <= |a| && m < |b| && a[..m] == b[..m]
    ensures m == |a| ==> Compare(a, b) == Less
    ensures m < |a| && a[m] != b[m] ==> Compare(a, b) == CompareSegments(a[m], b[m])
    decreases m
  {
    if m > 0 {
      assert a[0] == a[..m][0] && b[0] == b[..m][0];
      assert a[1..][..m - 1] == a[..m][1..] && b[1..][..m - 1] == b[..m][1..];
      FirstSegmentDecides(a[1..], b[1..], m - 1);
    }
  }

  // Two stretches of text count as one but for case, two runs of digits by their value.
  predicate CountAlike(a: string, b: string) {
    if Digits(a) && Digits(b) then DigitsValue(a) == DigitsValue(b)
    else !Digits(a) && !Digits(b) && Lower(a) == Lower(b)
  }

  lemma AlikeSegments(a: string, b: string)
    ensures SegmentOf(a) == SegmentOf(b) <==> CountAlike(a, b)
  {
  }

  // Of two names, however else they differ, the first part that counts for something else decides: a run
  // of digits by its value, a stretch of text by its first different character, upper case as lower. A
  // name that ends there comes first.
  lemma FirstPartDecides(a: seq<string>, b: seq<string>, m: nat)
    requires WellCut(a) && WellCut(b) && m <= |a| && m < |b|
    requires forall i :: 0 <= i < m ==> CountAlike(a[i], b[i])
    ensures m == |a| ==> Compare(Key(Join(a)), Key(Join(b))) == Less
    ensures m < |a| && !CountAlike(a[m], b[m]) ==>
      (Compare(Key(Join(a)), Key(Join(b))) == Less <==>
         if m % 2 == 1 then DigitsValue(a[m]) < DigitsValue(b[m]) else Precedes(Lower(a[m]), Lower(b[m])))
  {
    SplitOfJoin(a);
    SplitOfJoin(b);
    SamePrefix(a, b, m);
    FirstSegmentDecides(KeyOf(a), KeyOf(b), m);
    if m < |a| {
      AlikeSegments(a[m], b[m]);
      TextOrderIsFirstDifference(Lower(a[m]), Lower(b[m]));
      PartKinds(a, m);
      PartKinds(b, m);
    }
  }

  lemma PartKinds(parts: seq<string>, m: nat)
    requires WellCut(parts) && m < |parts|
    ensures m % 2 == 1 ==> Digits(parts[m]) && SegmentOf(parts[m]) == Num(DigitsValue(parts[m]))
    ensures m % 2 == 0 ==> !Digits(parts[m]) && SegmentOf(parts[m]) == Text(Lower(parts[m]))
  {
    assert m % 2 == 0 && parts[m] != "" ==> !IsDigit(parts[m][0]);
  }

  lemma SamePrefix(a: seq<string>, b: seq<string>, m: nat)
    requires m <= |a| && m <= |b| && forall i :: 0 <= i < m ==> CountAlike(a[i], b[i])
    ensures KeyOf(a)[..m] == KeyOf(b)[..m]
  {
    forall i | 0 <= i < m ensures KeyOf(a)[i] == KeyOf(b)[i] {
      AlikeSegments(a[i], b[i]);
    }
  }
}
