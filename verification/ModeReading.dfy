/** Which values of `max_read_write_users` mean which mode, said without the readers of
    `openmux/server/access_control.py`: names in any case, numerals, and everything else. */
module ModeReading {
  import opened Prelude
  import opened PyText
  import opened PyTextLaws
  import opened AccessControl

  // The same letters, in any case.
  predicate SpelledAs(word: string, name: string) {
    && |word| == |name|
    && forall i :: 0 <= i < |word| ==>
         word[i] == name[i] || (65 <= word[i] as int <= 90 && word[i] as int + 32 == name[i] as int)
  }

  predicate Names(name: string, m: WriteMode) {
    (name, m) in {("none", NoWriter), ("one", OneWriter), ("multiple", ManyWriters)}
  }

  // The documented table for numbers.
  function ByNumber(n: nat): WriteMode {
    match n
    case 0 => NoWriter
    case 1 => OneWriter
    case _ => ManyWriters
  }

  lemma CapitalsAreLowered(word: string, name: string)
    requires SpelledAs(word, name) && forall i :: 0 <= i < |name| ==> 97 <= name[i] as int <= 122
    ensures Lower(word) == name && Trimmed(word)
  {
    LowerMovesCapitals(word);
  }

  // A mode name is read in any case and with any padding, locally and on the wire.
  lemma NamesAreRead(left: string, word: string, right: string, name: string, m: WriteMode)
    requires Pads(left) && Pads(right) && Names(name, m) && SpelledAs(word, name)
    ensures ParseWriteMode(Text(left + word + right)) == Some(m)
    ensures WireToMode(Text(left + word + right)) == m
  {
    CapitalsAreLowered(word, name);
    StripLeavesTheCore(left, word, right);
  }

  lemma {:induction false} NumeralCharacters(groups: seq<string>)
    requires DigitGroups(groups)
    ensures forall i :: 0 <= i < |Joined(groups)| ==> IsDigit(Joined(groups)[i]) || Joined(groups)[i] == '_'
    decreases groups
  {
    if |groups| > 1 {
      NumeralCharacters(groups[..|groups| - 1]);
    }
  }

  lemma NumeralIsPlain(sign: Sign, groups: seq<string>)
    requires DigitGroups(groups)
    ensures var core := Written(sign) + Joined(groups);
      Lower(core) == core && Trimmed(core) && NamedMode(core).None? && core != ""
  {
    NumeralCharacters(groups);
    JoinedEnds(groups);
    var core := Written(sign) + Joined(groups);
    assert core[|core| - 1] == Joined(groups)[|Joined(groups)| - 1];
    LowerMovesCapitals(core);
    assert IsDigit(core[|core| - 1]);
  }

  // What a numeral counts for: below zero it is refused locally and `multiple` on the wire.
  predicate CountsFor(raw: Raw, v: int) {
    && ParseWriteMode(raw) == (if v < 0 then None else Some(ByNumber(v)))
    && WireToMode(raw) == (if v < 0 then ManyWriters else ByNumber(v))
  }

  lemma NumberCounts(s: string, core: string, v: int)
    requires Strip(s) == core && Lower(core) == core && NamedMode(core).None? && PyInt(core) == Some(v)
    ensures CountsFor(Text(s), v)
  {
  }

  // A numeral in text, with any padding, counts by its value.
  lemma NumeralsAreRead(left: string, sign: Sign, groups: seq<string>, right: string)
    requires Pads(left) && DigitGroups(groups) && Pads(right)
    ensures AllDigits(Concat(groups))
    ensures CountsFor(Text(left + (Written(sign) + Joined(groups)) + right), Signed(sign, DigitsValue(Concat(groups))))
  {
    var core := Written(sign) + Joined(groups);
    NumeralIsPlain(sign, groups);
    StripLeavesTheCore(left, core, right);
    IntIsRead("", sign, groups, "");
    assert "" + core + "" == core;
    NumberCounts(left + core + right, core, Signed(sign, DigitsValue(Concat(groups))));
  }

  ghost predicate IsNumeral(core: string) {
    exists sign, groups :: DigitGroups(groups) && core == Written(sign) + Joined(groups)
  }

  lemma CapitalsAreNoNumeral(core: string)
    requires IsNumeral(Lower(core))
    ensures IsNumeral(core)
  {
    var sign, groups :| DigitGroups(groups) && Lower(core) == Written(sign) + Joined(groups);
    NumeralCharacters(groups);
    LowerMovesCapitals(core);
    assert core == Lower(core);
  }

  // Any other text is no mode: it is refused locally and `one` on the wire.
  lemma OtherTextsAreRefused(left: string, core: string, right: string)
    requires Pads(left) && Trimmed(core) && Pads(right) && !IsNumeral(core)
    requires forall name, m :: Names(name, m) ==> !SpelledAs(core, name)
    ensures ParseWriteMode(Text(left + core + right)) == None
    ensures WireToMode(Text(left + core + right)) == OneWriter
  {
    var low := Lower(core);
    StripLeavesTheCore(left, core, right);
    LowerMovesCapitals(core);
    assert Names("none", NoWriter) && Names("one", OneWriter) && Names("multiple", ManyWriters);
    assert forall name :: low == name ==> SpelledAs(core, name);
    if PyInt(low).Some? {
      assert Trimmed(low);
      var sign, groups := OnlyIntsAreRead(low);
      CapitalsAreNoNumeral(core);
    }
  }

  // Values that are not text.
  lemma OtherValuesAreRead(n: int, r: real, b: bool)
    ensures ParseWriteMode(Unset) == Some(OneWriter) && WireToMode(Unset) == OneWriter
    ensures ParseWriteMode(Int(n)) == if n < 0 then None else Some(ByNumber(n))
    ensures WireToMode(Int(n)) == if n < 0 then OneWriter else ByNumber(n)
    ensures ParseWriteMode(Float(r)) == ParseWriteMode(Bool(b)) == ParseWriteMode(Other) == None
    ensures WireToMode(Float(r)) == if r.Floor as real == r && r >= 0.0 then ByNumber(r.Floor) else OneWriter
    ensures WireToMode(Bool(b)) == WireToMode(Other) == OneWriter
  {
  }

  // The printed id of a holder is the last eight characters of its id; a federated one stays whole.
  lemma PrintedIdIsTheTail(cid: string)
    ensures var short := HolderIdShort(cid);
      && |short| <= |cid| && short == cid[|cid| - |short|..]
      && |short| == if |cid| <= 8 || cid[..4] == "fed:" then |cid| else 8
  {
  }
}
