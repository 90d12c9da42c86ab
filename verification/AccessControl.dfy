/** Write-slot capacity of a port: `openmux/server/access_control.py`. */
module AccessControl {
  import opened Prelude
  import opened PyText

  // The values a `max_read_write_users` key or wire field can hold. A finite
  // float is a real; every other Python value behaves alike and is `Other`.
  datatype Raw = Unset | Bool(b: bool) | Int(n: int) | Float(r: real) | Text(s: string) | Other

  datatype WriteMode = NoWriter | OneWriter | ManyWriters

  datatype Capacity = Finite(writers: nat) | Unlimited
  {
    // `current_rw >= capacity`
    predicate Full(current: nat) { Finite? && current >= writers }
  }

  const WIRE_MULTIPLE := 2147483647

  function ModeName(m: WriteMode): string {
    match m
    case NoWriter => "none"
    case OneWriter => "one"
    case ManyWriters => "multiple"
  }

  function NamedMode(text: string): Option<WriteMode> {
    if text == "none" then Some(NoWriter)
    else if text == "one" then Some(OneWriter)
    else if text == "multiple" then Some(ManyWriters)
    else None
  }

  // A negative value reaches this only from `WireToMode`, and is neither 0 nor 1.
  function LegacyIntToMode(n: int): WriteMode {
    if n == 0 then NoWriter else if n == 1 then OneWriter else ManyWriters
  }

  // None stands for the exception InvalidWriteMode.
  function ParseWriteMode(raw: Raw): Option<WriteMode> {
    match raw
    case Unset => Some(OneWriter)
    case Int(n) => if n >= 0 then Some(LegacyIntToMode(n)) else None
    case Text(s) =>
      var text := Lower(Strip(s));
      if NamedMode(text).Some? then NamedMode(text)
      else (match PyInt(text)
            case Some(v) => if v >= 0 then Some(LegacyIntToMode(v)) else None
            case None => None)
    case _ => None
  }

  function WireToMode(raw: Raw): WriteMode {
    match raw
    case Text(s) =>
      var text := Lower(Strip(s));
      if NamedMode(text).Some? then NamedMode(text).value
      else (match PyInt(text)
            case Some(v) => LegacyIntToMode(v)
            case None => OneWriter)
    case Int(n) => if n >= 0 then LegacyIntToMode(n) else OneWriter
    case Float(r) =>
      if r.Floor as real == r && r >= 0.0 then LegacyIntToMode(r.Floor) else OneWriter
    case _ => OneWriter
  }

  function ModeCapacity(m: WriteMode): Capacity {
    match m
    case NoWriter => Finite(0)
    case OneWriter => Finite(1)
    case ManyWriters => Unlimited
  }

  function WriteCapacity(raw: Raw): Capacity {
    match ParseWriteMode(raw)
    case None => Finite(1)
    case Some(m) => ModeCapacity(m)
  }

  function CapacityToWire(raw: Raw): int {
    match ParseWriteMode(raw)
    case None => 1
    case Some(NoWriter) => 0
    case Some(OneWriter) => 1
    case Some(ManyWriters) => WIRE_MULTIPLE
  }

  function CapacityFromWire(raw: Raw): Capacity {
    WriteCapacity(Text(ModeName(WireToMode(raw))))
  }

  // The form of a client id that a holders list prints. Federated ids stay whole.
  function HolderIdShort(cid: string): (short: string)
    ensures |short| <= 8 || short == cid
  {
    if "fed:" <= cid then cid
    else if |cid| > 8 then cid[|cid| - 8..]
    else cid
  }

  // Text that `int` reads as a negative number.
  predicate NegativeNumeral(raw: Raw) {
    raw.Text? && PyInt(Lower(Strip(raw.s))).Some? && PyInt(Lower(Strip(raw.s))).value < 0
  }

  // A float that the wire reader takes for a whole capacity other than one.
  predicate WholeFloat(raw: Raw) {
    raw.Float? && raw.r.Floor as real == raw.r && raw.r >= 0.0 && raw.r != 1.0
  }

  lemma NamedModeRoundTrip(m: WriteMode)
    ensures ParseWriteMode(Text(ModeName(m))) == Some(m)
    ensures WireToMode(Text(ModeName(m))) == m
  {
    var t := ModeName(m);
    assert StripLeft(t) == t && StripRight(t) == t;
    LowerKeeps(t);
  }

  lemma LowerKeeps(s: string)
    requires forall i :: 0 <= i < |s| ==> 'a' <= s[i] <= 'z'
    ensures Lower(s) == s
  {
  }

  // Whatever a port is configured with, a peer that reads the capacity this
  // server sends enforces exactly the capacity this server enforces.
  lemma WireKeepsCapacity(raw: Raw)
    ensures CapacityFromWire(Int(CapacityToWire(raw))) == WriteCapacity(raw)
  {
    NamedModeRoundTrip(WireToMode(Int(CapacityToWire(raw))));
  }

  // The local and the wire reading of one value agree exactly outside two
  // families: negative numerals and whole floats other than one.
  lemma ReadersAgreeExactly(raw: Raw)
    ensures CapacityFromWire(raw) == WriteCapacity(raw) <==> !NegativeNumeral(raw) && !WholeFloat(raw)
  {
    NamedModeRoundTrip(WireToMode(raw));
    if raw.Text? {
      var text := Lower(Strip(raw.s));
      if NamedMode(text).Some? {
        assert PyInt(text).None? by { WordIsNoNumber(text); }
      }
    }
  }

  lemma WordIsNoNumber(text: string)
    requires NamedMode(text).Some?
    ensures PyInt(text).None?
  {
    assert StripLeft(text) == text && StripRight(text) == text;
  }

  // The wire reader's documentation promises that an unknown value never unlocks
  // unlimited writers. Of the values the local reader rejects, exactly two families
  // do: negative numerals, and whole floats from two on.
  lemma UnknownValueUnlocksExactly(raw: Raw)
    requires ParseWriteMode(raw).None?
    ensures CapacityFromWire(raw) == Unlimited <==> NegativeNumeral(raw) || (WholeFloat(raw) && raw.r >= 2.0)
  {
    NamedModeRoundTrip(WireToMode(raw));
  }

  lemma WholeFloatUnlocks()
    ensures ParseWriteMode(Float(2.0)).None?
    ensures CapacityFromWire(Float(2.0)) == Unlimited
  {
    NamedModeRoundTrip(ManyWriters);
  }

  lemma NegativeNumeralUnlocks()
    ensures ParseWriteMode(Text("-1")).None?
    ensures CapacityFromWire(Text("-1")) == Unlimited
  {
    var t := "-1";
    assert StripLeft(t) == t && StripRight(t) == t;
    assert Lower(t) == t;
    assert t[1..] == "1";
    assert Numeral("1") == Some(1) by { assert "1"[..0] == ""; }
    NamedModeRoundTrip(ManyWriters);
  }
}
