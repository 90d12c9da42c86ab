/** Python's number reading and writing on ASCII text: `str.strip`, `int(text)`, `str(n)`. */
module PyText {
  import opened Prelude

  predicate IsDigit(c: char) { '0' <= c <= '9' }

  predicate IsSpace(c: char) {
    c == ' ' || '\t' <= c <= '\r' || (0x1C as char) <= c <= (0x1F as char)
  }

  function DigitValue(c: char): (d: nat)
    requires IsDigit(c)
  {
    c as int - '0' as int
  }

  function StripLeft(s: string): string {
    if s != "" && IsSpace(s[0]) then StripLeft(s[1..]) else s
  }

  function StripRight(s: string): string {
    if s != "" && IsSpace(s[|s| - 1]) then StripRight(s[..|s| - 1]) else s
  }

  function Strip(s: string): string { StripRight(StripLeft(s)) }

  function LowerChar(c: char): char {
    if 'A' <= c <= 'Z' then (c as int + 32) as char else c
  }

  function Lower(s: string): (r: string)
    ensures |r| == |s| && forall i :: 0 <= i < |s| ==> r[i] == LowerChar(s[i])
  {
    seq(|s|, i requires 0 <= i < |s| => LowerChar(s[i]))
  }

  predicate AllDigits(s: string) { forall i :: 0 <= i < |s| ==> IsDigit(s[i]) }

  // The value of a string of digits, leading zeros allowed.
  function DigitsValue(s: string): nat
    requires AllDigits(s)
  {
    if s == "" then 0 else 10 * DigitsValue(s[..|s| - 1]) + DigitValue(s[|s| - 1])
  }

  // `int` accepts single underscores between digits.
  function Numeral(s: string): (v: Option<int>)
    ensures v.Some? ==> v.value >= 0
  {
    if s == "" || !IsDigit(s[|s| - 1]) then None
    else
      var last, init := DigitValue(s[|s| - 1]), s[..|s| - 1];
      if init == "" then Some(last)
      else
        var head := if init[|init| - 1] == '_' then init[..|init| - 1] else init;
        match Numeral(head)
        case None => None
        case Some(v) => Some(10 * v + last)
  }

  // `int(text)`: None stands for ValueError.
  function PyInt(text: string): Option<int> {
    var s := Strip(text);
    if s != "" && s[0] == '-' then
      match Numeral(s[1..])
      case None => None
      case Some(v) => Some(-v)
    else if s != "" && s[0] == '+' then Numeral(s[1..])
    else Numeral(s)
  }

  // `str(n)` for a natural number.
  function Decimal(n: nat): string {
    if n < 10 then [('0' as int + n) as char]
    else Decimal(n / 10) + [('0' as int + n % 10) as char]
  }

  lemma {:induction false} DecimalIsDigits(n: nat)
    ensures Decimal(n) != "" && AllDigits(Decimal(n)) && DigitsValue(Decimal(n)) == n
  {
    if n < 10 {
      assert Decimal(n)[..0] == "";
    } else {
      DecimalIsDigits(n / 10);
      assert Decimal(n)[..|Decimal(n)| - 1] == Decimal(n / 10);
    }
  }

  lemma {:induction false} NumeralOfDigits(s: string)
    requires s != "" && AllDigits(s)
    ensures Numeral(s) == Some(DigitsValue(s))
  {
    if |s| > 1 {
      NumeralOfDigits(s[..|s| - 1]);
    } else {
      assert s[..0] == "";
    }
  }

  lemma StripKeepsDigits(s: string)
    requires AllDigits(s)
    ensures Strip(s) == s
  {
  }

  // Writing a natural number and reading it back gives the number.
  lemma DecimalRoundTrip(n: nat)
    ensures PyInt(Decimal(n)) == Some(n)
  {
    DecimalIsDigits(n);
    NumeralOfDigits(Decimal(n));
    StripKeepsDigits(Decimal(n));
  }
}
