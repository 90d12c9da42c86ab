/** The streaming sanitizer of `scripts/serial_loopback.py`: control and escape
    bytes become readable tokens, sequences may be split across chunks. */
module EscSanitizer {
  import opened Prelude

  const LF: byte := 0x0A
  const CR: byte := 0x0D
  const ESC: byte := 0x1B
  const DEL: byte := 0x7F

  function Code(c: char): byte
    requires c as int < 0x80
  {
    c as int as byte
  }

  predicate Plain(s: string) { forall i :: 0 <= i < |s| ==> 0x20 <= s[i] as int <= 0x7E }

  // A token of printable characters, as bytes.
  function Ascii(s: string): (b: Bytes)
    requires Plain(s)
    ensures |b| == |s|
    ensures forall i :: 0 <= i < |b| ==> b[i] as int == s[i] as int && 0x20 <= b[i] <= 0x7E
  {
    seq(|s|, i requires 0 <= i < |s| => Code(s[i]))
  }

  predicate Digit(b: byte) { Code('0') <= b <= Code('9') }

  // Bytes that stand for themselves.
  predicate Passes(b: byte) { b == LF || b == CR || 0x20 <= b <= 0x7E || b >= 0x80 }

  predicate Clean(data: Bytes) { forall i :: 0 <= i < |data| ==> Passes(data[i]) }

  // The start of the input either needs more bytes or yields output for `used` of them.
  datatype Token = More | Emit(out: Bytes, used: nat)

  function Bare(): Token { Emit(Ascii("[ESC]"), 1) }

  // End of the digits that start at position `from`.
  function DigitsEnd(data: Bytes, from: nat): (j: nat)
    requires from <= |data|
    ensures from <= j <= |data|
    ensures forall k :: from <= k < j ==> Digit(data[k])
    ensures j < |data| ==> !Digit(data[j])
    decreases |data| - from
  {
    if from < |data| && Digit(data[from]) then DigitsEnd(data, from + 1) else from
  }

  function Number(digits: Bytes): nat {
    if digits == [] then 0
    else
      var init, last := digits[..|digits| - 1], digits[|digits| - 1];
      10 * Number(init) + (if Digit(last) then (last - Code('0')) as nat else 0)
  }

  function Arrow(third: byte): Option<Bytes> {
    if third == Code('A') then Some(Ascii("[UP]"))
    else if third == Code('B') then Some(Ascii("[DOWN]"))
    else if third == Code('C') then Some(Ascii("[RIGHT]"))
    else if third == Code('D') then Some(Ascii("[LEFT]"))
    else None
  }

  function KeyTag(digits: Bytes): Bytes {
    match Number(digits)
    case 1 => Ascii("[HOME]")
    case 2 => Ascii("[INSERT]")
    case 3 => Ascii("[DEL]")
    case 4 => Ascii("[END]")
    case 5 => Ascii("[PGUP]")
    case 6 => Ascii("[PGDN]")
    case _ => Ascii("[CSI-") + digits + Ascii("~]")
  }

  // After ESC [ .
  function Csi(data: Bytes): Token
    requires |data| >= 2
  {
    if |data| == 2 then More
    else
      var third := data[2];
      if Arrow(third).Some? then Emit(Arrow(third).value, 3)
      else if third == Code('H') then Emit(Ascii("[HOME]"), 3)
      else if third == Code('F') then Emit(Ascii("[END]"), 3)
      else if Digit(third) then
        var j := DigitsEnd(data, 2);
        if j == |data| then More
        else if data[j] == Code('~') then Emit(KeyTag(data[2..j]), j + 1)
        else Bare()
      else Bare()
  }

  // After ESC O .
  function Ss3(data: Bytes): Token
    requires |data| >= 2
  {
    if |data| == 2 then More
    else if Arrow(data[2]).Some? then Emit(Arrow(data[2]).value, 3)
    else Bare()
  }

  function Next(data: Bytes): Token
    requires data != []
  {
    var b := data[0];
    if Passes(b) then Emit([b], 1)
    else if b == DEL then Emit(Ascii("[DEL]"), 1)
    else if b == ESC then
      if |data| == 1 then More
      else if data[1] == Code('[') then Csi(data)
      else if data[1] == Code('O') then Ss3(data)
      else Bare()
    else if b == 0x09 then Emit(Ascii("[TAB]"), 1)
    else if b == 0x00 then Emit(Ascii("[NUL]"), 1)
    else Emit(Ascii("[CTRL-") + [b + 64] + Ascii("]"), 1)
  }

  datatype Scanned = Scanned(out: Bytes, carry: Bytes)
  {
    function After(first: Bytes): Scanned { Scanned(first + out, carry) }
  }

  function Scan(data: Bytes): Scanned
    decreases |data|
  {
    if data == [] then Scanned([], [])
    else
      match Next(data)
      case More => Scanned([], data)
      case Emit(out, used) =>
        NextAdvances(data);
        Scan(data[used..]).After(out)
  }

  lemma NextAdvances(data: Bytes)
    requires data != []
    ensures Next(data).Emit? ==> 1 <= Next(data).used <= |data|
  {
  }

  // One call of `sanitize`: an empty chunk is returned as it is.
  function Feed(carry: Bytes, data: Bytes): Scanned {
    if data == [] then Scanned([], carry) else Scan(carry + data)
  }

  function FeedAll(carry: Bytes, chunks: seq<Bytes>): Scanned
    decreases chunks
  {
    if chunks == [] then Scanned([], carry)
    else
      var first := Feed(carry, chunks[0]);
      FeedAll(first.carry, chunks[1..]).After(first.out)
  }

  // ------------------------------------------------------------ the sanitizer

  class Sanitizer {
    var escBuf: Bytes

    constructor ()
      ensures escBuf == []
    {
      escBuf := [];
    }

    static method ReadDigits(data: Bytes, from: nat) returns (j: nat)
      requires from <= |data|
      ensures j == DigitsEnd(data, from)
    {
      j := from;
      while j < |data| && Digit(data[j])
        invariant from <= j <= |data|
        invariant DigitsEnd(data, from) == DigitsEnd(data, j)
      {
        j := j + 1;
      }
    }

    // The escape sequence at the front of `data`.
    static method ReadEscape(data: Bytes) returns (token: Token)
      requires data != [] && data[0] == ESC
      ensures token == Next(data)
    {
      if |data| == 1 {
        return More;
      }
      if data[1] == Code('[') {
        if |data| == 2 {
          return More;
        }
        if Digit(data[2]) {
          var j := ReadDigits(data, 2);
          if j == |data| {
            return More;
          }
          if data[j] == Code('~') {
            return Emit(KeyTag(data[2..j]), j + 1);
          }
          return Bare();
        }
        return Csi(data);
      }
      if data[1] == Code('O') {
        return Ss3(data);
      }
      return Bare();
    }

    static method NextToken(data: Bytes) returns (token: Token)
      requires data != []
      ensures token == Next(data)
    {
      var b := data[0];
      if Passes(b) {
        token := Emit([b], 1);
      } else if b == DEL {
        token := Emit(Ascii("[DEL]"), 1);
      } else if b == ESC {
        token := ReadEscape(data);
      } else if b == 0x09 {
        token := Emit(Ascii("[TAB]"), 1);
      } else if b == 0x00 {
        token := Emit(Ascii("[NUL]"), 1);
      } else {
        token := Emit(Ascii("[CTRL-") + [b + 64] + Ascii("]"), 1);
      }
    }

    method Sanitize(chunk: Bytes) returns (out: Bytes)
      modifies this
      ensures Scanned(out, escBuf) == Feed(old(escBuf), chunk)
    {
      if chunk == [] {
        return [];
      }
      var data := escBuf + chunk;
      escBuf := [];
      out := [];
      var i := 0;
      while i < |data|
        invariant i <= |data| && escBuf == []
        invariant Scan(data) == Scan(data[i..]).After(out)
      {
        var token := NextToken(data[i..]);
        if token.More? {
          escBuf := data[i..];
          return;
        }
        NextAdvances(data[i..]);
        ScanOn(data[i..]);
        assert data[i..][token.used..] == data[i + token.used..];
        AfterTwice(Scan(data[i + token.used..]), out, token.out);
        out := out + token.out;
        i := i + token.used;
      }
    }
  }

  lemma ScanOn(data: Bytes)
    requires data != [] && Next(data).Emit? && Next(data).used <= |data|
    ensures Scan(data) == Scan(data[Next(data).used..]).After(Next(data).out)
  {
  }

  lemma AfterTwice(s: Scanned, first: Bytes, second: Bytes)
    ensures s.After(second).After(first) == s.After(first + second)
  {
    assert first + (second + s.out) == (first + second) + s.out;
  }

  // -------------------------------------------------------------- the carry

  // What may be held back between chunks.
  predicate IsCarry(b: Bytes) {
    || b == []
    || b == [ESC]
    || b == [ESC, Code('O')]
    || (|b| >= 2 && b[0] == ESC && b[1] == Code('[') && forall i :: 2 <= i < |b| ==> Digit(b[i]))
  }

  lemma {:induction false} CarryShape(data: Bytes)
    ensures IsCarry(Scan(data).carry)
    decreases |data|
  {
    if data != [] {
      NextAdvances(data);
      if Next(data).Emit? {
        CarryShape(data[Next(data).used..]);
      }
    }
  }

  lemma CarryScansToItself(carry: Bytes)
    requires IsCarry(carry)
    ensures Scan(carry) == Scanned([], carry)
  {
    if |carry| > 2 {
      assert DigitsEnd(carry, 2) == |carry|;
    }
  }

  // ------------------------------------------------------------- chunking

  lemma {:induction false} DigitsEndStable(data: Bytes, more: Bytes, from: nat)
    requires from <= |data| && DigitsEnd(data, from) < |data|
    ensures DigitsEnd(data + more, from) == DigitsEnd(data, from)
    decreases |data| - from
  {
    if from < |data| && Digit(data[from]) {
      DigitsEndStable(data, more, from + 1);
    }
  }

  // A token once complete is not changed by what follows it.
  lemma TokenIsStable(data: Bytes, more: Bytes)
    requires data != [] && Next(data).Emit?
    ensures Next(data + more) == Next(data)
  {
    if data[0] == ESC && data[1] == Code('[') && Digit(data[2]) {
      var j := DigitsEnd(data, 2);
      DigitsEndStable(data, more, 2);
      assert (data + more)[2..j] == data[2..j];
    }
  }

  lemma {:induction false} ScanSplit(a: Bytes, b: Bytes)
    ensures Scan(a + b) == Scan(Scan(a).carry + b).After(Scan(a).out)
    decreases |a|
  {
    if a == [] {
      assert a + b == b && [] + b == b;
    } else if Next(a).Emit? {
      var out, used := Next(a).out, Next(a).used;
      NextAdvances(a);
      TokenIsStable(a, b);
      assert (a + b)[used..] == a[used..] + b;
      ScanOn(a);
      ScanOn(a + b);
      ScanSplit(a[used..], b);
      AfterTwice(Scan(Scan(a).carry + b), out, Scan(a[used..]).out);
    }
  }

  // Feeding the chunks one by one gives the output and the carry of one call on
  // their concatenation.
  lemma {:induction false} ChunkingIsInvisible(carry: Bytes, chunks: seq<Bytes>)
    requires IsCarry(carry)
    ensures FeedAll(carry, chunks) == Feed(carry, Concat(chunks))
    decreases chunks
  {
    if chunks != [] {
      var head := chunks[0];
      CarryScansToItself(carry);
      CarryShape(carry + head);
      ChunkingIsInvisible(Feed(carry, head).carry, chunks[1..]);
      FeedTwice(carry, head, Concat(chunks[1..]));
    }
  }

  lemma FeedTwice(carry: Bytes, head: Bytes, tail: Bytes)
    requires IsCarry(carry)
    ensures Feed(Feed(carry, head).carry, tail).After(Feed(carry, head).out) == Feed(carry, head + tail)
  {
    if tail == [] {
      assert head + tail == head;
      assert Feed(Feed(carry, head).carry, tail).out == [];
    } else if head == [] {
      assert head + tail == tail;
    } else {
      FeedNonEmptyTwice(carry, head, tail);
    }
  }

  lemma FeedNonEmptyTwice(carry: Bytes, head: Bytes, tail: Bytes)
    requires head != [] && tail != []
    ensures Feed(Feed(carry, head).carry, tail).After(Feed(carry, head).out) == Feed(carry, head + tail)
  {
    ScanSplit(carry + head, tail);
    assert carry + (head + tail) == (carry + head) + tail;
    assert head + tail != [];
  }

  // Any two ways of cutting the same bytes agree.
  lemma AnyTwoCutsAgree(carry: Bytes, a: seq<Bytes>, b: seq<Bytes>)
    requires IsCarry(carry) && Concat(a) == Concat(b)
    ensures FeedAll(carry, a) == FeedAll(carry, b)
    ensures IsCarry(FeedAll(carry, a).carry)
  {
    ChunkingIsInvisible(carry, a);
    ChunkingIsInvisible(carry, b);
    CarryShape(carry + Concat(a));
  }

  // -------------------------------------------------------------- the output

  lemma CsiIsClean(data: Bytes)
    requires |data| >= 2
    ensures Csi(data).Emit? ==> Clean(Csi(data).out)
  {
    if |data| > 2 && Digit(data[2]) {
      var j := DigitsEnd(data, 2);
      assert Clean(KeyTag(data[2..j]));
    }
  }

  lemma TokenIsClean(data: Bytes)
    requires data != []
    ensures Next(data).Emit? ==> Clean(Next(data).out)
  {
    if data[0] == ESC && |data| >= 2 {
      CsiIsClean(data);
      assert Ss3(data).Emit? ==> Clean(Ss3(data).out);
    }
  }

  // The output holds no control byte except CR and LF.
  lemma {:induction false} OutputIsClean(data: Bytes)
    ensures Clean(Scan(data).out)
    ensures forall b :: b in Scan(data).out ==> b in {10, 13} || 32 <= b <= 126 || 128 <= b
    decreases |data|
  {
    if data != [] && Next(data).Emit? {
      NextAdvances(data);
      TokenIsClean(data);
      OutputIsClean(data[Next(data).used..]);
    }
  }

  lemma {:induction false} CleanIsUntouched(data: Bytes)
    requires Clean(data)
    ensures Scan(data) == Scanned(data, [])
    decreases |data|
  {
    if data != [] {
      CleanIsUntouched(data[1..]);
      assert [data[0]] + data[1..] == data;
    }
  }

  // Sanitizing the output again, in any chunks, changes nothing.
  lemma SanitizingTwiceIsOnce(carry: Bytes, chunks: seq<Bytes>, again: seq<Bytes>)
    requires IsCarry(carry) && Concat(again) == FeedAll(carry, chunks).out
    ensures FeedAll([], again) == Scanned(FeedAll(carry, chunks).out, [])
  {
    var out := FeedAll(carry, chunks).out;
    ChunkingIsInvisible(carry, chunks);
    ChunkingIsInvisible([], again);
    OutputIsClean(carry + Concat(chunks));
    CleanIsUntouched(out);
    assert [] + out == out;
  }

  // ------------------------------------------------------------ what tokens say

  // What the terminal sends after ESC, and the name it is shown under.
  const KEYS: seq<(string, string)> := [
    ("[A", "[UP]"), ("[B", "[DOWN]"), ("[C", "[RIGHT]"), ("[D", "[LEFT]"), ("[H", "[HOME]"), ("[F", "[END]"),
    ("OA", "[UP]"), ("OB", "[DOWN]"), ("OC", "[RIGHT]"), ("OD", "[LEFT]"),
    ("[1~", "[HOME]"), ("[2~", "[INSERT]"), ("[3~", "[DEL]"), ("[4~", "[END]"), ("[5~", "[PGUP]"), ("[6~", "[PGDN]")]

  lemma ShortKey(data: Bytes, rest: Bytes, name: Bytes)
    requires |data| == 3 && Next(data) == Emit(name, 3)
    ensures Scan(data + rest) == Scan(rest).After(name)
  {
    TokenIsStable(data, rest);
    ScanOn(data + rest);
    assert (data + rest)[3..] == rest;
  }

  lemma LongKey(data: Bytes, rest: Bytes, name: Bytes)
    requires |data| == 4 && Next(data) == Emit(name, 4)
    ensures Scan(data + rest) == Scan(rest).After(name)
  {
    TokenIsStable(data, rest);
    ScanOn(data + rest);
    assert (data + rest)[4..] == rest;
  }

  lemma DigitKey(digit: byte)
    requires Digit(digit)
    ensures Next([ESC, Code('['), digit, Code('~')]) == Emit(KeyTag([digit]), 4)
    ensures Number([digit]) == digit as nat - Code('0') as nat
  {
    var data := [ESC, Code('['), digit, Code('~')];
    assert DigitsEnd(data, 3) == 3;
    assert data[2..3] == [digit];
    assert [digit][..0] == [];
  }

  lemma ShortKeyToken(k: nat)
    requires k < 10
    ensures Plain(KEYS[k].0) && Plain(KEYS[k].1) && |KEYS[k].0| == 2
    ensures Next([ESC] + Ascii(KEYS[k].0)) == Emit(Ascii(KEYS[k].1), 3)
  {
  }

  lemma LongKeyToken(k: nat)
    requires 10 <= k < |KEYS|
    ensures Plain(KEYS[k].0) && Plain(KEYS[k].1) && |KEYS[k].0| == 3
    ensures Next([ESC] + Ascii(KEYS[k].0)) == Emit(Ascii(KEYS[k].1), 4)
  {
    var data := [ESC] + Ascii(KEYS[k].0);
    DigitKey(data[2]);
    assert data == [ESC, Code('['), data[2], Code('~')];
  }

  // Every key of the table is shown under its name, whatever follows it.
  lemma KeysAreNamed(k: nat, rest: Bytes)
    requires k < |KEYS|
    ensures Plain(KEYS[k].0) && Plain(KEYS[k].1)
    ensures Scan([ESC] + Ascii(KEYS[k].0) + rest) == Scan(rest).After(Ascii(KEYS[k].1))
  {
    if k < 10 {
      ShortKeyToken(k);
      ShortKey([ESC] + Ascii(KEYS[k].0), rest, Ascii(KEYS[k].1));
    } else {
      LongKeyToken(k);
      LongKey([ESC] + Ascii(KEYS[k].0), rest, Ascii(KEYS[k].1));
    }
  }

  // A control byte that is shown under a name of its own.
  predicate Named(b: byte) { (b < 0x20 || b == DEL) && b != LF && b != CR && b != ESC }

  // No two control bytes share a name.
  lemma ControlsAreTold(a: byte, b: byte)
    requires Named(a) && Named(b) && Scan([a]).out == Scan([b]).out
    ensures a == b
  {
    ControlName(a);
    ControlName(b);
    var x, y := Scan([a]).out, Scan([b]).out;
    assert |x| == |y| && (|x| > 6 ==> x[6] == y[6]) && x[1] == y[1];
  }

  lemma ControlName(b: byte)
    requires Named(b)
    ensures Scan([b]) == Scanned(
      if b == DEL then Ascii("[DEL]") else if b == 0x09 then Ascii("[TAB]") else if b == 0x00 then Ascii("[NUL]")
      else Ascii("[CTRL-") + [b + 64] + Ascii("]"), [])
  {
    assert [b][1..] == [];
  }
}
