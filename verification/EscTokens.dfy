/** What the sanitizer shows for each byte and each escape sequence, whatever follows it. The cases below
    cover every stream. */
module EscTokens {
  import opened Prelude
  import opened EscSanitizer

  const BRACKET: byte := 91   // [
  const LETTER_O: byte := 79  // O
  const TILDE: byte := 126    // ~

  lemma FirstToken(data: Bytes, rest: Bytes, out: Bytes)
    requires data != [] && Next(data) == Emit(out, |data|)
    ensures Scan(data + rest) == Scan(rest).After(out)
  {
    TokenIsStable(data, rest);
    ScanOn(data + rest);
    assert (data + rest)[|data|..] == rest;
  }

  // Line ends, printable ASCII and everything above 0x7F stand for themselves.
  lemma TextIsKept(b: byte, rest: Bytes)
    requires b in {10, 13} || 32 <= b <= 126 || 128 <= b
    ensures Scan([b] + rest) == Scan(rest).After([b])
  {
    FirstToken([b], rest, [b]);
  }

  // Every other byte but ESC is shown by its name.
  lemma ControlIsNamed(b: byte, rest: Bytes)
    requires (b < 32 || b == 127) && b !in {10, 13, 27}
    ensures Scan([b] + rest) == Scan(rest).After(
      if b == 127 then Ascii("[DEL]") else if b == 9 then Ascii("[TAB]") else if b == 0 then Ascii("[NUL]")
      else Ascii("[CTRL-") + [b + 64] + Ascii("]"))
  {
    FirstToken([b], rest, Next([b]).out);
  }

  // The bytes behind an ESC that starts no sequence are read on their own.
  lemma BareEscape(data: Bytes)
    requires data != [] && data[0] == 27 && Next(data) == Emit(Ascii("[ESC]"), 1)
    ensures Scan(data) == Scan(data[1..]).After(Ascii("[ESC]"))
  {
    ScanOn(data);
  }

  lemma OtherEscapeIsBare(b: byte, rest: Bytes)
    requires b != BRACKET && b != LETTER_O
    ensures Scan([27, b] + rest) == Scan([b] + rest).After(Ascii("[ESC]"))
  {
    var data := [27, b] + rest;
    assert data[0] == 27 && data[1] == b && data[1..] == [b] + rest;
    assert Next(data) == Bare();
    BareEscape(data);
  }

  // ESC [ and one of A, B, C, D, H, F is a key; ESC O and one of A, B, C, D too. With anything else behind
  // them, but a digit behind ESC [, the ESC is bare.
  lemma UnknownKeyIsBare(b: byte, rest: Bytes)
    ensures b !in {65, 66, 67, 68, 72, 70} && !(48 <= b <= 57) ==>
      Scan([27, BRACKET, b] + rest) == Scan([BRACKET, b] + rest).After(Ascii("[ESC]"))
    ensures b !in {65, 66, 67, 68} ==>
      Scan([27, LETTER_O, b] + rest) == Scan([LETTER_O, b] + rest).After(Ascii("[ESC]"))
  {
    var csi, ss3 := [27, BRACKET, b] + rest, [27, LETTER_O, b] + rest;
    assert csi[1..] == [BRACKET, b] + rest && ss3[1..] == [LETTER_O, b] + rest;
    if b !in {65, 66, 67, 68, 72, 70} && !(48 <= b <= 57) {
      BareEscape(csi);
    }
    if b !in {65, 66, 67, 68} {
      BareEscape(ss3);
    }
  }

  // ------------------------------------------------------------- numbered keys

  predicate Numbers(digits: Bytes) { digits != [] && forall i :: 0 <= i < |digits| ==> 48 <= digits[i] <= 57 }

  lemma {:induction false} DigitsEndIs(data: Bytes, from: nat, j: nat)
    requires from <= j < |data| && (forall k :: from <= k < j ==> 48 <= data[k] <= 57) && !(48 <= data[j] <= 57)
    ensures DigitsEnd(data, from) == j
    decreases j - from
  {
    if from < j {
      DigitsEndIs(data, from + 1, j);
    }
  }

  // Digits after ESC [ that anything but `~` ends make the ESC bare.
  lemma UnendedNumberIsBare(digits: Bytes, b: byte, rest: Bytes)
    requires Numbers(digits) && !(48 <= b <= 57) && b != TILDE
    ensures Scan([27, BRACKET] + digits + [b] + rest) ==
      Scan([BRACKET] + digits + [b] + rest).After(Ascii("[ESC]"))
  {
    var data := [27, BRACKET] + digits + [b] + rest;
    DigitsEndIs(data, 2, |digits| + 2);
    BareEscape(data);
    assert data[1..] == [BRACKET] + digits + [b] + rest;
  }

  // A key number from 1 to 6, any zeros before it, and the name it is shown under.
  predicate KeyName(digits: Bytes, name: string) {
    && Numbers(digits) && (forall i :: 0 <= i < |digits| - 1 ==> digits[i] == 48)
    && (digits[|digits| - 1], name) in
         {(49, "[HOME]"), (50, "[INSERT]"), (51, "[DEL]"), (52, "[END]"), (53, "[PGUP]"), (54, "[PGDN]")}
  }

  lemma {:induction false} ZerosAreNothing(digits: Bytes)
    requires Numbers(digits)
    ensures Number(digits) == 0 <==> forall i :: 0 <= i < |digits| ==> digits[i] == 48
    decreases digits
  {
    var init := digits[..|digits| - 1];
    if init != [] {
      ZerosAreNothing(init);
      assert forall i :: 0 <= i < |init| ==> init[i] == digits[i];
    }
  }

  lemma SmallNumber(digits: Bytes)
    requires Numbers(digits)
    ensures var last := digits[|digits| - 1];
      if forall i :: 0 <= i < |digits| - 1 ==> digits[i] == 48 then Number(digits) == last as nat - 48
      else Number(digits) >= 10
  {
    var init := digits[..|digits| - 1];
    if init != [] {
      ZerosAreNothing(init);
      assert forall i :: 0 <= i < |init| ==> init[i] == digits[i];
    }
  }

  lemma NumberedKey(digits: Bytes, rest: Bytes)
    requires Numbers(digits)
    ensures Scan([27, BRACKET] + digits + [TILDE] + rest) == Scan(rest).After(KeyTag(digits))
  {
    var data := [27, BRACKET] + digits + [TILDE];
    DigitsEndIs(data, 2, |digits| + 2);
    assert data[2..|digits| + 2] == digits;
    FirstToken(data, rest, KeyTag(digits));
  }

  lemma KeyTagIsName(digits: Bytes, name: string)
    requires KeyName(digits, name)
    ensures Plain(name) && KeyTag(digits) == Ascii(name)
  {
    SmallNumber(digits);
  }

  lemma OtherTagIsNumber(digits: Bytes)
    requires Numbers(digits) && forall n :: !KeyName(digits, n)
    ensures KeyTag(digits) == Ascii("[CSI-") + digits + Ascii("~]")
  {
    SmallNumber(digits);
    assert !KeyName(digits, "[HOME]") && !KeyName(digits, "[INSERT]") && !KeyName(digits, "[DEL]");
    assert !KeyName(digits, "[END]") && !KeyName(digits, "[PGUP]") && !KeyName(digits, "[PGDN]");
  }

  // ESC [ digits ~ is the key of that number, and shown by its number if it is none of the six.
  lemma NumberedKeyIsShown(digits: Bytes, name: string, rest: Bytes)
    requires Numbers(digits) && Plain(name)
    ensures KeyName(digits, name) ==>
      Scan([27, BRACKET] + digits + [TILDE] + rest) == Scan(rest).After(Ascii(name))
    ensures (forall n :: !KeyName(digits, n)) ==>
      Scan([27, BRACKET] + digits + [TILDE] + rest) == Scan(rest).After(Ascii("[CSI-") + digits + Ascii("~]"))
  {
    NumberedKey(digits, rest);
    if KeyName(digits, name) {
      KeyTagIsName(digits, name);
    }
    if forall n :: !KeyName(digits, n) {
      OtherTagIsNumber(digits);
    }
  }

  // A sequence that the stream ends in is held back whole.
  lemma UnfinishedIsHeld(digits: Bytes)
    requires digits == [] || Numbers(digits)
    ensures Scan([27]) == Scanned([], [27])
    ensures Scan([27, LETTER_O]) == Scanned([], [27, LETTER_O])
    ensures Scan([27, BRACKET] + digits) == Scanned([], [27, BRACKET] + digits)
  {
    CarryScansToItself([27]);
    CarryScansToItself([27, LETTER_O]);
    CarryScansToItself([27, BRACKET] + digits);
  }
}
