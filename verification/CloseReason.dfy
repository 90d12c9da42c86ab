/** UTF-8 (section 3 of RFC 3629) over Unicode scalar values, as Python's `str.encode` and
    `bytes.decode("utf-8", "ignore")` use it. */
module Utf8 {
  import opened Prelude

  newtype scalar = c: int | 0 <= c < 0xD800 || 0xE000 <= c < 0x11_0000

  type Text = seq<scalar>

  function EncodeOne(c: scalar): (b: Bytes)
    ensures 1 <= |b| <= 4
  {
    var n := c as int;
    if n < 0x80 then [n as byte]
    else if n < 0x800 then [(0xC0 + n / 0x40) as byte, Tail(n)]
    else if n < 0x1_0000 then [(0xE0 + n / 0x1000) as byte, Tail(n / 0x40), Tail(n)]
    else [(0xF0 + n / 0x4_0000) as byte, Tail(n / 0x1000), Tail(n / 0x40), Tail(n)]
  }

  function Tail(n: nat): (b: byte)
    ensures Continues(b)
  {
    (0x80 + n % 0x40) as byte
  }

  function Encode(t: Text): Bytes {
    if t == [] then [] else EncodeOne(t[0]) + Encode(t[1..])
  }

  predicate Continues(b: byte) { 0x80 <= b < 0xC0 }

  // The low six bits of a continuation byte.
  function Low(b: byte): nat
    requires Continues(b)
  {
    b as nat - 0x80
  }

  // A value read from `length` bytes counts when no shorter form holds it and it is a scalar.
  function Checked(value: nat, length: nat): Option<scalar> {
    var least := if length == 2 then 0x80 else if length == 3 then 0x800 else 0x1_0000;
    if least <= value && (value < 0xD800 || 0xE000 <= value < 0x11_0000) then Some(value as scalar) else None
  }

  // The character at the front of `b`, if its bytes are well formed and all there.
  function DecodeOne(b: Bytes): Option<scalar>
    requires b != []
  {
    var lead := b[0] as nat;
    if lead < 0x80 then Some(lead as scalar)
    else if lead < 0xC0 || lead >= 0xF8 then None
    else if lead < 0xE0 then
      if |b| < 2 || !Continues(b[1]) then None
      else Checked((lead - 0xC0) * 0x40 + Low(b[1]), 2)
    else if lead < 0xF0 then
      if |b| < 3 || !Continues(b[1]) || !Continues(b[2]) then None
      else Checked((lead - 0xE0) * 0x1000 + Low(b[1]) * 0x40 + Low(b[2]), 3)
    else
      if |b| < 4 || !Continues(b[1]) || !Continues(b[2]) || !Continues(b[3]) then None
      else Checked((lead - 0xF0) * 0x4_0000 + Low(b[1]) * 0x1000 + Low(b[2]) * 0x40 + Low(b[3]), 4)
  }

  function Width(lead: byte): (n: nat)
    ensures 1 <= n <= 4
  {
    if lead < 0x80 then 1 else if lead < 0xE0 then 2 else if lead < 0xF0 then 3 else 4
  }

  // `decode("utf-8", "ignore")`: bytes that start no character are skipped.
  function Decode(b: Bytes): Text
    decreases |b|
  {
    if b == [] then []
    else
      match DecodeOne(b)
      case None => Decode(b[1..])
      case Some(c) =>
        if |b| < Width(b[0]) then [] else [c] + Decode(b[Width(b[0])..])
  }

  lemma OneRoundTrip(c: scalar, rest: Bytes)
    ensures DecodeOne(EncodeOne(c) + rest) == Some(c)
    ensures Width((EncodeOne(c) + rest)[0]) == |EncodeOne(c)|
  {
    var n, b := c as int, EncodeOne(c) + rest;
    if 0x80 <= n < 0x800 {
      assert (b[0] as nat, b[1] as nat) == (0xC0 + n / 0x40, 0x80 + n % 0x40);
    } else if 0x800 <= n < 0x1_0000 {
      ThreeBytes(n);
      assert (b[0] as nat, b[1], b[2]) == (0xE0 + n / 0x1000, Tail(n / 0x40), Tail(n));
    } else if n >= 0x1_0000 {
      FourBytes(n);
      assert (b[0] as nat, b[1], b[2], b[3]) == (0xF0 + n / 0x4_0000, Tail(n / 0x1000), Tail(n / 0x40), Tail(n));
    }
  }

  lemma ThreeBytes(n: nat)
    ensures n / 0x1000 * 0x1000 + Low(Tail(n / 0x40)) * 0x40 + Low(Tail(n)) == n
  {
    assert n / 0x40 / 0x40 == n / 0x1000;
  }

  lemma FourBytes(n: nat)
    ensures n / 0x4_0000 * 0x4_0000 + Low(Tail(n / 0x1000)) * 0x1000 + Low(Tail(n / 0x40)) * 0x40 + Low(Tail(n)) == n
  {
    assert n / 0x1000 / 0x40 == n / 0x4_0000;
    ThreeBytes(n);
  }

  // The bytes of a scalar value are those of section 3 of RFC 3629: one below 0x80, else a lead byte that
  // tells how many follow, and six bits in each of those, highest first.
  lemma BytesAreUtf8(c: scalar)
    ensures var n, b := c as int, EncodeOne(c);
      && (forall i :: 1 <= i < |b| ==> 128 <= b[i] as int < 192)
      && (n < 128 ==> |b| == 1 && b[0] as int == n)
      && (128 <= n < 2048 ==> |b| == 2 && 64 * (b[0] as int - 192) + (b[1] as int - 128) == n)
      && (2048 <= n < 65536 ==>
            |b| == 3 && 4096 * (b[0] as int - 224) + 64 * (b[1] as int - 128) + (b[2] as int - 128) == n)
      && (65536 <= n ==>
            |b| == 4 && 262144 * (b[0] as int - 240) + 4096 * (b[1] as int - 128) + 64 * (b[2] as int - 128)
                        + (b[3] as int - 128) == n)
  {
    var n := c as int;
    ThreeBytes(n);
    FourBytes(n);
  }

  lemma DecodeStep(c: scalar, rest: Bytes)
    ensures Decode(EncodeOne(c) + rest) == [c] + Decode(rest)
  {
    OneRoundTrip(c, rest);
    var b := EncodeOne(c) + rest;
    assert b[Width(b[0])..] == rest;
  }

  // A character cut short leaves nothing behind.
  lemma PartIsIgnored(c: scalar, n: nat)
    requires n < |EncodeOne(c)|
    ensures Decode(EncodeOne(c)[..n]) == []
  {
    var part := EncodeOne(c)[..n];
    if n > 0 {
      assert DecodeOne(part) == None;
      ContinuationsAreIgnored(part[1..]);
    }
  }

  lemma {:induction false} ContinuationsAreIgnored(b: Bytes)
    requires forall i :: 0 <= i < |b| ==> Continues(b[i])
    ensures Decode(b) == []
  {
    if b != [] {
      ContinuationsAreIgnored(b[1..]);
    }
  }

  lemma {:induction false} RoundTrip(t: Text)
    ensures Decode(Encode(t)) == t
  {
    if t != [] {
      RoundTrip(t[1..]);
      DecodeStep(t[0], Encode(t[1..]));
    }
  }

  // Two texts with the same bytes are the same text.
  lemma Injective(a: Text, b: Text)
    requires Encode(a) == Encode(b)
    ensures a == b
  {
    RoundTrip(a);
    RoundTrip(b);
  }

  // `m` is the longest prefix of `t` whose bytes fit in `limit`.
  ghost predicate LongestFit(t: Text, limit: nat, m: Text) {
    && m <= t
    && |Encode(m)| <= limit
    && forall j :: 0 <= j <= |t| && |Encode(t[..j])| <= limit ==> j <= |m|
  }

  lemma FitGrows(c: scalar, t: Text, limit: nat, m: Text)
    requires |EncodeOne(c)| <= limit && LongestFit(t, limit - |EncodeOne(c)|, m)
    ensures LongestFit([c] + t, limit, [c] + m)
  {
    var whole := [c] + t;
    assert ([c] + m)[1..] == m;
    forall j | 0 <= j <= |whole| && |Encode(whole[..j])| <= limit ensures j <= |m| + 1 {
      if j > 0 {
        assert whole[..j][1..] == t[..j - 1];
      }
    }
  }

  lemma FitStops(c: scalar, t: Text, limit: nat)
    requires |EncodeOne(c)| > limit
    ensures LongestFit([c] + t, limit, [])
  {
    var whole := [c] + t;
    forall j | 0 < j <= |whole| ensures |Encode(whole[..j])| > limit {
      assert whole[..j][0] == c;
    }
  }

  // Cutting the bytes anywhere and decoding what is left keeps the longest prefix that fits.
  lemma {:induction false} CutKeepsLongestFit(t: Text, limit: nat)
    requires limit <= |Encode(t)|
    ensures LongestFit(t, limit, Decode(Encode(t)[..limit]))
  {
    if t != [] {
      var one, rest := EncodeOne(t[0]), Encode(t[1..]);
      assert t == [t[0]] + t[1..];
      if limit < |one| {
        assert (one + rest)[..limit] == one[..limit];
        PartIsIgnored(t[0], limit);
        FitStops(t[0], t[1..], limit);
      } else {
        assert (one + rest)[..limit] == one + rest[..limit - |one|];
        DecodeStep(t[0], rest[..limit - |one|]);
        CutKeepsLongestFit(t[1..], limit - |one|);
        FitGrows(t[0], t[1..], limit, Decode(rest[..limit - |one|]));
      }
    }
  }
}

/** The one-line sentence of an access decision, `AccessDecision.message` in
    `openmux/server/access_decision.py`. */
module CloseReason {
  import opened Prelude
  import opened Utf8

  const MESSAGE_LIMIT := 123
  const CR: scalar := 0x0D
  const LF: scalar := 0x0A
  const SPACE: scalar := 0x20

  function Replace(t: Text, from: scalar, to: scalar): (r: Text)
    ensures |r| == |t|
    ensures forall i :: 0 <= i < |t| ==> r[i] == if t[i] == from then to else t[i]
  {
    if t == [] then [] else [if t[0] == from then to else t[0]] + Replace(t[1..], from, to)
  }

  // The sentence with a space for every CR and LF.
  predicate Flattens(sentence: Text, line: Text) {
    && |line| == |sentence|
    && forall i :: 0 <= i < |line| ==> line[i] == if sentence[i] == 13 || sentence[i] == 10 then 32 else sentence[i]
  }

  function OneLine(sentence: Text): Text { Replace(Replace(sentence, CR, SPACE), LF, SPACE) }

  function Cut(b: Bytes, limit: nat): Bytes { if |b| <= limit then b else b[..limit] }

  function Message(sentence: Text): Text {
    Decode(Cut(Encode(OneLine(sentence)), MESSAGE_LIMIT))
  }

  // The message is the longest prefix of the one-line sentence that fits in the limit, so a
  // sentence that fits is sent whole.
  lemma MessageIsLongestFit(sentence: Text) returns (line: Text)
    ensures Flattens(sentence, line) && LongestFit(line, 123, Message(sentence))
    ensures Message(sentence) == line <==> |Encode(line)| <= 123
  {
    line := OneLine(sentence);
    if |Encode(line)| <= MESSAGE_LIMIT {
      RoundTrip(line);
    } else {
      CutKeepsLongestFit(line, MESSAGE_LIMIT);
    }
  }

  // As the reason of a close frame, after the two bytes of its status code, it keeps to the size of a
  // control frame (section 5.5 of RFC 6455) and stays on one line.
  lemma MessageFitsACloseFrame(sentence: Text)
    ensures 2 + |Encode(Message(sentence))| <= 125
    ensures 13 !in Message(sentence) && 10 !in Message(sentence)
  {
    var line := MessageIsLongestFit(sentence);
    forall i | 0 <= i < |Message(sentence)| ensures Message(sentence)[i] != CR && Message(sentence)[i] != LF {
      assert Message(sentence)[i] == line[i];
    }
  }
}
