/** The MuxCon frames of `openmux/server/muxcon_protocol.py` and the frame reader of
    `openmux/server/adapters/muxcon.py`: `#sid:TYPE:len:seq:` payload, newline. */
module MuxConFrames {
  import opened Prelude
  import opened PyText
  import Utf8

  const HASH: byte := 0x23
  const COLON: byte := 0x3A
  const LF: byte := 0x0A

  datatype Frame = Frame(stream: int, kind: string, seqNo: int, payload: Bytes)

  predicate IsAscii(s: string) { forall i :: 0 <= i < |s| ==> s[i] as int < 0x80 }

  // ---------------------------------------------------------------- encoders

  // `str(n)`.
  function Str(n: int): string { if n < 0 then "-" + Decimal(-n) else Decimal(n) }

  // Every field followed by a colon, then `tail`.
  function Join(fields: seq<string>, tail: string): string {
    if fields == [] then tail else fields[0] + ":" + Join(fields[1..], tail)
  }

  function Fields(stream: int, kind: string, length: nat, seqNo: int): seq<string> {
    [Str(stream), kind, Str(length), Str(seqNo)]
  }

  function Header(stream: int, kind: string, length: nat, seqNo: int): string {
    "#" + Join(Fields(stream, kind, length, seqNo), "")
  }

  function ToBytes(s: string): (b: Bytes)
    requires IsAscii(s)
    ensures |b| == |s| && forall i :: 0 <= i < |s| ==> b[i] as int == s[i] as int
  {
    seq(|s|, i requires 0 <= i < |s| => s[i] as int as byte)
  }

  // A header that is not ASCII cannot be encoded: None stands for UnicodeEncodeError.
  function Encode(f: Frame): Option<Bytes> {
    var header := Header(f.stream, f.kind, |f.payload|, f.seqNo);
    if IsAscii(header) then Some(ToBytes(header) + f.payload + [LF]) else None
  }

  function UpperChar(c: char): char { if 'a' <= c <= 'z' then (c as int - 32) as char else c }

  function Upper(s: string): string { seq(|s|, i requires 0 <= i < |s| => UpperChar(s[i])) }

  function ControlFrame(stream: int, seqNo: int, text: Utf8.Text): Frame {
    Frame(stream, "C", seqNo, Utf8.Encode(text))
  }

  // `str.upper`, of which only what it does to ASCII text is known.
  ghost predicate Uppers(upper: string -> string) { forall s :: IsAscii(s) ==> upper(s) == Upper(s) }

  function CommandFrame(upper: string -> string, command: string, stream: int, seqNo: int, text: Utf8.Text): Frame {
    Frame(stream, upper(command), seqNo, Utf8.Encode(text))
  }

  function DataFrame(stream: int, seqNo: int, data: Bytes): Frame { Frame(stream, "D", seqNo, data) }

  function OpenFrame(stream: int, seqNo: int, port: Utf8.Text): Frame {
    Frame(stream, "O", seqNo, Utf8.Encode(port))
  }

  function CloseFrame(stream: int, seqNo: int, reason: Utf8.Text): Frame {
    Frame(stream, "E", seqNo, Utf8.Encode(reason))
  }

  function AckFrame(acked: int, seqNo: int): Frame {
    StrIsPlain(acked);
    Frame(0, "A", seqNo, ToBytes(Str(acked)))
  }

  // ------------------------------------------------------------ header parser

  // `s.split(":", limit)`.
  function Split(s: string, limit: nat): (parts: seq<string>)
    decreases limit
  {
    if limit == 0 then [s]
    else
      match FirstColon(s)
      case None => [s]
      case Some(at) => [s[..at]] + Split(s[at + 1..], limit - 1)
  }

  function FirstColon(s: string): (at: Option<nat>)
    ensures at.Some? ==> at.value < |s| && s[at.value] == ':' && ':' !in s[..at.value]
    ensures at.None? ==> ':' !in s
  {
    if s == "" then None
    else if s[0] == ':' then Some(0)
    else
      match FirstColon(s[1..])
      case None => None
      case Some(at) => Some(at + 1)
  }

  function DecodeAscii(b: Bytes): Option<string> {
    if forall i :: 0 <= i < |b| ==> b[i] < 0x80 then Some(Chars(b)) else None
  }

  function Chars(b: Bytes): (s: string)
    ensures |s| == |b| && forall i :: 0 <= i < |b| ==> s[i] as int == b[i] as int
  {
    seq(|b|, i requires 0 <= i < |b| => b[i] as int as char)
  }

  datatype Parsed = Parsed(stream: int, kind: string, length: int, seqNo: int)

  function ParseFields(parts: seq<string>): Option<Parsed> {
    if |parts| < 4 then None
    else
      match (PyInt(parts[0]), PyInt(parts[2]), PyInt(parts[3]))
      case (Some(stream), Some(length), Some(seqNo)) => Some(Parsed(stream, parts[1], length, seqNo))
      case _ => None
  }

  function ParseHeader(line: Bytes): Option<Parsed> {
    match DecodeAscii(line)
    case None => None
    case Some(text) =>
      var s := Strip(text);
      if s == "" || s[0] != '#' then None else ParseFields(Split(s[1..], 4))
  }

  // --------------------------------------------------------- numbers and text

  // A written number holds digits and a sign only, and reads back as itself.
  lemma StrIsPlain(n: int)
    ensures IsAscii(Str(n)) && ':' !in Str(n) && '#' !in Str(n)
    ensures PyInt(Str(n)) == Some(n)
  {
    if n < 0 {
      DecimalIsDigits(-n);
      MinusIsPlain(Decimal(-n), n);
    } else {
      DecimalIsDigits(n);
      DecimalRoundTrip(n);
      DigitsArePlain(Decimal(n));
    }
  }

  lemma DigitsArePlain(s: string)
    requires AllDigits(s)
    ensures IsAscii(s) && ':' !in s && '#' !in s
  {
  }

  lemma MinusIsPlain(digits: string, n: int)
    requires digits != "" && AllDigits(digits) && DigitsValue(digits) == -n
    ensures IsAscii("-" + digits) && ':' !in "-" + digits && '#' !in "-" + digits
    ensures PyInt("-" + digits) == Some(n)
  {
    DigitsArePlain(digits);
    NumeralOfDigits(digits);
    StripMinus(digits);
    assert ("-" + digits)[1..] == digits;
  }

  lemma StripMinus(digits: string)
    requires digits != "" && AllDigits(digits)
    ensures Strip("-" + digits) == "-" + digits
  {
    assert StripLeft("-" + digits) == "-" + digits;
  }

  lemma {:induction false} StripRightStops(kept: string, tail: string)
    requires kept != "" && !IsSpace(kept[|kept| - 1])
    ensures StripRight(kept + tail) == kept + StripRight(tail)
    decreases tail
  {
    if tail == "" {
      assert kept + tail == kept;
    } else if IsSpace(tail[|tail| - 1]) {
      assert (kept + tail)[..|kept + tail| - 1] == kept + tail[..|tail| - 1];
      StripRightStops(kept, tail[..|tail| - 1]);
    }
  }

  lemma {:induction false} FirstColonAt(part: string, rest: string)
    requires ':' !in part
    ensures FirstColon(part + ":" + rest) == Some(|part|)
  {
    var s := part + ":" + rest;
    if part != "" {
      FirstColonAt(part[1..], rest);
      assert s[0] == part[0];
      assert s[1..] == part[1..] + ":" + rest;
    }
  }

  predicate ColonFree(fields: seq<string>) { forall i :: 0 <= i < |fields| ==> ':' !in fields[i] }

  predicate AllAscii(fields: seq<string>) { forall i :: 0 <= i < |fields| ==> IsAscii(fields[i]) }

  lemma SplitStep(part: string, rest: string, limit: nat)
    requires ':' !in part && limit > 0
    ensures Split(part + ":" + rest, limit) == [part] + Split(rest, limit - 1)
  {
    var s := part + ":" + rest;
    FirstColonAt(part, rest);
    assert s[..|part|] == part && s[|part| + 1..] == rest;
  }

  lemma {:induction false} SplitOfJoin(fields: seq<string>, tail: string)
    requires ColonFree(fields)
    ensures Split(Join(fields, tail), |fields|) == fields + [tail]
    decreases fields
  {
    if fields != [] {
      SplitStep(fields[0], Join(fields[1..], tail), |fields|);
      SplitOfJoin(fields[1..], tail);
      Uncons(fields, tail);
    }
  }

  lemma Uncons(fields: seq<string>, tail: string)
    requires fields != []
    ensures [fields[0]] + (fields[1..] + [tail]) == fields + [tail]
  {
  }

  lemma {:induction false} JoinTail(fields: seq<string>, tail: string, more: string)
    ensures Join(fields, tail) + more == Join(fields, tail + more)
    decreases fields
  {
    if fields != [] {
      JoinTail(fields[1..], tail, more);
      Regroup(fields[0] + ":", Join(fields[1..], tail), more);
    }
  }

  lemma {:induction false} JoinEnds(fields: seq<string>)
    requires fields != []
    ensures Join(fields, "") != "" && Join(fields, "")[|Join(fields, "")| - 1] == ':'
    decreases fields
  {
    if |fields| > 1 {
      JoinEnds(fields[1..]);
    }
  }

  lemma ConcatIsAscii(a: string, b: string)
    ensures IsAscii(a + b) <==> IsAscii(a) && IsAscii(b)
  {
    assert forall i :: 0 <= i < |a| ==> a[i] == (a + b)[i];
    assert forall i :: 0 <= i < |b| ==> b[i] == (a + b)[|a| + i];
  }

  lemma {:induction false} JoinIsAscii(fields: seq<string>)
    ensures IsAscii(Join(fields, "")) <==> AllAscii(fields)
    decreases fields
  {
    if fields != [] {
      JoinIsAscii(fields[1..]);
      ConcatIsAscii(fields[0] + ":", Join(fields[1..], ""));
      ConcatIsAscii(fields[0], ":");
    }
  }

  lemma {:induction false} PartsHoldNoColon(s: string, limit: nat, i: nat)
    requires i < limit && i < |Split(s, limit)|
    ensures ':' !in Split(s, limit)[i]
    decreases limit
  {
    if FirstColon(s).Some? && i > 0 {
      PartsHoldNoColon(s[FirstColon(s).value + 1..], limit - 1, i - 1);
    }
  }

  // ----------------------------------------------------------- header parsing

  lemma CharsOfBytes(s: string, tail: Bytes)
    requires IsAscii(s)
    ensures Chars(ToBytes(s) + tail) == s + Chars(tail)
  {
  }

  // The text left after stripping a header and its tail: the header survives whole.
  lemma HeaderSurvivesStrip(header: string, tail: string)
    requires header != "" && header[0] == '#' && header[|header| - 1] == ':'
    ensures Strip(header + tail) == header + StripRight(tail)
  {
    StripRightStops(header, tail);
  }

  lemma FieldsArePlain(stream: int, kind: string, length: nat, seqNo: int)
    ensures AllAscii(Fields(stream, kind, length, seqNo)) <==> IsAscii(kind)
    ensures ColonFree(Fields(stream, kind, length, seqNo)) <==> ':' !in kind
  {
    StrIsPlain(stream);
    StrIsPlain(length);
    StrIsPlain(seqNo);
    KindDecides(Str(stream), kind, Str(length), Str(seqNo));
  }

  lemma KindDecides(a: string, kind: string, b: string, c: string)
    requires IsAscii(a) && IsAscii(b) && IsAscii(c) && ':' !in a && ':' !in b && ':' !in c
    ensures AllAscii([a, kind, b, c]) <==> IsAscii(kind)
    ensures ColonFree([a, kind, b, c]) <==> ':' !in kind
  {
    assert [a, kind, b, c][1] == kind;
  }

  // Only a type that is not ASCII keeps a frame from being encoded.
  lemma HeaderIsAscii(stream: int, kind: string, length: nat, seqNo: int)
    ensures IsAscii(Header(stream, kind, length, seqNo)) <==> IsAscii(kind)
  {
    var fields := Fields(stream, kind, length, seqNo);
    FieldsArePlain(stream, kind, length, seqNo);
    JoinIsAscii(fields);
    ConcatIsAscii("#", Join(fields, ""));
  }

  lemma HeaderShape(stream: int, kind: string, length: nat, seqNo: int)
    ensures var h := Header(stream, kind, length, seqNo); h != "" && h[0] == '#' && h[|h| - 1] == ':'
  {
    JoinEnds(Fields(stream, kind, length, seqNo));
  }

  lemma HeaderTail(fields: seq<string>, tail: string)
    ensures ("#" + Join(fields, "") + tail)[1..] == Join(fields, tail)
  {
    JoinTail(fields, "", tail);
    assert "" + tail == tail;
    assert ("#" + Join(fields, "") + tail)[1..] == Join(fields, "") + tail;
  }

  // What the parser sees of a header followed by `tail`.
  lemma ParsedText(stream: int, kind: string, length: nat, seqNo: int, tail: Bytes)
    requires IsAscii(Header(stream, kind, length, seqNo)) && DecodeAscii(tail).Some?
    ensures ParseHeader(ToBytes(Header(stream, kind, length, seqNo)) + tail) ==
      ParseFields(Split((Header(stream, kind, length, seqNo) + StripRight(Chars(tail)))[1..], 4))
  {
    var header := Header(stream, kind, length, seqNo);
    assert DecodeAscii(ToBytes(header) + tail) == Some(Chars(ToBytes(header) + tail));
    CharsOfBytes(header, tail);
    HeaderShape(stream, kind, length, seqNo);
    HeaderSurvivesStrip(header, Chars(tail));
  }

  lemma FieldsParse(stream: int, kind: string, length: nat, seqNo: int, tail: string)
    ensures ParseFields(Fields(stream, kind, length, seqNo) + [tail]) == Some(Parsed(stream, kind, length, seqNo))
  {
    StrIsPlain(stream);
    StrIsPlain(length);
    StrIsPlain(seqNo);
  }

  lemma KindHoldsNoColon(s: string)
    ensures ParseFields(Split(s, 4)).Some? ==> ':' !in ParseFields(Split(s, 4)).value.kind
  {
    if |Split(s, 4)| >= 4 {
      PartsHoldNoColon(s, 4, 1);
    }
  }

  // A header followed by any ASCII bytes parses back to exactly its fields when its type holds no
  // colon, and never does otherwise.
  lemma HeaderParses(stream: int, kind: string, length: nat, seqNo: int, tail: Bytes)
    requires IsAscii(kind) && DecodeAscii(tail).Some?
    ensures IsAscii(Header(stream, kind, length, seqNo))
    ensures var line := ToBytes(Header(stream, kind, length, seqNo)) + tail;
      ParseHeader(line) == Some(Parsed(stream, kind, length, seqNo)) <==> ':' !in kind
  {
    var after := StripRight(Chars(tail));
    HeaderIsAscii(stream, kind, length, seqNo);
    ParsedText(stream, kind, length, seqNo, tail);
    if ':' in kind {
      KindHoldsNoColon((Header(stream, kind, length, seqNo) + after)[1..]);
    } else {
      var fields := Fields(stream, kind, length, seqNo);
      HeaderTail(fields, after);
      FieldsArePlain(stream, kind, length, seqNo);
      SplitOfJoin(fields, after);
      FieldsParse(stream, kind, length, seqNo, after);
    }
  }

  // -------------------------------------------------------------- frame reader

  datatype Read =
    | Got(parsed: Parsed, payload: Bytes, rest: Bytes)
    | BadHeader(rest: Bytes)
    | Incomplete

  function SkipToHash(b: Bytes): (r: Bytes)
    ensures r != [] ==> r[0] == HASH
    ensures |r| <= |b|
  {
    if b == [] || b[0] == HASH then b else SkipToHash(b[1..])
  }

  // The bytes up to and including the `n`-th colon.
  function PastColons(b: Bytes, n: nat): (end: Option<nat>)
    ensures end.Some? ==> end.value <= |b|
    decreases |b|
  {
    if n == 0 then Some(0)
    else if b == [] then None
    else
      match PastColons(b[1..], if b[0] == COLON then n - 1 else n)
      case None => None
      case Some(end) => Some(end + 1)
  }

  // `_read_frame_raw`: None from the header parser drops the header only; a length of zero or
  // below reads no payload; one byte, whatever it is, ends the frame.
  function ReadFrame(stream: Bytes): Read {
    var start := SkipToHash(stream);
    match PastColons(start, 4)
    case None => Incomplete
    case Some(end) =>
      match ParseHeader(start[..end])
      case None => BadHeader(start[end..])
      case Some(p) => ReadBody(p, start[end..])
  }

  function ReadBody(p: Parsed, b: Bytes): (r: Read)
    ensures r.Got? ==> |r.rest| < |b|
  {
    var size := if p.length > 0 then p.length else 0;
    if |b| < size + 1 then Incomplete else Got(p, b[..size], b[size + 1..])
  }

  lemma ReadingAdvances(stream: Bytes)
    ensures ReadFrame(stream).Got? ==> |ReadFrame(stream).rest| < |stream|
  {
  }

  // Frames read back to back until the stream ends, is malformed or is cut short.
  function ReadAll(stream: Bytes): seq<Frame>
    decreases |stream|
  {
    match ReadFrame(stream)
    case Got(p, payload, rest) =>
      ReadingAdvances(stream);
      [Frame(p.stream, p.kind, p.seqNo, payload)] + ReadAll(rest)
    case _ => []
  }

  lemma {:induction false} SkipsJunk(junk: Bytes, b: Bytes)
    requires HASH !in junk && b != [] && b[0] == HASH
    ensures SkipToHash(junk + b) == b
  {
    if junk == [] {
      assert junk + b == b;
    } else {
      assert (junk + b)[1..] == junk[1..] + b;
      SkipsJunk(junk[1..], b);
    }
  }

  lemma {:induction false} PastColonsStep(part: Bytes, rest: Bytes, n: nat)
    requires COLON !in part && n > 0
    ensures PastColons(part + [COLON] + rest, n) ==
      match PastColons(rest, n - 1) { case None => None case Some(end) => Some(|part| + 1 + end) }
    decreases part
  {
    var b := part + [COLON] + rest;
    if part == [] {
      assert b[1..] == rest;
    } else {
      assert b[1..] == part[1..] + [COLON] + rest;
      PastColonsStep(part[1..], rest, n);
    }
  }

  lemma NoColonBytes(s: string)
    requires IsAscii(s)
    ensures COLON in ToBytes(s) <==> ':' in s
  {
    if ':' in s {
      var i :| 0 <= i < |s| && s[i] == ':';
      assert ToBytes(s)[i] == COLON;
    }
  }

  // The colons of a header are those that end its fields.
  lemma {:induction false} JoinColons(fields: seq<string>, rest: Bytes)
    requires AllAscii(fields) && ColonFree(fields) && IsAscii(Join(fields, ""))
    ensures PastColons(ToBytes(Join(fields, "")) + rest, |fields|) == Some(|Join(fields, "")|)
    decreases fields
  {
    if fields != [] {
      var after := Join(fields[1..], "");
      JoinIsAscii(fields[1..]);
      NoColonBytes(fields[0]);
      PastColonsStep(ToBytes(fields[0]), ToBytes(after) + rest, |fields|);
      assert ToBytes(Join(fields, "")) + rest == ToBytes(fields[0]) + [COLON] + (ToBytes(after) + rest);
      JoinColons(fields[1..], rest);
    }
  }

  lemma HeaderEnds(stream: int, kind: string, length: nat, seqNo: int, rest: Bytes)
    requires IsAscii(kind) && ':' !in kind
    ensures IsAscii(Header(stream, kind, length, seqNo))
    ensures var header := Header(stream, kind, length, seqNo);
      PastColons(ToBytes(header) + rest, 4) == Some(|header|)
  {
    var fields := Fields(stream, kind, length, seqNo);
    FieldsArePlain(stream, kind, length, seqNo);
    HeaderIsAscii(stream, kind, length, seqNo);
    JoinIsAscii(fields);
    JoinColons(fields, rest);
    HashBytes(Join(fields, ""), rest);
  }

  lemma HashBytes(s: string, rest: Bytes)
    requires IsAscii(s) && IsAscii("#" + s)
    ensures PastColons(ToBytes("#" + s) + rest, 4) ==
      match PastColons(ToBytes(s) + rest, 4) { case None => None case Some(end) => Some(end + 1) }
  {
    assert (ToBytes("#" + s) + rest)[1..] == ToBytes(s) + rest;
  }

  // Reading resumes right behind a header that parses.
  lemma ReadAfterHeader(header: Bytes, p: Parsed, payload: Bytes, rest: Bytes)
    requires header != [] && header[0] == HASH && p.length == |payload| && ParseHeader(header) == Some(p)
    requires PastColons(header + (payload + [LF] + rest), 4) == Some(|header|)
    ensures ReadFrame(header + (payload + [LF] + rest)) == Got(p, payload, rest)
  {
    var behind := payload + [LF] + rest;
    assert SkipToHash(header + behind) == header + behind;
    assert (header + behind)[..|header|] == header;
    assert (header + behind)[|header|..] == behind;
    BodyReads(p, payload, rest);
  }

  lemma BodyReads(p: Parsed, payload: Bytes, rest: Bytes)
    requires p.length == |payload|
    ensures ReadBody(p, payload + [LF] + rest) == Got(p, payload, rest)
  {
    var b := payload + [LF] + rest;
    assert b[..|payload|] == payload && b[|payload| + 1..] == rest;
  }

  lemma ReadSkipsJunk(junk: Bytes, b: Bytes)
    requires HASH !in junk && b != [] && b[0] == HASH
    ensures ReadFrame(junk + b) == ReadFrame(b)
  {
    SkipsJunk(junk, b);
    assert SkipToHash(b) == b;
  }

  // After any bytes that hold no '#', a frame with a colon-free ASCII type is read back whole,
  // whatever its payload holds, and reading goes on right behind it.
  lemma FrameReadsBack(junk: Bytes, f: Frame, rest: Bytes)
    requires HASH !in junk && IsAscii(f.kind) && ':' !in f.kind
    ensures Encode(f).Some?
    ensures ReadFrame(junk + Encode(f).value + rest) ==
      Got(Parsed(f.stream, f.kind, |f.payload|, f.seqNo), f.payload, rest)
  {
    HeaderIsAscii(f.stream, f.kind, |f.payload|, f.seqNo);
    HeaderShape(f.stream, f.kind, |f.payload|, f.seqNo);
    var header := ToBytes(Header(f.stream, f.kind, |f.payload|, f.seqNo));
    HeaderEnds(f.stream, f.kind, |f.payload|, f.seqNo, f.payload + [LF] + rest);
    HeaderParses(f.stream, f.kind, |f.payload|, f.seqNo, []);
    assert header + [] == header;
    WireReadsBack(junk, header, Parsed(f.stream, f.kind, |f.payload|, f.seqNo), f.payload, rest);
  }

  lemma WireReadsBack(junk: Bytes, header: Bytes, p: Parsed, payload: Bytes, rest: Bytes)
    requires HASH !in junk
    requires header != [] && header[0] == HASH && p.length == |payload| && ParseHeader(header) == Some(p)
    requires PastColons(header + (payload + [LF] + rest), 4) == Some(|header|)
    ensures ReadFrame(junk + (header + payload + [LF]) + rest) == Got(p, payload, rest)
  {
    Regroup(junk, header + (payload + [LF]), rest);
    Regroup(header, payload + [LF], rest);
    assert header + payload + [LF] == header + (payload + [LF]);
    ReadAfterHeader(header, p, payload, rest);
    ReadSkipsJunk(junk, header + (payload + [LF] + rest));
  }

  predicate Sendable(frames: seq<Frame>) {
    forall i :: 0 <= i < |frames| ==> IsAscii(frames[i].kind) && ':' !in frames[i].kind
  }

  function EncodeAll(frames: seq<Frame>): Bytes
    requires Sendable(frames)
    decreases frames
  {
    if frames == [] then []
    else
      HeaderIsAscii(frames[0].stream, frames[0].kind, |frames[0].payload|, frames[0].seqNo);
      Encode(frames[0]).value + EncodeAll(frames[1..])
  }

  lemma {:induction false} ReadingUndoesEncoding(frames: seq<Frame>)
    requires Sendable(frames)
    ensures ReadAll(EncodeAll(frames)) == frames
    decreases frames
  {
    if frames != [] {
      ReadsOne(frames[0], EncodeAll(frames[1..]));
      ReadingUndoesEncoding(frames[1..]);
      assert [frames[0]] + frames[1..] == frames;
    }
  }

  lemma ReadsOne(f: Frame, rest: Bytes)
    requires IsAscii(f.kind) && ':' !in f.kind
    ensures Encode(f).Some? && ReadAll(Encode(f).value + rest) == [f] + ReadAll(rest)
  {
    FrameArrives(f, rest);
  }

  // Two lists of frames with the same bytes on the wire are the same list.
  lemma UniquelyDecodable(a: seq<Frame>, b: seq<Frame>)
    requires Sendable(a) && Sendable(b) && EncodeAll(a) == EncodeAll(b)
    ensures a == b
  {
    ReadingUndoesEncoding(a);
    ReadingUndoesEncoding(b);
  }

  lemma ReadKindHoldsNoColon(stream: Bytes)
    ensures ReadFrame(stream).Got? ==> ':' !in ReadFrame(stream).parsed.kind
  {
    var start := SkipToHash(stream);
    var end := PastColons(start, 4);
    if end.Some? {
      HeaderKindHoldsNoColon(start[..end.value]);
    }
  }

  lemma HeaderKindHoldsNoColon(line: Bytes)
    ensures ParseHeader(line).Some? ==> ':' !in ParseHeader(line).value.kind
  {
    var text := DecodeAscii(line);
    if text.Some? && Strip(text.value) != "" {
      KindHoldsNoColon(Strip(text.value)[1..]);
    }
  }

  // Whatever else it holds, a frame arrives as it was sent if and only if its type is ASCII
  // without a colon.
  lemma ArrivesExactly(f: Frame, rest: Bytes)
    ensures Arrives(f, Parsed(f.stream, f.kind, |f.payload|, f.seqNo), f.payload, rest)
      <==> IsAscii(f.kind) && ':' !in f.kind
  {
    if IsAscii(f.kind) && ':' !in f.kind {
      FrameArrives(f, rest);
    } else {
      HeaderIsAscii(f.stream, f.kind, |f.payload|, f.seqNo);
      if Encode(f).Some? {
        ReadKindHoldsNoColon(Encode(f).value + rest);
      }
    }
  }

  lemma UpperIsPlain(s: string)
    ensures |Upper(s)| == |s| && (IsAscii(Upper(s)) <==> IsAscii(s)) && (':' in Upper(s) <==> ':' in s)
  {
    assert forall i :: 0 <= i < |s| ==> (Upper(s)[i] == ':' <==> s[i] == ':');
    assert forall i :: 0 <= i < |s| ==> (Upper(s)[i] as int < 0x80 <==> s[i] as int < 0x80);
    assert ':' in s ==> exists i :: 0 <= i < |s| && Upper(s)[i] == ':';
  }

  // A command frame arrives under the upper-cased command if and only if that is ASCII without a
  // colon. For an ASCII command it is so exactly when the command itself holds no colon.
  lemma CommandFrameArrives(upper: string -> string, command: string, stream: int, seqNo: int, text: Utf8.Text,
                            rest: Bytes)
    ensures var kind, payload := upper(command), Utf8.Encode(text);
      Arrives(CommandFrame(upper, command, stream, seqNo, text), Parsed(stream, kind, |payload|, seqNo), payload, rest)
      <==> IsAscii(kind) && ':' !in kind
    ensures Uppers(upper) && IsAscii(command) ==>
      && IsAscii(upper(command)) && (':' in upper(command) <==> ':' in command) && |upper(command)| == |command|
      && forall i :: 0 <= i < |command| ==>
           var n := command[i] as int; upper(command)[i] as int == if 97 <= n <= 122 then n - 32 else n
  {
    UpperIsPlain(command);
    ArrivesExactly(CommandFrame(upper, command, stream, seqNo, text), rest);
  }

  lemma FrameArrives(f: Frame, rest: Bytes)
    requires IsAscii(f.kind) && ':' !in f.kind
    ensures Arrives(f, Parsed(f.stream, f.kind, |f.payload|, f.seqNo), f.payload, rest)
  {
    FrameReadsBack([], f, rest);
    assert [] + Encode(f).value == Encode(f).value;
  }

  lemma TextFramesArrive(stream: int, seqNo: int, text: Utf8.Text, rest: Bytes)
    ensures var payload := Utf8.Encode(text);
      && Arrives(ControlFrame(stream, seqNo, text), Parsed(stream, "C", |payload|, seqNo), payload, rest)
      && Arrives(OpenFrame(stream, seqNo, text), Parsed(stream, "O", |payload|, seqNo), payload, rest)
      && Arrives(CloseFrame(stream, seqNo, text), Parsed(stream, "E", |payload|, seqNo), payload, rest)
  {
    FrameArrives(ControlFrame(stream, seqNo, text), rest);
    FrameArrives(OpenFrame(stream, seqNo, text), rest);
    FrameArrives(CloseFrame(stream, seqNo, text), rest);
  }

  lemma AckFrameArrives(acked: int, seqNo: int, rest: Bytes) returns (digits: Bytes)
    ensures Chars(digits) == Str(acked)
    ensures Arrives(AckFrame(acked, seqNo), Parsed(0, "A", |digits|, seqNo), digits, rest)
  {
    FrameArrives(AckFrame(acked, seqNo), rest);
    digits := AckFrame(acked, seqNo).payload;
    assert Chars(digits) == Str(acked);
  }

  // What every other encoder sends arrives under its type letter, with its ids and its payload.
  lemma TypedFramesArrive(stream: int, seqNo: int, text: Utf8.Text, data: Bytes, acked: int, rest: Bytes)
    returns (digits: Bytes)
    ensures var payload := Utf8.Encode(text);
      && Arrives(ControlFrame(stream, seqNo, text), Parsed(stream, "C", |payload|, seqNo), payload, rest)
      && Arrives(OpenFrame(stream, seqNo, text), Parsed(stream, "O", |payload|, seqNo), payload, rest)
      && Arrives(CloseFrame(stream, seqNo, text), Parsed(stream, "E", |payload|, seqNo), payload, rest)
    ensures Arrives(DataFrame(stream, seqNo, data), Parsed(stream, "D", |data|, seqNo), data, rest)
    ensures Chars(digits) == Str(acked)
    ensures Arrives(AckFrame(acked, seqNo), Parsed(0, "A", |digits|, seqNo), digits, rest)
  {
    TextFramesArrive(stream, seqNo, text, rest);
    FrameArrives(DataFrame(stream, seqNo, data), rest);
    digits := AckFrameArrives(acked, seqNo, rest);
  }

  predicate Arrives(f: Frame, p: Parsed, payload: Bytes, rest: Bytes) {
    Encode(f).Some? && ReadFrame(Encode(f).value + rest) == Got(p, payload, rest)
  }

  // The text and the acknowledged number inside a frame survive the wire as well.
  lemma TextSurvives(f: Utf8.Text, g: Utf8.Text, m: int, n: int, seqNo: int)
    ensures ControlFrame(0, seqNo, f).payload == ControlFrame(0, seqNo, g).payload ==> f == g
    ensures AckFrame(m, seqNo).payload == AckFrame(n, seqNo).payload ==> m == n
  {
    if Utf8.Encode(f) == Utf8.Encode(g) {
      Utf8.Injective(f, g);
    }
    StrIsPlain(m);
    StrIsPlain(n);
    if ToBytes(Str(m)) == ToBytes(Str(n)) {
      assert Chars(ToBytes(Str(m))) == Str(m);
      assert Chars(ToBytes(Str(n))) == Str(n);
    }
  }

  // ------------------------------------------------------ the reader as a loop

  function Plus(end: Option<nat>, n: nat): Option<nat> { if end.Some? then Some(end.value + n) else None }

  class FrameReader {
    var pending: Bytes // received and not read yet; the stream ends behind it

    constructor (stream: Bytes)
      ensures pending == stream
    {
      pending := stream;
    }

    method SeekHash()
      modifies this
      ensures pending == SkipToHash(old(pending))
    {
      while pending != [] && pending[0] != HASH
        invariant SkipToHash(pending) == SkipToHash(old(pending))
        decreases |pending|
      {
        pending := pending[1..];
      }
    }

    // The bytes up to the fourth colon, or None when the stream ends first.
    method ReadHeader() returns (header: Option<Bytes>)
      modifies this
      ensures PastColons(old(pending), 4).None? <==> header.None?
      ensures header.Some? ==> PastColons(old(pending), 4) == Some(|header.value|)
      ensures old(pending) == (if header.Some? then header.value + pending else old(pending))
      ensures header.None? ==> pending == []
    {
      ghost var start := pending;
      var got: Bytes := [];
      var colons := 0;
      while colons < 4
        invariant colons <= 4 && got + pending == start
        invariant PastColons(start, 4) == Plus(PastColons(pending, 4 - colons), |got|)
        decreases |pending|, 4 - colons
      {
        if pending == [] {
          return None;
        }
        var b := pending[0];
        got, pending := got + [b], pending[1..];
        if b == COLON {
          colons := colons + 1;
        }
      }
      header := Some(got);
    }

    // One frame. At the end of the stream the bytes of an unfinished frame are lost.
    method ReadFrameRaw() returns (r: Read)
      modifies this
      ensures r == ReadFrame(old(pending))
      ensures pending == if r.Incomplete? then [] else r.rest
    {
      SeekHash();
      ghost var start := pending;
      var header := ReadHeader();
      if header.None? {
        return Incomplete;
      }
      SplitsBack(start, header.value, pending);
      var parsed := ParseHeader(header.value);
      if parsed.None? {
        return BadHeader(pending);
      }
      r := ReadBody(parsed.value, pending);
      pending := if r.Got? then r.rest else [];
    }
  }

  lemma SplitsBack(whole: Bytes, front: Bytes, back: Bytes)
    requires whole == front + back
    ensures whole[..|front|] == front && whole[|front|..] == back
  {
  }
}
