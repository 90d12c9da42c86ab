/** How a MuxCon frame is written, and exactly which header lines are read as one. */
module FrameForm {
  import opened Prelude
  import opened PyText
  import opened PyTextLaws
  import opened MuxConFrames

  // A number is written in decimal digits without leading zeros, behind a minus if it is negative.
  lemma NumbersAreWritten(n: nat)
    ensures AllDigits(Str(n)) && Str(n) != "" && DigitsValue(Str(n)) == n
    ensures if n == 0 then Str(n) == "0" else Str(n)[0] != '0' && Str(-(n as int)) == "-" + Str(n)
  {
    DecimalIsCanonical(n);
  }

  // `#stream:TYPE:length:seq:`, the payload as it is, and LF.
  lemma FrameIsWritten(f: Frame)
    requires IsAscii(f.kind)
    ensures var numbers := Str(|f.payload|) + ":" + (Str(f.seqNo) + ":");
      var header := "#" + (Str(f.stream) + ":" + (f.kind + ":" + numbers));
      IsAscii(header) && Encode(f) == Some(ToBytes(header) + f.payload + [10])
  {
    HeaderIsAscii(f.stream, f.kind, |f.payload|, f.seqNo);
    FourFields(Str(f.stream), f.kind, Str(|f.payload|), Str(f.seqNo));
  }

  lemma FourFields(a: string, b: string, c: string, d: string)
    ensures MuxConFrames.Join([a, b, c, d], "") == a + ":" + (b + ":" + (c + ":" + (d + ":")))
  {
    OneField(d, []);
    OneField(c, [d]);
    OneField(b, [c, d]);
    OneField(a, [b, c, d]);
    assert d + ":" + "" == d + ":";
  }

  lemma OneField(field: string, fields: seq<string>)
    ensures MuxConFrames.Join([field] + fields, "") == field + ":" + MuxConFrames.Join(fields, "")
    ensures [field] + [] == [field]
  {
    assert ([field] + fields)[1..] == fields;
  }

  // ------------------------------------------------------------------ header lines

  // The text is `#` and four fields without a colon, of which the first and the last two are numerals;
  // what follows the fourth begins with a colon.
  predicate IsHeader(text: string, a: string, kind: string, l: string, q: string, tail: string, p: Parsed) {
    && text == "#" + (a + ":" + (kind + ":" + (l + ":" + (q + tail))))
    && ':' !in a && ':' !in kind && ':' !in l && ':' !in q && (tail == "" || tail[0] == ':')
    && PyInt(a) == Some(p.stream) && kind == p.kind && PyInt(l) == Some(p.length) && PyInt(q) == Some(p.seqNo)
  }

  function Rejoin(parts: seq<string>): string
    requires parts != []
  {
    if |parts| == 1 then parts[0] else parts[0] + ":" + Rejoin(parts[1..])
  }

  lemma CutAtColon(s: string, at: nat)
    requires at < |s| && s[at] == ':'
    ensures s == s[..at] + ":" + s[at + 1..]
  {
  }

  lemma RejoinStep(part: string, parts: seq<string>)
    requires parts != []
    ensures Rejoin([part] + parts) == part + ":" + Rejoin(parts)
  {
    assert ([part] + parts)[1..] == parts;
  }

  lemma RejoinedAt(s: string, at: nat, parts: seq<string>)
    requires at < |s| && s[at] == ':' && parts != [] && Rejoin(parts) == s[at + 1..]
    ensures Rejoin([s[..at]] + parts) == s
  {
    RejoinStep(s[..at], parts);
    CutAtColon(s, at);
  }

  lemma {:induction false} SplitIsShort(s: string, limit: nat)
    ensures 1 <= |MuxConFrames.Split(s, limit)| <= limit + 1
    decreases limit
  {
    if limit > 0 && FirstColon(s).Some? {
      SplitIsShort(s[FirstColon(s).value + 1..], limit - 1);
    }
  }

  lemma {:induction false} SplitRejoins(s: string, limit: nat)
    ensures MuxConFrames.Split(s, limit) != [] && Rejoin(MuxConFrames.Split(s, limit)) == s
    decreases limit
  {
    if limit > 0 && FirstColon(s).Some? {
      var at := FirstColon(s).value;
      SplitRejoins(s[at + 1..], limit - 1);
      RejoinedAt(s, at, MuxConFrames.Split(s[at + 1..], limit - 1));
    }
  }

  // What follows the fourth of the parts.
  function TailOf(parts: seq<string>): string
    requires |parts| == 4 || |parts| == 5
  {
    if |parts| == 4 then "" else ":" + parts[4]
  }

  lemma PartsOfHeader(parts: seq<string>)
    requires |parts| == 4 || |parts| == 5
    ensures Rejoin(parts) == parts[0] + ":" + (parts[1] + ":" + (parts[2] + ":" + (parts[3] + TailOf(parts))))
  {
    LastParts(parts[3..]);
    assert parts[1..][1..][1..] == parts[3..];
    assert parts[1..][0] == parts[1] && parts[1..][1..][0] == parts[2];
    assert Rejoin(parts[1..][1..]) == parts[2] + ":" + Rejoin(parts[3..]);
    assert Rejoin(parts[1..]) == parts[1] + ":" + Rejoin(parts[1..][1..]);
  }

  lemma LastParts(parts: seq<string>)
    requires |parts| == 1 || |parts| == 2
    ensures Rejoin(parts) == if |parts| == 1 then parts[0] + "" else parts[0] + (":" + parts[1])
  {
    if |parts| == 2 {
      assert Rejoin(parts[1..]) == parts[1];
      assert parts[0] + ":" + parts[1] == parts[0] + (":" + parts[1]);
    }
  }

  lemma LastSplits(q: string, tail: string)
    requires ':' !in q && (tail == "" || tail[0] == ':')
    ensures MuxConFrames.Split(q + tail, 1) == [q] + (if tail == "" then [] else [tail[1..]])
  {
    if tail == "" {
      assert q + tail == q;
    } else {
      assert q + tail == q + ":" + tail[1..];
      MuxConFrames.SplitStep(q, tail[1..], 1);
    }
  }

  lemma FieldSplits(field: string, rest: string, limit: nat, parts: seq<string>)
    requires ':' !in field && limit > 0 && MuxConFrames.Split(rest, limit - 1) == parts
    ensures MuxConFrames.Split(field + ":" + rest, limit) == [field] + parts
  {
    MuxConFrames.SplitStep(field, rest, limit);
  }

  lemma ThreeFirst(a: string, b: string, c: string, parts: seq<string>)
    ensures [a] + ([b] + ([c] + parts)) == [a, b, c] + parts
  {
  }

  lemma HeaderSplits(a: string, kind: string, l: string, last: string, parts: seq<string>)
    requires ':' !in a && ':' !in kind && ':' !in l && MuxConFrames.Split(last, 1) == parts
    ensures MuxConFrames.Split(a + ":" + (kind + ":" + (l + ":" + last)), 4) == [a, kind, l] + parts
  {
    FieldSplits(l, last, 2, parts);
    FieldSplits(kind, l + ":" + last, 3, [l] + parts);
    FieldSplits(a, kind + ":" + (l + ":" + last), 4, [kind] + ([l] + parts));
    ThreeFirst(a, kind, l, parts);
  }

  lemma FormOfParts(text: string, parts: seq<string>, p: Parsed)
    requires (|parts| == 4 || |parts| == 5) && text == "#" + Rejoin(parts) && ParseFields(parts) == Some(p)
    requires ':' !in parts[0] && ':' !in parts[1] && ':' !in parts[2] && ':' !in parts[3]
    ensures IsHeader(text, parts[0], p.kind, parts[2], parts[3], TailOf(parts), p)
  {
    PartsOfHeader(parts);
  }

  lemma FieldsHoldNoColon(s: string, parts: seq<string>)
    requires parts == MuxConFrames.Split(s, 4) && |parts| >= 4
    ensures forall i :: 0 <= i < 4 ==> ':' !in parts[i]
  {
    forall i | 0 <= i < 4 ensures ':' !in parts[i] {
      PartsHoldNoColon(s, 4, i);
    }
  }

  lemma FormOfSplit(s: string, parts: seq<string>, p: Parsed)
    requires parts == MuxConFrames.Split(s, 4) && ParseFields(parts) == Some(p)
    ensures exists a, l, q, tail :: IsHeader("#" + s, a, p.kind, l, q, tail, p)
  {
    SplitRejoins(s, 4);
    SplitIsShort(s, 4);
    FieldsHoldNoColon(s, parts);
    FormOfParts("#" + s, parts, p);
  }

  lemma ReadLineHasTheForm(text: string, p: Parsed)
    requires text != "" && text[0] == '#' && ParseFields(MuxConFrames.Split(text[1..], 4)) == Some(p)
    ensures exists a, l, q, tail :: IsHeader(text, a, p.kind, l, q, tail, p)
  {
    assert text == "#" + text[1..];
    FormOfSplit(text[1..], MuxConFrames.Split(text[1..], 4), p);
  }

  // A line is read as this header if and only if it is ASCII and, spaces around it trimmed, has that form.
  lemma HeaderIsReadExactly(line: Bytes, p: Parsed)
    ensures ParseHeader(line) == Some(p) <==>
      && DecodeAscii(line).Some?
      && exists a, l, q, tail :: IsHeader(Strip(Chars(line)), a, p.kind, l, q, tail, p)
  {
    var text := Strip(Chars(line));
    if ParseHeader(line) == Some(p) {
      ReadLineHasTheForm(text, p);
    }
    if DecodeAscii(line).Some? {
      if a, l, q, tail :| IsHeader(text, a, p.kind, l, q, tail, p) {
        assert text[1..] == a + ":" + (p.kind + ":" + (l + ":" + (q + tail)));
        LastSplits(q, tail);
        HeaderSplits(a, p.kind, l, q + tail, [q] + (if tail == "" then [] else [tail[1..]]));
      }
    }
  }

  // -------------------------------------------------------------------- the reader

  // A header line on the wire: `#`, then four stretches without a colon, each closed by one.
  function Line(f: seq<Bytes>): Bytes {
    if f == [] then [] else f[0] + [58] + Line(f[1..])
  }

  lemma {:induction false} LineIsPassed(f: seq<Bytes>, behind: Bytes)
    requires forall i :: 0 <= i < |f| ==> 58 !in f[i]
    ensures PastColons(Line(f) + behind, |f|) == Some(|Line(f)|)
    decreases f
  {
    if f != [] {
      PastColonsStep(f[0], Line(f[1..]) + behind, |f|);
      Regroup(f[0] + [58], Line(f[1..]), behind);
      LineIsPassed(f[1..], behind);
    }
  }

  lemma HashIsPassed(line: Bytes, behind: Bytes)
    requires PastColons(line + behind, 4) == Some(|line|)
    ensures PastColons([35] + line + behind, 4) == Some(|line| + 1)
  {
    assert ([35] + line + behind)[1..] == line + behind;
  }

  // What the reader does with bytes that hold no `#`, a header line and whatever is behind it: it drops the
  // bytes; a line that is no header is dropped too; otherwise as many bytes as the header says, or none
  // if it says less than one, are the payload, and one more byte, whichever it is, ends the frame.
  lemma ReaderStopsBehindTheFrame(junk: Bytes, f: seq<Bytes>, behind: Bytes)
    requires 35 !in junk && |f| == 4 && forall i :: 0 <= i < 4 ==> 58 !in f[i]
    ensures ReadFrame(junk + ([35] + Line(f) + behind)) ==
      match ParseHeader([35] + Line(f))
      case None => BadHeader(behind)
      case Some(p) =>
        var size := if p.length > 0 then p.length else 0;
        if |behind| <= size then Incomplete else Got(p, behind[..size], behind[size + 1..])
  {
    var line := [35] + Line(f);
    LineIsPassed(f, behind);
    HashIsPassed(Line(f), behind);
    ReadSkipsJunk(junk, line + behind);
    assert SkipToHash(line + behind) == line + behind;
    assert (line + behind)[..|line|] == line && (line + behind)[|line|..] == behind;
  }
}
