/** The line format of `openmux/server/data_logger.py`: port data is buffered per file until a
    newline, meta events are written at once. */
module LineLog {
  import opened Prelude

  const LF: byte := 0x0A
  const CR: byte := 0x0D

  datatype Stamp = Stamp(ts: int, port: string, dir: string, client: string)
  {
    predicate Meta() { dir == "meta" }
  }

  datatype Event = Event(path: string, stamp: Stamp, data: Bytes)

  // A record of a log file: a line of port data, stamped by the event that completed it, or a meta event.
  datatype Record = Line(text: Bytes, stamp: Stamp) | Note(stamp: Stamp)

  datatype State = State(buffers: map<string, Bytes>, files: map<string, seq<Record>>)
  {
    function Buffer(path: string): Bytes { if path in buffers then buffers[path] else [] }
    function File(path: string): seq<Record> { if path in files then files[path] else [] }
  }

  // ---------------------------------------------------------------- splitting

  function FirstLf(b: Bytes): (at: Option<nat>)
    ensures at.Some? ==> at.value < |b| && b[at.value] == LF && LF !in b[..at.value]
    ensures at.None? <==> LF !in b
  {
    if b == [] then None
    else if b[0] == LF then Some(0)
    else
      match FirstLf(b[1..])
      case None => None
      case Some(at) => Some(at + 1)
  }

  // The newline-terminated lines of `b`, without their newlines.
  function Lines(b: Bytes): (lines: seq<Bytes>)
    ensures forall i :: 0 <= i < |lines| ==> LF !in lines[i]
    decreases |b|
  {
    match FirstLf(b)
    case None => []
    case Some(at) => [b[..at]] + Lines(b[at + 1..])
  }

  // What follows the last newline.
  function Rest(b: Bytes): (rest: Bytes)
    ensures LF !in rest
    decreases |b|
  {
    match FirstLf(b)
    case None => b
    case Some(at) => Rest(b[at + 1..])
  }

  function Unsplit(lines: seq<Bytes>, rest: Bytes): Bytes {
    if lines == [] then rest else lines[0] + [LF] + Unsplit(lines[1..], rest)
  }

  function DropCr(line: Bytes): Bytes {
    if line != [] && line[|line| - 1] == CR then line[..|line| - 1] else line
  }

  function Stamped(lines: seq<Bytes>, stamp: Stamp): seq<Record> {
    seq(|lines|, i requires 0 <= i < |lines| => Line(DropCr(lines[i]), stamp))
  }

  function AllDropCr(lines: seq<Bytes>): (r: seq<Bytes>)
    ensures |r| == |lines| && forall i :: 0 <= i < |lines| ==> r[i] == DropCr(lines[i])
  {
    seq(|lines|, i requires 0 <= i < |lines| => DropCr(lines[i]))
  }

  // Splitting is the only way to read bytes as LF-free lines and an LF-free rest.
  lemma {:induction false} SplitAccountsForEveryByte(b: Bytes)
    ensures Unsplit(Lines(b), Rest(b)) == b
    decreases |b|
  {
    if FirstLf(b).Some? {
      var at := FirstLf(b).value;
      var line, behind := b[..at], b[at + 1..];
      SplitAccountsForEveryByte(behind);
      UnsplitStep(line, Lines(behind), Rest(behind));
      CutAt(b, at);
    }
  }

  lemma CutAt(b: Bytes, at: nat)
    requires at < |b| && b[at] == LF
    ensures b == b[..at] + [LF] + b[at + 1..]
  {
  }

  lemma UnsplitStep(line: Bytes, lines: seq<Bytes>, rest: Bytes)
    ensures Unsplit([line] + lines, rest) == line + [LF] + Unsplit(lines, rest)
  {
    assert ([line] + lines)[1..] == lines;
  }

  lemma {:induction false} SplitIsUnique(lines: seq<Bytes>, rest: Bytes)
    requires LF !in rest && forall i :: 0 <= i < |lines| ==> LF !in lines[i]
    ensures Lines(Unsplit(lines, rest)) == lines && Rest(Unsplit(lines, rest)) == rest
    decreases lines
  {
    if lines != [] {
      var b := Unsplit(lines, rest);
      FirstLfAt(lines[0], Unsplit(lines[1..], rest));
      assert b[..|lines[0]|] == lines[0] && b[|lines[0]| + 1..] == Unsplit(lines[1..], rest);
      SplitIsUnique(lines[1..], rest);
    }
  }

  lemma {:induction false} FirstLfAt(line: Bytes, behind: Bytes)
    requires LF !in line
    ensures FirstLf(line + [LF] + behind) == Some(|line|)
  {
    var b := line + [LF] + behind;
    if line != [] {
      FirstLfAt(line[1..], behind);
      assert b[0] == line[0] && b[1..] == line[1..] + [LF] + behind;
    }
  }

  lemma {:induction false} UnsplitOnward(a: seq<Bytes>, b: seq<Bytes>, rest: Bytes)
    ensures Unsplit(a + b, rest) == Unsplit(a, Unsplit(b, rest))
    decreases a
  {
    if a == [] {
      assert a + b == b;
    } else {
      assert (a + b)[1..] == a[1..] + b;
      UnsplitOnward(a[1..], b, rest);
    }
  }

  lemma {:induction false} UnsplitTail(lines: seq<Bytes>, rest: Bytes, more: Bytes)
    ensures Unsplit(lines, rest) + more == Unsplit(lines, rest + more)
    decreases lines
  {
    if lines != [] {
      UnsplitTail(lines[1..], rest, more);
    }
  }

  // Splitting a stream piece by piece, carrying the rest over, splits the whole.
  lemma SplitInPieces(a: Bytes, b: Bytes)
    ensures Lines(a + b) == Lines(a) + Lines(Rest(a) + b)
    ensures Rest(a + b) == Rest(Rest(a) + b)
  {
    var lines, last := Lines(a) + Lines(Rest(a) + b), Rest(Rest(a) + b);
    SplitAccountsForEveryByte(a);
    SplitAccountsForEveryByte(Rest(a) + b);
    UnsplitTail(Lines(a), Rest(a), b);
    UnsplitOnward(Lines(a), Lines(Rest(a) + b), last);
    SplitIsUnique(lines, last);
  }

  // ------------------------------------------------------------------- events

  function Written(s: State, e: Event): State {
    var buffer := if e.stamp.Meta() then s.Buffer(e.path) else s.Buffer(e.path) + e.data;
    if e.stamp.Meta() then
      State(s.buffers[e.path := buffer], s.files[e.path := s.File(e.path) + [Note(e.stamp)]])
    else
      State(s.buffers[e.path := Rest(buffer)],
            s.files[e.path := s.File(e.path) + Stamped(Lines(buffer), e.stamp)])
  }

  function After(s: State, events: seq<Event>): State
    decreases events
  {
    if events == [] then s else After(Written(s, events[0]), events[1..])
  }

  // The port data an event sends to one file; meta events send none.
  function DataOf(e: Event, path: string): Bytes {
    if e.path == path && !e.stamp.Meta() then e.data else []
  }

  function NoteOf(e: Event, path: string): seq<Stamp> {
    if e.path == path && e.stamp.Meta() then [e.stamp] else []
  }

  function DataFor(events: seq<Event>, path: string): Bytes {
    if events == [] then [] else DataOf(events[0], path) + DataFor(events[1..], path)
  }

  function Notes(events: seq<Event>, path: string): seq<Stamp> {
    if events == [] then [] else NoteOf(events[0], path) + Notes(events[1..], path)
  }

  function TextOf(r: Record): seq<Bytes> { if r.Line? then [r.text] else [] }

  function NoteIn(r: Record): seq<Stamp> { if r.Note? then [r.stamp] else [] }

  function TextLines(file: seq<Record>): seq<Bytes> {
    if file == [] then [] else TextOf(file[0]) + TextLines(file[1..])
  }

  function NoteLines(file: seq<Record>): seq<Stamp> {
    if file == [] then [] else NoteIn(file[0]) + NoteLines(file[1..])
  }

  lemma {:induction false} FileGrows(a: seq<Record>, b: seq<Record>)
    ensures TextLines(a + b) == TextLines(a) + TextLines(b)
    ensures NoteLines(a + b) == NoteLines(a) + NoteLines(b)
  {
    if a == [] {
      assert a + b == b;
    } else {
      assert (a + b)[1..] == a[1..] + b;
      FileGrows(a[1..], b);
      Regroup(TextOf(a[0]), TextLines(a[1..]), TextLines(b));
      Regroup(NoteIn(a[0]), NoteLines(a[1..]), NoteLines(b));
    }
  }

  lemma {:induction false} StampedTexts(lines: seq<Bytes>, stamp: Stamp)
    ensures TextLines(Stamped(lines, stamp)) == AllDropCr(lines)
    ensures NoteLines(Stamped(lines, stamp)) == []
  {
    if lines != [] {
      var line, behind := lines[0], lines[1..];
      assert lines == [line] + behind;
      StampedStep(line, behind, stamp);
      TextsStep(Line(DropCr(line), stamp), Stamped(behind, stamp));
      StampedTexts(behind, stamp);
      DropCrSplits([line], behind);
      assert AllDropCr([line]) == [DropCr(line)];
    }
  }

  lemma TextsStep(r: Record, file: seq<Record>)
    ensures TextLines([r] + file) == TextOf(r) + TextLines(file)
    ensures NoteLines([r] + file) == NoteIn(r) + NoteLines(file)
  {
    assert ([r] + file)[1..] == file;
  }

  lemma DropCrSplits(a: seq<Bytes>, b: seq<Bytes>)
    ensures AllDropCr(a + b) == AllDropCr(a) + AllDropCr(b)
  {
  }

  // One file as a reader of the log sees it, with the bytes held back for it.
  datatype View = View(texts: seq<Bytes>, buffer: Bytes, notes: seq<Stamp>)
  {
    // The split of `data` behind the buffer, and some notes, were added.
    function Plus(data: Bytes, more: seq<Stamp>): View {
      View(texts + AllDropCr(Lines(buffer + data)), Rest(buffer + data), notes + more)
    }
  }

  function ViewOf(s: State, path: string): View {
    View(TextLines(s.File(path)), s.Buffer(path), NoteLines(s.File(path)))
  }

  lemma OneEvent(s: State, e: Event, path: string)
    requires LF !in s.Buffer(path)
    ensures ViewOf(Written(s, e), path) == ViewOf(s, path).Plus(DataOf(e, path), NoteOf(e, path))
  {
    if e.path == path && !e.stamp.Meta() {
      DataLines(s.File(path), Lines(s.Buffer(path) + e.data), e.stamp);
    } else {
      NoData(ViewOf(s, path), NoteOf(e, path));
      if e.path == path {
        NoteLine(s.File(path), e.stamp);
      }
    }
  }

  lemma DataLines(file: seq<Record>, lines: seq<Bytes>, stamp: Stamp)
    ensures TextLines(file + Stamped(lines, stamp)) == TextLines(file) + AllDropCr(lines)
    ensures NoteLines(file + Stamped(lines, stamp)) == NoteLines(file) + []
  {
    FileGrows(file, Stamped(lines, stamp));
    StampedTexts(lines, stamp);
  }

  lemma NoteLine(file: seq<Record>, stamp: Stamp)
    ensures TextLines(file + [Note(stamp)]) == TextLines(file)
    ensures NoteLines(file + [Note(stamp)]) == NoteLines(file) + [stamp]
  {
    FileGrows(file, [Note(stamp)]);
  }

  lemma NoData(v: View, notes: seq<Stamp>)
    requires LF !in v.buffer
    ensures v.Plus([], notes) == v.(notes := v.notes + notes)
  {
    assert v.buffer + [] == v.buffer;
    assert v.texts + AllDropCr([]) == v.texts;
  }

  lemma PlusTwice(v: View, a: Bytes, m: seq<Stamp>, b: Bytes, n: seq<Stamp>)
    ensures v.Plus(a, m).Plus(b, n) == v.Plus(a + b, m + n)
  {
    var before := v.buffer + a;
    Regroup(v.buffer, a, b);
    LinesInPieces(before, b);
    Regroup(v.texts, AllDropCr(Lines(before)), AllDropCr(Lines(Rest(before) + b)));
    Regroup(v.notes, m, n);
  }

  lemma LinesInPieces(a: Bytes, b: Bytes)
    ensures AllDropCr(Lines(a + b)) == AllDropCr(Lines(a)) + AllDropCr(Lines(Rest(a) + b))
    ensures Rest(a + b) == Rest(Rest(a) + b)
  {
    SplitInPieces(a, b);
    DropCrSplits(Lines(a), Lines(Rest(a) + b));
  }

  // Over any run of events for any files: the data lines of a file are the newline split of its
  // port data, one trailing CR dropped from each, however the data was cut into events and
  // whatever meta events and other files came between; the buffer is what follows the last
  // newline; and each meta event is noted once, in order.
  lemma {:induction false} RunSplitsTheStream(s: State, events: seq<Event>, path: string)
    requires LF !in s.Buffer(path)
    ensures ViewOf(After(s, events), path) == ViewOf(s, path).Plus(DataFor(events, path), Notes(events, path))
    decreases events
  {
    if events == [] {
      assert s.Buffer(path) + [] == s.Buffer(path);
    } else {
      OneEvent(s, events[0], path);
      RunSplitsTheStream(Written(s, events[0]), events[1..], path);
      PlusTwice(ViewOf(s, path), DataOf(events[0], path), NoteOf(events[0], path),
                DataFor(events[1..], path), Notes(events[1..], path));
    }
  }

  // Two runs that bring a file the same bytes write the same lines and hold back the same rest.
  lemma ChunkingIsInvisible(s: State, a: seq<Event>, b: seq<Event>, path: string)
    requires LF !in s.Buffer(path) && DataFor(a, path) == DataFor(b, path)
    ensures TextLines(After(s, a).File(path)) == TextLines(After(s, b).File(path))
    ensures After(s, a).Buffer(path) == After(s, b).Buffer(path)
  {
    RunSplitsTheStream(s, a, path);
    RunSplitsTheStream(s, b, path);
  }

  // From an empty log, lines without a carriage return and the buffer give every byte back.
  lemma NoByteIsLost(events: seq<Event>, path: string)
    requires CR !in DataFor(events, path)
    ensures var s := After(State(map[], map[]), events);
      Unsplit(TextLines(s.File(path)), s.Buffer(path)) == DataFor(events, path)
  {
    var stream := DataFor(events, path);
    RunSplitsTheStream(State(map[], map[]), events, path);
    assert [] + stream == stream;
    SplitAccountsForEveryByte(stream);
    UnsplitHolds(Lines(stream), Rest(stream), CR);
    NothingToDrop(Lines(stream));
    assert [] + Lines(stream) == Lines(stream);
  }

  lemma NothingToDrop(lines: seq<Bytes>)
    requires forall i :: 0 <= i < |lines| ==> CR !in lines[i]
    ensures AllDropCr(lines) == lines
  {
    forall i | 0 <= i < |lines| ensures DropCr(lines[i]) == lines[i] {
      assert lines[i] != [] ==> lines[i][|lines[i]| - 1] in lines[i];
    }
  }

  lemma {:induction false} UnsplitHolds(lines: seq<Bytes>, rest: Bytes, b: byte)
    requires b !in Unsplit(lines, rest)
    ensures forall i :: 0 <= i < |lines| ==> b !in lines[i]
    decreases lines
  {
    if lines != [] {
      UnsplitHolds(lines[1..], rest, b);
    }
  }

  // ---------------------------------------------------------------- the logger

  class DataLogger {
    var lineBuffers: map<string, Bytes>
    var files: map<string, seq<Record>>

    constructor ()
      ensures Now() == State(map[], map[])
    {
      lineBuffers, files := map[], map[];
    }

    ghost function Now(): State
      reads this
    {
      State(lineBuffers, files)
    }

    // Writes every complete line of `data` behind `file` and returns what is left.
    static method WriteLines(file: seq<Record>, stamp: Stamp, data: Bytes) returns (grown: seq<Record>, buf: Bytes)
      ensures grown == file + Stamped(Lines(data), stamp)
      ensures buf == Rest(data)
    {
      grown, buf := file, data;
      var at := FirstLf(buf);
      while at.Some?
        invariant at == FirstLf(buf)
        invariant Goal(grown, buf, stamp) == Goal(file, data, stamp)
        invariant Rest(buf) == Rest(data)
        decreases |buf|
      {
        LineWritten(grown, buf, at.value, stamp);
        grown := grown + [Line(DropCr(buf[..at.value]), stamp)];
        buf := buf[at.value + 1..];
        at := FirstLf(buf);
      }
      NoLineLeft(grown, buf, stamp);
    }

    method WriteLineRecord(e: Event)
      modifies this
      ensures Now() == Written(old(Now()), e)
    {
      if e.path !in lineBuffers {
        lineBuffers := lineBuffers[e.path := []];
      }
      var file := if e.path in files then files[e.path] else [];
      if e.stamp.Meta() {
        files := files[e.path := file + [Note(e.stamp)]];
      } else {
        var grown, rest := WriteLines(file, e.stamp, lineBuffers[e.path] + e.data);
        files := files[e.path := grown];
        lineBuffers := lineBuffers[e.path := rest];
      }
    }
  }

  // What a file holds once every line of `buf` is written behind `written`.
  function Goal(written: seq<Record>, buf: Bytes, stamp: Stamp): seq<Record> {
    written + Stamped(Lines(buf), stamp)
  }

  lemma LineWritten(written: seq<Record>, buf: Bytes, at: nat, stamp: Stamp)
    requires FirstLf(buf) == Some(at)
    ensures Goal(written, buf, stamp) == Goal(written + [Line(DropCr(buf[..at]), stamp)], buf[at + 1..], stamp)
    ensures Rest(buf) == Rest(buf[at + 1..])
  {
    var line, lines := buf[..at], Lines(buf[at + 1..]);
    assert Lines(buf) == [line] + lines;
    StampedStep(line, lines, stamp);
    Regroup(written, [Line(DropCr(line), stamp)], Stamped(lines, stamp));
  }

  lemma StampedStep(line: Bytes, lines: seq<Bytes>, stamp: Stamp)
    ensures Stamped([line] + lines, stamp) == [Line(DropCr(line), stamp)] + Stamped(lines, stamp)
  {
  }

  lemma NoLineLeft(written: seq<Record>, buf: Bytes, stamp: Stamp)
    requires FirstLf(buf) == None
    ensures Goal(written, buf, stamp) == written && Rest(buf) == buf
  {
  }
}
