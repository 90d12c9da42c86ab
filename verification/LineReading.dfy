/** The log as a reader sees it: the lines that were sent come out as they were, under either line end,
    and every record carries the stamp of the event that completed it. */
module LineReading {
  import opened Prelude
  import opened LineLog

  const NO_LOG := State(map[], map[])

  // ------------------------------------------------------------------ what was sent

  // One line as it is sent, ended by LF or by CR LF.
  datatype SentLine = SentLine(text: Bytes, crlf: bool)
  {
    function OnTheWire(): Bytes { text + (if crlf then [13, 10] else [10]) }

    // It holds no LF, and its own last byte is no CR.
    predicate Plain() { 10 !in text && (text == [] || text[|text| - 1] != 13) }

    function Raw(): Bytes { if crlf then text + [13] else text }
  }

  function Stream(lines: seq<SentLine>, rest: Bytes): Bytes {
    if lines == [] then rest else lines[0].OnTheWire() + Stream(lines[1..], rest)
  }

  function Texts(lines: seq<SentLine>): (texts: seq<Bytes>)
    ensures |texts| == |lines| && forall i :: 0 <= i < |lines| ==> texts[i] == lines[i].text
  {
    seq(|lines|, i requires 0 <= i < |lines| => lines[i].text)
  }

  function Raws(lines: seq<SentLine>): (raws: seq<Bytes>)
    ensures |raws| == |lines| && forall i :: 0 <= i < |lines| ==> raws[i] == lines[i].Raw()
  {
    seq(|lines|, i requires 0 <= i < |lines| => lines[i].Raw())
  }

  lemma {:induction false} StreamIsUnsplit(lines: seq<SentLine>, rest: Bytes)
    ensures Stream(lines, rest) == Unsplit(Raws(lines), rest)
    decreases lines
  {
    if lines != [] {
      StreamIsUnsplit(lines[1..], rest);
      assert Raws(lines)[1..] == Raws(lines[1..]);
      assert lines[0].OnTheWire() == lines[0].Raw() + [10];
    }
  }

  // A CR at the end of a line is dropped, one that is not there is not.
  lemma TrailingCrIsDropped(line: Bytes)
    ensures DropCr(line + [13]) == line
    ensures line == [] || line[|line| - 1] != 13 ==> DropCr(line) == line
  {
  }

  lemma RawsAreTexts(lines: seq<SentLine>)
    requires forall i :: 0 <= i < |lines| ==> lines[i].Plain()
    ensures AllDropCr(Raws(lines)) == Texts(lines)
    ensures forall i :: 0 <= i < |lines| ==> 10 !in Raws(lines)[i]
  {
    forall i | 0 <= i < |lines| ensures DropCr(Raws(lines)[i]) == lines[i].text && 10 !in Raws(lines)[i] {
      TrailingCrIsDropped(lines[i].text);
    }
  }

  // However the bytes are cut into events, whatever other files and meta events come between, and
  // whether its lines end in LF or CR LF, a port's lines are logged as they were sent, and the unfinished
  // one is held back.
  lemma SentLinesAreLogged(events: seq<Event>, path: string, lines: seq<SentLine>, rest: Bytes)
    requires forall i :: 0 <= i < |lines| ==> lines[i].Plain()
    requires 10 !in rest && DataFor(events, path) == Stream(lines, rest)
    ensures TextLines(After(NO_LOG, events).File(path)) == Texts(lines)
    ensures After(NO_LOG, events).Buffer(path) == rest
  {
    RunSplitsTheStream(NO_LOG, events, path);
    assert [] + Stream(lines, rest) == Stream(lines, rest);
    StreamIsUnsplit(lines, rest);
    RawsAreTexts(lines);
    SplitIsUnique(Raws(lines), rest);
    assert [] + Texts(lines) == Texts(lines);
  }

  // ----------------------------------------------------------------------- stamps

  function Feeds(b: Bytes): nat {
    if b == [] then 0 else (if b[0] == 10 then 1 else 0) + Feeds(b[1..])
  }

  function Copies(stamp: Stamp, n: nat): (stamps: seq<Stamp>)
    ensures |stamps| == n && forall i :: 0 <= i < n ==> stamps[i] == stamp
  {
    seq(n, i => stamp)
  }

  // The records an event adds to a file: one for a meta event, one for each LF in its data.
  function StampsOf(e: Event, path: string): seq<Stamp> {
    if e.path != path then [] else if e.stamp.dir == "meta" then [e.stamp] else Copies(e.stamp, Feeds(e.data))
  }

  function AllStamps(events: seq<Event>, path: string): seq<Stamp> {
    if events == [] then [] else StampsOf(events[0], path) + AllStamps(events[1..], path)
  }

  function StampsIn(file: seq<Record>): (stamps: seq<Stamp>)
    ensures |stamps| == |file| && forall i :: 0 <= i < |file| ==> stamps[i] == file[i].stamp
  {
    seq(|file|, i requires 0 <= i < |file| => file[i].stamp)
  }

  lemma {:induction false} FeedsAdd(a: Bytes, b: Bytes)
    ensures Feeds(a + b) == Feeds(a) + Feeds(b)
  {
    if a == [] {
      assert a + b == b;
    } else {
      assert (a + b)[1..] == a[1..] + b;
      FeedsAdd(a[1..], b);
    }
  }

  lemma {:induction false} NoFeeds(b: Bytes)
    requires 10 !in b
    ensures Feeds(b) == 0
  {
    if b != [] {
      NoFeeds(b[1..]);
    }
  }

  lemma {:induction false} OneLineForEachFeed(b: Bytes)
    ensures |Lines(b)| == Feeds(b)
    decreases |b|
  {
    if FirstLf(b).Some? {
      var at := FirstLf(b).value;
      CutAt(b, at);
      NoFeeds(b[..at]);
      FeedsAdd(b[..at] + [10], b[at + 1..]);
      FeedsAdd(b[..at], [10]);
      assert [10][1..] == [] && Feeds([10]) == 1;
      OneLineForEachFeed(b[at + 1..]);
    } else {
      NoFeeds(b);
    }
  }

  lemma AddedStamps(file: seq<Record>, lines: seq<Bytes>, stamp: Stamp)
    ensures StampsIn(file + Stamped(lines, stamp)) == StampsIn(file) + Copies(stamp, |lines|)
    ensures StampsIn(file + [Note(stamp)]) == StampsIn(file) + [stamp]
  {
  }

  lemma CompletedLines(buffer: Bytes, data: Bytes)
    requires 10 !in buffer
    ensures |Lines(buffer + data)| == Feeds(data)
  {
    OneLineForEachFeed(buffer + data);
    FeedsAdd(buffer, data);
    NoFeeds(buffer);
  }

  lemma EventStamps(s: State, e: Event, path: string)
    requires 10 !in s.Buffer(e.path)
    ensures StampsIn(Written(s, e).File(path)) == StampsIn(s.File(path)) + StampsOf(e, path)
  {
    var lines := Lines(s.Buffer(e.path) + e.data);
    CompletedLines(s.Buffer(e.path), e.data);
    AddedStamps(s.File(e.path), lines, e.stamp);
    if e.path != path {
      assert StampsIn(s.File(path)) + [] == StampsIn(s.File(path));
    }
  }

  lemma BuffersStayUnended(s: State, e: Event, q: string)
    requires 10 !in s.Buffer(q)
    ensures 10 !in Written(s, e).Buffer(q)
  {
  }

  // Over every run each record of a file carries the stamp of the event that completed it: the records
  // come in the order of the events, one for each meta event and one for each LF of the port data.
  lemma {:induction false} RecordsCarryTheirStamps(s: State, events: seq<Event>, path: string)
    requires forall q :: 10 !in s.Buffer(q)
    ensures StampsIn(After(s, events).File(path)) == StampsIn(s.File(path)) + AllStamps(events, path)
    decreases events
  {
    if events != [] {
      var e, next := events[0], Written(s, events[0]);
      EventStamps(s, e, path);
      forall q ensures 10 !in next.Buffer(q) {
        BuffersStayUnended(s, e, q);
      }
      RecordsCarryTheirStamps(next, events[1..], path);
      Regroup(StampsIn(s.File(path)), StampsOf(e, path), AllStamps(events[1..], path));
    }
  }
}
