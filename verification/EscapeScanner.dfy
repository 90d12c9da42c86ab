/** The in-band control-menu escape of a listener session: the byte scanner, the
    chunk loop and the pump, against one scan of the whole incoming stream. */
module EscapeScanner {
  import opened Prelude

  // The two escape bytes and how much of a sequence has been seen (0, 1 or 2).
  datatype Escape = Escape(char1: byte, char2: byte, state: nat)
  {
    // The bytes absorbed so far.
    function Held(): Bytes {
      if state == 0 then [] else if state == 1 then [char1] else [char1, char2]
    }
  }

  datatype Event =
    | Forward(b: byte)               // handed to the port
    | Command(c: byte)               // dispatched to the control menu
    | Rebind(char1: byte, char2: byte)

  const KEY_E: byte := 'e' as int as byte
  const KEY_F: byte := 'f' as int as byte
  const KEY_P: byte := 'p' as int as byte
  const KEY_DOT: byte := '.' as int as byte

  // Disconnect, or a prompt that reads the transport on its own.
  predicate EndsScan(c: byte) { c == KEY_DOT || c == KEY_F || c == KEY_P }

  datatype Fed = Fed(escape: Escape, extra: Bytes, command: Option<byte>)

  function Feed(e: Escape, b: byte): Fed {
    if e.state == 0 then
      if b == e.char1 then Fed(e.(state := 1), [], None) else Fed(e, [b], None)
    else if e.state == 1 then
      if b == e.char2 then Fed(e.(state := 2), [], None) else Fed(e.(state := 0), [e.char1, b], None)
    else Fed(e.(state := 0), [], Some(b))
  }

  function Forwards(bytes: Bytes): seq<Event> {
    if bytes == [] then [] else [Forward(bytes[0])] + Forwards(bytes[1..])
  }

  // What a scan did: its events, where it stands, the bytes it left unread and,
  // when the stream ends inside the arguments of `e`, the bytes it swallowed.
  datatype Trace = Trace(events: seq<Event>, escape: Escape, unread: Bytes, swallowed: Bytes)
  {
    function After(first: seq<Event>): Trace { this.(events := first + events) }
  }

  function Scan(e: Escape, stream: Bytes): Trace
    decreases |stream|, 0
  {
    if stream == [] then Trace([], e, [], [])
    else
      var fed, rest := Feed(e, stream[0]), stream[1..];
      match fed.command
      case None => Scan(fed.escape, rest).After(Forwards(fed.extra))
      case Some(c) => ScanCommand(fed.escape, c, rest)
  }

  // From a completed command on; the scanner is back in state 0.
  function ScanCommand(e: Escape, c: byte, rest: Bytes): Trace
    decreases |rest|, 1
  {
    if c == KEY_E then
      if |rest| < 2 then Trace([], e, [], [e.char1, e.char2, KEY_E] + rest)
      else Scan(e.(char1 := rest[0], char2 := rest[1]), rest[2..]).After([Rebind(rest[0], rest[1])])
    else if EndsScan(c) then Trace([Command(c)], e, rest, [])
    else Scan(e, rest).After([Command(c)])
  }

  // --------------------------------------------------------------- lossless

  // The bytes a client must have sent to cause an event, and the pair in force after it.
  function Sent(char1: byte, char2: byte, ev: Event): Bytes {
    match ev
    case Forward(b) => [b]
    case Command(c) => [char1, char2, c]
    case Rebind(a, b) => [char1, char2, KEY_E, a, b]
  }

  function PairAfter(char1: byte, char2: byte, ev: Event): (byte, byte) {
    if ev.Rebind? then (ev.char1, ev.char2) else (char1, char2)
  }

  function Replay(char1: byte, char2: byte, events: seq<Event>): Bytes
    decreases events
  {
    if events == [] then []
    else
      var pair := PairAfter(char1, char2, events[0]);
      Sent(char1, char2, events[0]) + Replay(pair.0, pair.1, events[1..])
  }

  lemma ReplayOne(char1: byte, char2: byte, ev: Event, events: seq<Event>)
    ensures var pair := PairAfter(char1, char2, ev);
      Replay(char1, char2, [ev] + events) == Sent(char1, char2, ev) + Replay(pair.0, pair.1, events)
  {
    assert ([ev] + events)[1..] == events;
  }

  lemma Prepend(bytes: Bytes, more: Bytes)
    requires bytes != []
    ensures [bytes[0]] + (bytes[1..] + more) == bytes + more
  {
  }

  lemma {:induction false} ReplayForwards(char1: byte, char2: byte, bytes: Bytes, events: seq<Event>)
    ensures Replay(char1, char2, Forwards(bytes) + events) == bytes + Replay(char1, char2, events)
    decreases bytes
  {
    if bytes == [] {
      assert Forwards(bytes) + events == events;
    } else {
      var tail := Forwards(bytes[1..]) + events;
      ReplayForwards(char1, char2, bytes[1..], events);
      assert Forwards(bytes) + events == [Forward(bytes[0])] + tail;
      calc {
        Replay(char1, char2, Forwards(bytes) + events);
        { ReplayOne(char1, char2, Forward(bytes[0]), tail); }
        [bytes[0]] + Replay(char1, char2, tail);
        { Prepend(bytes, Replay(char1, char2, events)); }
        bytes + Replay(char1, char2, events);
      }
    }
  }

  lemma FeedHolds(e: Escape, b: byte)
    requires e.state <= 2
    ensures var fed := Feed(e, b);
      && fed.escape.state <= 2 && fed.escape.char1 == e.char1 && fed.escape.char2 == e.char2
      && (fed.command.None? ==> e.Held() + [b] == fed.extra + fed.escape.Held())
      && (fed.command.Some? ==>
            e.Held() + [b] == [e.char1, e.char2, fed.command.value] && fed.escape.Held() == [])
  {
  }

  function Accounted(e: Escape, t: Trace): Bytes {
    Replay(e.char1, e.char2, t.events) + t.escape.Held() + t.swallowed + t.unread
  }

  lemma AccountedAfter(e: Escape, next: Escape, first: seq<Event>, bytes: Bytes, t: Trace)
    requires Replay(e.char1, e.char2, first + t.events) == bytes + Replay(next.char1, next.char2, t.events)
    ensures Accounted(e, t.After(first)) == bytes + Accounted(next, t)
  {
  }

  lemma Uncons(held: Bytes, stream: Bytes)
    requires stream != []
    ensures held + stream == held + [stream[0]] + stream[1..]
  {
  }

  // No byte is lost, duplicated or reordered: what was held, followed by the
  // stream, is the replay of the events, then what is held or was swallowed,
  // then what was left unread.
  lemma {:induction false} ScanIsLossless(e: Escape, stream: Bytes)
    requires e.state <= 2
    ensures e.Held() + stream == Accounted(e, Scan(e, stream))
    decreases |stream|, 0
  {
    if stream != [] {
      var fed, rest := Feed(e, stream[0]), stream[1..];
      FeedHolds(e, stream[0]);
      Uncons(e.Held(), stream);
      if fed.command.None? {
        ScanIsLossless(fed.escape, rest);
        PlainIsLossless(e, stream[0], rest, Scan(fed.escape, rest));
      } else {
        CommandIsLossless(fed.escape, fed.command.value, rest);
      }
    }
  }

  lemma PlainIsLossless(e: Escape, b: byte, rest: Bytes, t: Trace)
    requires e.state <= 2 && Feed(e, b).command.None?
    requires Feed(e, b).escape.Held() + rest == Accounted(Feed(e, b).escape, t)
    ensures e.Held() + [b] + rest == Accounted(e, t.After(Forwards(Feed(e, b).extra)))
  {
    var fed := Feed(e, b);
    FeedHolds(e, b);
    Regroup(fed.extra, fed.escape.Held(), rest);
    ReplayForwards(e.char1, e.char2, fed.extra, t.events);
    AccountedAfter(e, fed.escape, Forwards(fed.extra), fed.extra, t);
  }

  lemma {:induction false} CommandIsLossless(e: Escape, c: byte, rest: Bytes)
    requires e.state == 0
    ensures [e.char1, e.char2, c] + rest == Accounted(e, ScanCommand(e, c, rest))
    decreases |rest|, 1
  {
    if c == KEY_E {
      if |rest| >= 2 {
        var next := e.(char1 := rest[0], char2 := rest[1]);
        ScanIsLossless(next, rest[2..]);
        RebindIsLossless(e, next, rest, Scan(next, rest[2..]));
      }
    } else if EndsScan(c) {
      EndIsLossless(e, c, rest);
    } else {
      ScanIsLossless(e, rest);
      ActionIsLossless(e, c, rest, Scan(e, rest));
    }
  }

  lemma RebindIsLossless(e: Escape, next: Escape, rest: Bytes, t: Trace)
    requires e.state == 0 && |rest| >= 2 && next == e.(char1 := rest[0], char2 := rest[1])
    requires next.Held() + rest[2..] == Accounted(next, t)
    ensures [e.char1, e.char2, KEY_E] + rest == Accounted(e, t.After([Rebind(rest[0], rest[1])]))
  {
    ReplayOne(e.char1, e.char2, Rebind(rest[0], rest[1]), t.events);
    AccountedAfter(e, next, [Rebind(rest[0], rest[1])], [e.char1, e.char2, KEY_E, rest[0], rest[1]], t);
    assert rest == [rest[0], rest[1]] + rest[2..];
  }

  lemma EndIsLossless(e: Escape, c: byte, rest: Bytes)
    requires e.state == 0
    ensures [e.char1, e.char2, c] + rest == Accounted(e, Trace([Command(c)], e, rest, []))
  {
    ReplayOne(e.char1, e.char2, Command(c), []);
    assert [Command(c)] + [] == [Command(c)];
  }

  lemma ActionIsLossless(e: Escape, c: byte, rest: Bytes, t: Trace)
    requires e.state == 0 && e.Held() + rest == Accounted(e, t)
    ensures [e.char1, e.char2, c] + rest == Accounted(e, t.After([Command(c)]))
  {
    ReplayOne(e.char1, e.char2, Command(c), t.events);
    AccountedAfter(e, e, [Command(c)], [e.char1, e.char2, c], t);
  }

  function Weight(ev: Event): nat {
    match ev
    case Forward(_) => 1
    case Command(_) => 3
    case Rebind(_, _) => 5
  }

  function Weights(events: seq<Event>): nat {
    if events == [] then 0 else Weight(events[0]) + Weights(events[1..])
  }

  lemma {:induction false} ReplayWeighs(char1: byte, char2: byte, events: seq<Event>)
    ensures |Replay(char1, char2, events)| == Weights(events)
    decreases events
  {
    if events != [] {
      var pair := PairAfter(char1, char2, events[0]);
      ReplayWeighs(pair.0, pair.1, events[1..]);
    }
  }

  // Bytes consumed = one per byte handed on, three per command, two more for the
  // arguments of a completed `e`, plus the scanner state number, plus what an
  // `e` cut off by the end of the stream swallowed.
  lemma BytesAreAccountedFor(e: Escape, stream: Bytes)
    requires e.state <= 2
    ensures var t := Scan(e, stream);
      e.state + (|stream| - |t.unread|) == Weights(t.events) + t.escape.state + |t.swallowed|
  {
    ScanIsLossless(e, stream);
    StateStays(e, stream);
    ReplayWeighs(e.char1, e.char2, Scan(e, stream).events);
  }

  lemma {:induction false} StateStays(e: Escape, stream: Bytes)
    requires e.state <= 2
    ensures Scan(e, stream).escape.state <= 2
    decreases |stream|
  {
    if stream != [] {
      var fed, rest := Feed(e, stream[0]), stream[1..];
      if fed.command == Some(KEY_E) && |rest| >= 2 {
        StateStays(fed.escape.(char1 := rest[0], char2 := rest[1]), rest[2..]);
      } else {
        StateStays(fed.escape, rest);
      }
    }
  }

  // ------------------------------------------------------------- the session

  class EscapeState {
    var escapeChar1: byte
    var escapeChar2: byte
    var state: nat

    constructor ()
      ensures Value() == Escape(0x05, 'c' as int as byte, 0)
    {
      escapeChar1, escapeChar2, state := 0x05, 'c' as int as byte, 0;
    }

    function Value(): Escape
      reads this
    {
      Escape(escapeChar1, escapeChar2, state)
    }
  }

  method FeedEscapeByte(state: EscapeState, b: byte) returns (extra: Bytes, cmd: Option<byte>)
    modifies state
    ensures Fed(state.Value(), extra, cmd) == Feed(old(state.Value()), b)
  {
    if state.state == 0 {
      if b == state.escapeChar1 {
        state.state := 1;
        return [], None;
      }
      return [b], None;
    }
    if state.state == 1 {
      state.state := 0;
      if b == state.escapeChar2 {
        state.state := 2;
        return [], None;
      }
      return [state.escapeChar1, b], None;
    }
    state.state := 0;
    return [], Some(b);
  }

  // The client's bytes still to come. `cuts` decides how many each read returns.
  class ByteTransport {
    var incoming: Bytes
    var cuts: seq<nat>

    constructor (incoming: Bytes, cuts: seq<nat>)
      ensures this.incoming == incoming
    {
      this.incoming, this.cuts := incoming, cuts;
    }

    // Some of the next bytes, at most `n`; none exactly at the end.
    method Read(n: nat) returns (data: Bytes)
      requires n > 0
      modifies this
      ensures data + incoming == old(incoming) && |data| <= n
      ensures data == [] <==> old(incoming) == []
    {
      var k := 1;
      if cuts != [] {
        k, cuts := if cuts[0] > 0 then cuts[0] else 1, cuts[1..];
      }
      k := if k > n then n else k;
      k := if k > |incoming| then |incoming| else k;
      data, incoming := incoming[..k], incoming[k..];
    }

    // Exactly `n` bytes; a stream that ends first is consumed and gives None.
    method ReadExactly(n: nat) returns (data: Option<Bytes>)
      modifies this
      ensures |old(incoming)| >= n ==> data == Some(old(incoming)[..n]) && incoming == old(incoming)[n..]
      ensures |old(incoming)| < n ==> data == None && incoming == []
    {
      if |incoming| < n {
        data, incoming := None, [];
      } else {
        data, incoming := Some(incoming[..n]), incoming[n..];
      }
    }
  }

  class ListenerSession {
    const escape: EscapeState
    const transport: ByteTransport
    var events: seq<Event>
    var bytesIn: nat

    constructor (escape: EscapeState, transport: ByteTransport)
      ensures this.escape == escape && this.transport == transport && events == []
    {
      this.escape, this.transport := escape, transport;
      events, bytesIn := [], 0;
    }

    method ForwardPayload(payload: Bytes)
      modifies this`events
      ensures events == old(events) + Forwards(payload)
    {
      events := events + Forwards(payload);
    }

    // The buffer to go on scanning; None when the stream ended first.
    method ChangeEscapeSequence(data: Bytes, i: nat) returns (remaining: Bytes)
      requires i <= |data|
      modifies this`events, escape, transport
      ensures var all := data[i..] + old(transport.incoming);
        if |all| < 2 then
          && remaining == [] && transport.incoming == [] && events == old(events)
          && escape.Value() == old(escape.Value())
        else
          && remaining + transport.incoming == all[2..]
          && events == old(events) + [Rebind(all[0], all[1])]
          && escape.Value() == old(escape.Value()).(char1 := all[0], char2 := all[1])
      ensures |transport.incoming| <= |old(transport.incoming)|
    {
      remaining := data[i..];
      if |remaining| < 2 {
        var more := transport.ReadExactly(2 - |remaining|);
        if more.Some? {
          remaining := remaining + more.value;
        }
      }
      if |remaining| < 2 {
        return [];
      }
      escape.escapeChar1, escape.escapeChar2 := remaining[0], remaining[1];
      events := events + [Rebind(remaining[0], remaining[1])];
      return remaining[2..];
    }

    // A completed command: rebind, or dispatch to the control menu.
    method RunCommand(c: byte, data: Bytes, i: nat) returns (stop: bool, remaining: Bytes)
      requires i <= |data| && escape.state == 0
      modifies this`events, escape, transport
      ensures |remaining| + |transport.incoming| <= |data| - i + |old(transport.incoming)|
      ensures |transport.incoming| <= |old(transport.incoming)|
      ensures var t := ScanCommand(old(escape.Value()), c, data[i..] + old(transport.incoming));
        if stop then events == old(events) + t.events && escape.Value() == t.escape
        else
          var u := Scan(escape.Value(), remaining + transport.incoming);
          old(events) + t.events == events + u.events && t.escape == u.escape
    {
      if c == KEY_E {
        remaining := ChangeEscapeSequence(data, i);
        return false, remaining;
      }
      events := events + [Command(c)];
      return EndsScan(c), data[i..];
    }

    method ProcessInputChunk(chunk: Bytes) returns (stop: bool)
      modifies this`events, escape, transport
      ensures |transport.incoming| <= |old(transport.incoming)|
      ensures var t := Scan(old(escape.Value()), chunk + old(transport.incoming));
        if stop then events == old(events) + t.events && escape.Value() == t.escape
        else
          var u := Scan(escape.Value(), transport.incoming);
          old(events) + t.events == events + u.events && t.escape == u.escape
    {
      ghost var goal := Outcome(events, [], escape.Value(), chunk + transport.incoming);
      NothingHeldBack(events, escape.Value(), chunk + transport.incoming);
      var data, i, payload := chunk, 0, [];
      while i < |data|
        invariant i <= |data| && |transport.incoming| <= |old(transport.incoming)|
        invariant Outcome(events, payload, escape.Value(), data[i..] + transport.incoming) == goal
        decreases |data| - i + |transport.incoming|
      {
        var b := data[i];
        ghost var e, rest := escape.Value(), data[i + 1..] + transport.incoming;
        assert data[i..] + transport.incoming == [b] + rest;
        var extra, cmd := FeedEscapeByte(escape, b);
        i := i + 1;
        if cmd.None? {
          PlainByte(events, payload, e, b, rest);
          payload := payload + extra;
        } else {
          CommandByte(events, payload, e, b, rest);
          NothingHeldBack(events, e, rest);
          if payload != [] {
            ForwardPayload(payload);
            payload := [];
          }
          stop, data := RunCommand(cmd.value, data, i);
          i := 0;
          if stop {
            return;
          }
          NothingHeldBack(events, escape.Value(), data + transport.incoming);
          assert data[0..] == data;
        }
      }
      assert data[i..] + transport.incoming == transport.incoming;
      ForwardPayload(payload);
      return false;
    }

    // However the transport cuts the stream, the session sees the same events
    // as one scan of it, across every change of the escape pair.
    method Pump()
      modifies this, escape, transport
      ensures events == old(events) + Scan(old(escape.Value()), old(transport.incoming)).events
      ensures escape.Value() == Scan(old(escape.Value()), old(transport.incoming)).escape
    {
      ghost var t := Scan(escape.Value(), transport.incoming);
      ghost var before := events;
      while true
        invariant before + t.events == events + Scan(escape.Value(), transport.incoming).events
        invariant t.escape == Scan(escape.Value(), transport.incoming).escape
        decreases |transport.incoming|
      {
        var data := transport.Read(4096);
        if data == [] {
          break;
        }
        bytesIn := bytesIn + |data|;
        var stop := ProcessInputChunk(data);
        if stop {
          return;
        }
      }
    }
  }

  // Where a session ends up that has made `events`, holds back `payload` and scans on.
  function Outcome(events: seq<Event>, payload: Bytes, e: Escape, stream: Bytes): (seq<Event>, Escape) {
    (events + Forwards(payload) + Scan(e, stream).events, Scan(e, stream).escape)
  }

  lemma NothingHeldBack(events: seq<Event>, e: Escape, stream: Bytes)
    ensures events + Forwards([]) == events
    ensures Outcome(events, [], e, stream) == (events + Scan(e, stream).events, Scan(e, stream).escape)
  {
  }

  lemma PlainByte(events: seq<Event>, payload: Bytes, e: Escape, b: byte, rest: Bytes)
    requires Feed(e, b).command.None?
    ensures Outcome(events, payload, e, [b] + rest) ==
      Outcome(events, payload + Feed(e, b).extra, Feed(e, b).escape, rest)
  {
    assert ([b] + rest)[1..] == rest;
    ForwardsSplit(payload, Feed(e, b).extra);
    Regroup(events, Forwards(payload), Forwards(Feed(e, b).extra));
    Regroup(events + Forwards(payload), Forwards(Feed(e, b).extra), Scan(Feed(e, b).escape, rest).events);
  }

  lemma CommandByte(events: seq<Event>, payload: Bytes, e: Escape, b: byte, rest: Bytes)
    requires Feed(e, b).command.Some?
    ensures var t := ScanCommand(Feed(e, b).escape, Feed(e, b).command.value, rest);
      Outcome(events, payload, e, [b] + rest) == (events + Forwards(payload) + t.events, t.escape)
  {
    assert ([b] + rest)[1..] == rest;
  }

  lemma {:induction false} ForwardsSplit(a: Bytes, b: Bytes)
    ensures Forwards(a + b) == Forwards(a) + Forwards(b)
  {
    if a == [] {
      assert a + b == b;
    } else {
      assert (a + b)[1..] == a[1..] + b;
      ForwardsSplit(a[1..], b);
    }
  }
}
