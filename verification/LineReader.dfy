/** Incoming client lines (src/client.c): bytes are read into a fixed buffer and
    complete lines are decoded out of it, at most `maxOut` per call.

    Framing does not depend on where reads happen to be cut: messages delivered,
    followed by those still buffered, are the messages of all bytes received. */
module LineReader {
  import opened Bytes
  import opened Protocol

  const READ_BUF_SIZE := 65536

  type Decoder = seq<Byte> -> Option<Msg>

  ghost predicate NoNewline(s: seq<Byte>, from: nat, to: nat)
    requires to <= |s|
  {
    forall k :: from <= k < to ==> s[k] != NEWLINE
  }

  /** What follows the last newline. */
  ghost function LastLine(s: seq<Byte>): seq<Byte> {
    if s == [] || s[|s| - 1] == NEWLINE then [] else LastLine(s[..|s| - 1]) + [s[|s| - 1]]
  }

  /** The message of one line: nothing for an empty or undecodable line. */
  function OneLine(d: Decoder, line: seq<Byte>): seq<Msg> {
    if line == [] || d(line).None? then [] else [d(line).value]
  }

  /** The messages of all complete lines of a byte stream. */
  ghost function Messages(d: Decoder, s: seq<Byte>): seq<Msg> {
    if s == [] then []
    else
      var init := s[..|s| - 1];
      Messages(d, init) + if s[|s| - 1] == NEWLINE then OneLine(d, LastLine(init)) else []
  }

  ghost predicate Ended(s: seq<Byte>) { s == [] || s[|s| - 1] == NEWLINE }

  /** Complete lines contribute their messages whatever follows them. */
  lemma {:induction false} MessagesAppend(d: Decoder, s: seq<Byte>, t: seq<Byte>)
    requires Ended(s)
    ensures Messages(d, s + t) == Messages(d, s) + Messages(d, t)
    ensures LastLine(s + t) == LastLine(t)
    decreases |t|
  {
    if t == [] {
      assert s + t == s;
    } else {
      var init := t[..|t| - 1];
      assert (s + t)[..|s + t| - 1] == s + init;
      MessagesAppend(d, s, init);
      if t[|t| - 1] == NEWLINE {
        Assoc(Messages(d, s), Messages(d, init), OneLine(d, LastLine(init)));
      }
    }
  }

  /** An unfinished line contributes nothing yet. */
  lemma {:induction false} Unfinished(d: Decoder, s: seq<Byte>, start: nat, i: nat)
    requires start <= i <= |s| && Ended(s[..start]) && NoNewline(s, start, i)
    ensures LastLine(s[..i]) == s[start..i]
    ensures Messages(d, s[..i]) == Messages(d, s[..start])
    decreases i
  {
    if i > start {
      Unfinished(d, s, start, i - 1);
      assert s[..i][..i - 1] == s[..i - 1];
    }
  }

  /** A newline completes the line begun at `start`. */
  lemma {:induction false} LineEnds(d: Decoder, s: seq<Byte>, start: nat, i: nat)
    requires start <= i < |s| && Ended(s[..start]) && NoNewline(s, start, i) && s[i] == NEWLINE
    ensures Ended(s[..i + 1])
    ensures Messages(d, s[..i + 1]) == Messages(d, s[..start]) + OneLine(d, s[start..i])
  {
    Unfinished(d, s, start, i);
    assert s[..i + 1][..i] == s[..i];
  }

  lemma {:induction false} NothingYet(d: Decoder, s: seq<Byte>)
    ensures Ended(s[..0]) && Messages(d, s[..0]) == []
  {
    assert |s[..0]| == 0;
  }

  // ----- What a sender puts on the stream -----

  /** A message, or a line that is empty or cannot be decoded. */
  datatype Line = Message(m: Msg) | Noise(text: seq<Byte>)

  ghost function LineText(encode: Msg -> seq<Byte>, l: Line): seq<Byte> {
    match l
    case Message(m) => encode(m)
    case Noise(text) => text
  }

  ghost function StreamOf(encode: Msg -> seq<Byte>, ls: seq<Line>): seq<Byte> {
    if ls == [] then [] else StreamOf(encode, ls[..|ls| - 1]) + LineText(encode, ls[|ls| - 1]) + [NEWLINE]
  }

  ghost function MessagesIn(ls: seq<Line>): seq<Msg> {
    if ls == [] then []
    else MessagesIn(ls[..|ls| - 1]) + match ls[|ls| - 1] { case Message(m) => [m] case Noise(_) => [] }
  }

  /** A line as a sender may put it: without newlines, and decoding to what it stands for. */
  ghost predicate Sendable(encode: Msg -> seq<Byte>, d: Decoder, l: Line) {
    var text := LineText(encode, l);
    && NEWLINE !in text
    && (l.Message? ==> text != [] && d(text) == Some(l.m))
    && (l.Noise? ==> text == [] || d(text) == None)
  }

  lemma {:induction false} OneMoreLine(d: Decoder, head: seq<Byte>, text: seq<Byte>)
    requires Ended(head) && NEWLINE !in text
    ensures var s := head + text + [NEWLINE];
            Ended(s) && Messages(d, s) == Messages(d, head) + OneLine(d, text)
  {
    var s := head + text + [NEWLINE];
    var start, end := |head|, |head| + |text|;
    assert s[..start] == head && s[start..end] == text && s[..end + 1] == s;
    forall k | start <= k < end ensures s[k] != NEWLINE {
      assert s[k] == text[k - start];
    }
    LineEnds(d, s, start, end);
  }

  /** Round trip: the messages of a stream are those that were put on it, in order, whatever
      lines without a message lie between them. */
  lemma {:induction false} RoundTrip(encode: Msg -> seq<Byte>, d: Decoder, ls: seq<Line>)
    requires forall i :: 0 <= i < |ls| ==> Sendable(encode, d, ls[i])
    ensures Messages(d, StreamOf(encode, ls)) == MessagesIn(ls) && Ended(StreamOf(encode, ls))
    decreases |ls|
  {
    if ls != [] {
      var init, last := ls[..|ls| - 1], ls[|ls| - 1];
      RoundTrip(encode, d, init);
      assert Sendable(encode, d, last);
      OneMoreLine(d, StreamOf(encode, init), LineText(encode, last));
    }
  }

  datatype ReadResult = Data(bytes: seq<Byte>) | WouldBlock | Eof | Error

  /** A stream socket: any nonempty run of bytes up to the limit, nothing yet, or the end. */
  class Socket {
    ghost var received: seq<Byte>
    ghost var over: bool            // the last read found the end of the stream or failed

    constructor ()
      ensures received == [] && !over
    {
      received, over := [], false;
    }

    method Read(limit: nat) returns (r: ReadResult)
      requires 0 < limit
      modifies this
      ensures r.Data? ==> 0 < |r.bytes| <= limit
      ensures received == old(received) + if r.Data? then r.bytes else []
      ensures over == (r.Eof? || r.Error?)
    {
      var bytes: seq<Byte> :| 0 < |bytes| <= limit by {
        assert |[NEWLINE]| == 1;
      }
      over := false;
      if * {
        r := Data(bytes);
        received := received + bytes;
      } else if * {
        r := WouldBlock;
      } else if * {
        r, over := Eof, true;
      } else {
        r, over := Error, true;
      }
    }
  }

  /** Decodes complete lines from the front of `s`; `start` is the end of the last
      one taken. Stops early only after `maxOut` messages. */
  method Extract(decode: Decoder, s: seq<Byte>, maxOut: nat) returns (out: seq<Msg>, start: nat)
    requires 1 <= maxOut
    ensures start <= |s| && |out| <= maxOut
    ensures Ended(s[..start]) && out == Messages(decode, s[..start])
    ensures |out| < maxOut || start == 0 ==> NoNewline(s, start, |s|)
  {
    out, start := [], 0;
    NothingYet(decode, s);
    var i := 0;
    while i < |s| && |out| < maxOut
      invariant start <= i <= |s| && |out| <= maxOut
      invariant Ended(s[..start]) && out == Messages(decode, s[..start])
      invariant NoNewline(s, start, i)
      invariant start == 0 ==> |out| == 0
    {
      if s[i] == NEWLINE {
        LineEnds(decode, s, start, i);
        out := out + OneLine(decode, s[start..i]);
        start := i + 1;
      }
      i := i + 1;
    }
  }

  lemma {:induction false} RestHasNone(s: seq<Byte>, start: nat)
    requires start <= |s| && NoNewline(s, start, |s|)
    ensures NoNewline(s[start..], 0, |s| - start)
  {
  }

  class LineReader {
    const decode: Decoder
    const socket: Socket
    const buf: array<Byte>
    var len: nat
    var disconnected: bool
    ghost var consumed: seq<Byte>   // bytes of the lines taken out of the buffer
    ghost var delivered: seq<Msg>

    ghost predicate Sound()
      reads this, buf, socket
    {
      && buf.Length == READ_BUF_SIZE
      && len < buf.Length
      && socket.received == consumed + buf[..len]
      && Ended(consumed)
      && delivered == Messages(decode, consumed)
    }

    /** Between calls, a full buffer is one unfinished line. */
    ghost predicate Valid()
      reads this, buf, socket
    {
      Sound() && (len == buf.Length - 1 ==> NoNewline(buf[..len], 0, len))
    }

    /** Delivered and buffered messages together are those of the whole stream. */
    lemma {:induction false} Framing()
      requires Sound()
      ensures delivered + Messages(decode, buf[..len]) == Messages(decode, socket.received)
    {
      MessagesAppend(decode, consumed, buf[..len]);
    }

    constructor (decode: Decoder, socket: Socket)
      requires socket.received == []
      ensures Valid() && fresh(buf) && !disconnected && delivered == []
      ensures this.decode == decode && this.socket == socket
    {
      this.decode, this.socket := decode, socket;
      buf := new Byte[READ_BUF_SIZE](_ => 0);
      len, disconnected, consumed, delivered := 0, false, [], [];
    }

    /** Reads what is there and returns the next complete lines, decoded. Only an
        over-long line, the end of the stream or an error disconnects. */
    method Feed(maxOut: nat) returns (out: seq<Msg>)
      requires Valid() && !disconnected && 1 <= maxOut
      modifies this, buf, socket
      ensures Valid()
      ensures delivered == old(delivered) + out && |out| <= maxOut
      ensures !disconnected && |out| < maxOut ==> NoNewline(buf[..len], 0, len)
      ensures disconnected ==> out == []
      ensures disconnected <==> old(len) == READ_BUF_SIZE - 1 || socket.over
      ensures old(len) == READ_BUF_SIZE - 1 ==> disconnected && NoNewline(old(buf[..len]), 0, old(len))
    {
      var avail := buf.Length - len - 1;
      if avail == 0 {
        disconnected := true;
        return [];
      }
      var r := socket.Read(avail);
      if r.Eof? || r.Error? {
        disconnected := true;
        return [];
      }
      if r.Data? {
        Store(r.bytes);
      }
      out := Deliver(maxOut);
    }

    /** Takes complete lines out of the buffer. */
    method Deliver(maxOut: nat) returns (out: seq<Msg>)
      requires Sound() && 1 <= maxOut
      modifies this`len, this`consumed, this`delivered, buf
      ensures Valid() && delivered == old(delivered) + out && |out| <= maxOut
      ensures |out| < maxOut ==> NoNewline(buf[..len], 0, len)
    {
      var start;
      out, start := Extract(decode, buf[..len], maxOut);
      ghost var all := buf[..len];
      Compact(start);
      if |out| < maxOut || start == 0 {
        RestHasNone(all, start);
      }
    }

    method Store(bytes: seq<Byte>)
      requires buf.Length == READ_BUF_SIZE && len + |bytes| < buf.Length
      requires socket.received == consumed + buf[..len] + bytes
      requires Ended(consumed) && delivered == Messages(decode, consumed)
      modifies this`len, buf
      ensures Sound() && len == old(len) + |bytes|
    {
      ghost var before := buf[..len];
      forall i | 0 <= i < |bytes| {
        buf[len + i] := bytes[i];
      }
      len := len + |bytes|;
      assert buf[..len] == before + bytes;
      Assoc(consumed, before, bytes);
    }

    /** Moves what was not taken to the front of the buffer. */
    method Compact(start: nat)
      requires Sound() && start <= len && Ended(buf[..len][..start])
      modifies this`len, this`consumed, this`delivered, buf
      ensures Sound() && len == old(len) - start
      ensures buf[..len] == old(buf[..len])[start..]
      ensures delivered == old(delivered) + Messages(decode, old(buf[..len])[..start])
    {
      ghost var all := buf[..len];
      ghost var taken, kept := all[..start], all[start..];
      assert all == taken + kept;
      forall i | 0 <= i < len - start {
        buf[i] := buf[start + i];
      }
      len := len - start;
      assert buf[..len] == kept;
      Account(taken, kept);
    }

    ghost method Account(taken: seq<Byte>, kept: seq<Byte>)
      requires socket.received == consumed + (taken + kept) && Ended(consumed) && Ended(taken)
      requires delivered == Messages(decode, consumed)
      modifies this`consumed, this`delivered
      ensures socket.received == consumed + kept && Ended(consumed)
      ensures delivered == Messages(decode, consumed) == old(delivered) + Messages(decode, taken)
    {
      MessagesAppend(decode, consumed, taken);
      Assoc(consumed, taken, kept);
      delivered := delivered + Messages(decode, taken);
      consumed := consumed + taken;
    }
  }

  /** Any chunking of the stream into reads, with any bound per call: as long as the
      client is connected, what was delivered and what is still buffered are
      together the messages of all bytes received. */
  method Run(decode: Decoder, bounds: seq<nat>) returns (c: LineReader, out: seq<Msg>)
    requires forall i :: 0 <= i < |bounds| ==> 1 <= bounds[i]
    ensures fresh(c) && c.Valid() && c.delivered == out
    ensures out + Messages(decode, c.buf[..c.len]) == Messages(decode, c.socket.received)
  {
    var s := new Socket();
    c := new LineReader(decode, s);
    out := [];
    for i := 0 to |bounds|
      invariant fresh(c) && fresh(c.buf) && fresh(c.socket) && c.Valid() && c.decode == decode && c.delivered == out
    {
      if !c.disconnected {
        var more := c.Feed(bounds[i]);
        out := out + more;
      }
    }
    c.Framing();
  }
}
