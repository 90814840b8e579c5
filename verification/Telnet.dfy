/** Telnet framing of a serial-over-TCP link (src/links/serial_tcp.c): the receive
    filter that strips commands, and the escaping sender with its RFC 2217
    COM-PORT subnegotiations. Byte values are those of RFC 854 and RFC 2217. */
module Telnet {
  import opened Bytes

  const SE: Byte := 240
  const SB: Byte := 250
  const WILL: Byte := 251
  const WONT: Byte := 252
  const DO: Byte := 253
  const DONT: Byte := 254
  const IAC: Byte := 255
  const COMPORT: Byte := 44

  // ----- Receive automaton -----

  datatype State = Data | Command | Negotiate | Subneg | SubnegCommand

  /** Parser state, the saved negotiation verb, and whether COM-PORT is agreed. */
  datatype Rx = Rx(state: State, verb: Byte, active: bool)

  /** What one stretch of input does: the state after it, the data bytes passed on,
      and the replies sent back. */
  datatype Effect = Effect(rx: Rx, data: seq<Byte>, replies: seq<seq<Byte>>)

  /** Refuse a request; never answer an acknowledgement. */
  function Refusal(verb: Byte, option: Byte): seq<seq<Byte>> {
    if verb == DO then [[IAC, WONT, option]]
    else if verb == WILL then [[IAC, DONT, option]]
    else []
  }

  /** The server's COM-PORT negotiation: accept an offer of control, or note its end. */
  function Comport(rx: Rx): Effect {
    if rx.verb == DO then Effect(rx.(state := Data, active := true), [], [[IAC, WILL, COMPORT]])
    else if rx.verb == DONT then Effect(rx.(state := Data, active := false), [], [])
    else Effect(rx.(state := Data), [], [])
  }

  function Receive(rx: Rx, c: Byte): (e: Effect)
    ensures |e.data| <= 1
  {
    match rx.state
    case Data =>
      if c == IAC then Effect(rx.(state := Command), [], []) else Effect(rx, [c], [])
    case Command =>
      if c == IAC then Effect(rx.(state := Data), [IAC], [])
      else if c == WILL || c == WONT || c == DO || c == DONT then Effect(rx.(state := Negotiate, verb := c), [], [])
      else if c == SB then Effect(rx.(state := Subneg), [], [])
      else Effect(rx.(state := Data), [], [])
    case Negotiate =>
      if c == COMPORT then Comport(rx) else Effect(rx.(state := Data), [], Refusal(rx.verb, c))
    case Subneg =>
      if c == IAC then Effect(rx.(state := SubnegCommand), [], []) else Effect(rx, [], [])
    case SubnegCommand =>
      if c == SE then Effect(rx.(state := Data), [], []) else Effect(rx.(state := Subneg), [], [])
  }

  ghost function Filter(rx: Rx, s: seq<Byte>): Effect {
    if s == [] then Effect(rx, [], []) else Then(Filter(rx, s[..|s| - 1]), s[|s| - 1])
  }

  ghost function Then(e: Effect, c: Byte): Effect {
    var f := Receive(e.rx, c);
    Effect(f.rx, e.data + f.data, e.replies + f.replies)
  }

  ghost function Join(e: Effect, f: Effect): Effect {
    Effect(f.rx, e.data + f.data, e.replies + f.replies)
  }

  lemma {:induction false} JoinThen(e: Effect, f: Effect, c: Byte)
    ensures Then(Join(e, f), c) == Join(e, Then(f, c))
  {
    var g := Receive(f.rx, c);
    Assoc(e.data, f.data, g.data);
    Assoc(e.replies, f.replies, g.replies);
  }

  /** Processing never depends on where the input is cut. */
  lemma {:induction false} FilterAppend(rx: Rx, a: seq<Byte>, b: seq<Byte>)
    ensures Filter(rx, a + b) == Join(Filter(rx, a), Filter(Filter(rx, a).rx, b))
    decreases |b|
  {
    if b == [] {
      assert a + b == a;
    } else {
      var init := b[..|b| - 1];
      assert (a + b)[..|a + b| - 1] == a + init;
      FilterAppend(rx, a, init);
      JoinThen(Filter(rx, a), Filter(Filter(rx, a).rx, init), b[|b| - 1]);
    }
  }

  ghost function FilterChunks(rx: Rx, chunks: seq<seq<Byte>>): Effect {
    if chunks == [] then Effect(rx, [], [])
    else
      var e := FilterChunks(rx, chunks[..|chunks| - 1]);
      Join(e, Filter(e.rx, chunks[|chunks| - 1]))
  }

  /** Output, final state and replies are the same for every chunking. */
  lemma {:induction false} ChunkingIrrelevant(rx: Rx, chunks: seq<seq<Byte>>)
    ensures FilterChunks(rx, chunks) == Filter(rx, Concat(chunks))
    decreases |chunks|
  {
    if chunks != [] {
      var init, last := chunks[..|chunks| - 1], chunks[|chunks| - 1];
      ChunkingIrrelevant(rx, init);
      assert chunks == init + [last];
      ConcatSnoc(init, last);
      FilterAppend(rx, Concat(init), last);
    }
  }

  lemma {:induction false} NeverLonger(rx: Rx, s: seq<Byte>)
    ensures |Filter(rx, s).data| <= |s|
    decreases |s|
  {
    if s != [] {
      NeverLonger(rx, s[..|s| - 1]);
    }
  }

  // ----- Sender -----

  function EscapeByte(b: Byte): seq<Byte> { if b == IAC then [IAC, IAC] else [b] }

  /** Data with every literal 0xFF doubled. */
  ghost function Escape(d: seq<Byte>): seq<Byte> {
    if d == [] then [] else Escape(d[..|d| - 1]) + EscapeByte(d[|d| - 1])
  }

  ghost function Frame(cmd: Byte, val: seq<Byte>): seq<Byte> {
    [IAC, SB, COMPORT, cmd] + Escape(val) + [IAC, SE]
  }

  lemma {:induction false} NothingToEscape(d: seq<Byte>)
    requires forall i :: 0 <= i < |d| ==> d[i] != IAC
    ensures Escape(d) == d
    decreases |d|
  {
    if d != [] {
      NothingToEscape(d[..|d| - 1]);
    }
  }

  lemma {:induction false} FilterOne(rx: Rx, a: Byte)
    ensures Filter(rx, [a]) == Receive(rx, a)
  {
    assert [a][..0] == [];
  }

  lemma {:induction false} FilterTwo(rx: Rx, a: Byte, b: Byte)
    ensures Filter(rx, [a, b]) == Join(Receive(rx, a), Receive(Receive(rx, a).rx, b))
  {
    assert [a, b][..1] == [a];
    FilterOne(rx, a);
  }

  lemma {:induction false} EscapedByte(rx: Rx, b: Byte)
    ensures rx.state == Data ==> Filter(rx, EscapeByte(b)) == Effect(rx, [b], [])
    ensures rx.state == Subneg ==> Filter(rx, EscapeByte(b)) == Effect(rx, [], [])
  {
    if b == IAC {
      FilterTwo(rx, IAC, IAC);
    } else {
      FilterOne(rx, b);
    }
  }

  /** Escaped data comes out as it went in. */
  lemma {:induction false} EscapedData(rx: Rx, d: seq<Byte>)
    requires rx.state == Data
    ensures Filter(rx, Escape(d)) == Effect(rx, d, [])
    decreases |d|
  {
    if d != [] {
      var init, b := d[..|d| - 1], d[|d| - 1];
      calc {
        Filter(rx, Escape(d));
        { FilterAppend(rx, Escape(init), EscapeByte(b)); }
        Join(Filter(rx, Escape(init)), Filter(Filter(rx, Escape(init)).rx, EscapeByte(b)));
        { EscapedData(rx, init); }
        Join(Effect(rx, init, []), Filter(rx, EscapeByte(b)));
        { EscapedByte(rx, b); }
        Effect(rx, init + [b], []);
        { assert d == init + [b]; }
        Effect(rx, d, []);
      }
    }
  }

  /** Escaped subnegotiation values are swallowed without ending it. */
  lemma {:induction false} EscapedValue(rx: Rx, val: seq<Byte>)
    requires rx.state == Subneg
    ensures Filter(rx, Escape(val)) == Effect(rx, [], [])
    decreases |val|
  {
    if val != [] {
      var init, b := val[..|val| - 1], val[|val| - 1];
      EscapedValue(rx, init);
      FilterAppend(rx, Escape(init), EscapeByte(b));
      EscapedByte(rx, b);
    }
  }

  /** A COM-PORT frame leaves no trace in the data. */
  lemma {:induction false} FrameInvisible(rx: Rx, cmd: Byte, val: seq<Byte>)
    requires rx.state == Data && cmd != IAC
    ensures Filter(rx, Frame(cmd, val)) == Effect(rx, [], [])
  {
    var sub := rx.(state := Subneg);
    var head: seq<Byte>, tail: seq<Byte> := [IAC, SB, COMPORT, cmd], [IAC, SE];
    assert Filter(rx, head) == Effect(sub, [], []) by {
      assert head == [IAC, SB] + [COMPORT, cmd];
      FilterAppend(rx, [IAC, SB], [COMPORT, cmd]);
      FilterTwo(rx, IAC, SB);
      FilterTwo(sub, COMPORT, cmd);
    }
    FilterAppend(rx, head, Escape(val));
    EscapedValue(sub, val);
    FilterAppend(rx, head + Escape(val), tail);
    FilterTwo(sub, IAC, SE);
  }

  /** What the link puts on the wire: user data and control frames, interleaved. */
  datatype Item = Payload(data: seq<Byte>) | Control(cmd: Byte, val: seq<Byte>)

  ghost function EncodeItem(i: Item): seq<Byte> {
    match i
    case Payload(d) => Escape(d)
    case Control(cmd, val) => Frame(cmd, val)
  }

  ghost function Encode(items: seq<Item>): seq<Byte> {
    if items == [] then [] else Encode(items[..|items| - 1]) + EncodeItem(items[|items| - 1])
  }

  ghost function Payloads(items: seq<Item>): seq<Byte> {
    if items == [] then []
    else Payloads(items[..|items| - 1]) + match items[|items| - 1] { case Payload(d) => d case Control(_, _) => [] }
  }

  /** Round trip: any interleaving of escaped writes and control frames comes out of
      the filter as exactly the payloads, and ends between commands. */
  lemma {:induction false} RoundTrip(rx: Rx, items: seq<Item>)
    requires rx.state == Data
    requires forall i :: 0 <= i < |items| && items[i].Control? ==> items[i].cmd != IAC
    ensures Filter(rx, Encode(items)) == Effect(rx, Payloads(items), [])
    decreases |items|
  {
    if items != [] {
      var init, last := items[..|items| - 1], items[|items| - 1];
      RoundTrip(rx, init);
      FilterAppend(rx, Encode(init), EncodeItem(last));
      match last
      case Payload(d) => EscapedData(rx, d);
      case Control(cmd, val) => FrameInvisible(rx, cmd, val);
    }
  }

  /** The first part of an input yields a first part of the output. */
  lemma {:induction false} FirstPart(rx: Rx, got: seq<Byte>, all: seq<Byte>, payload: seq<Byte>)
    requires got <= all && Filter(rx, all) == Effect(rx, payload, [])
    ensures Filter(rx, got).data <= payload
    ensures |got| == |all| ==> Filter(rx, got) == Effect(rx, payload, [])
  {
    var rest := all[|got|..];
    assert all == got + rest;
    FilterAppend(rx, got, rest);
    if |got| == |all| {
      assert got == all;
    }
  }

  /** However little of the stream has arrived, in whatever pieces, the data passed
      on so far is a prefix of the payloads. */
  lemma {:induction false} PrefixDelivered(rx: Rx, items: seq<Item>, chunks: seq<seq<Byte>>)
    requires rx.state == Data && Concat(chunks) <= Encode(items)
    requires forall i :: 0 <= i < |items| && items[i].Control? ==> items[i].cmd != IAC
    ensures FilterChunks(rx, chunks).data <= Payloads(items)
    ensures Concat(chunks) == Encode(items) ==> FilterChunks(rx, chunks) == Effect(rx, Payloads(items), [])
  {
    ChunkingIrrelevant(rx, chunks);
    RoundTrip(rx, items);
    FirstPart(rx, Concat(chunks), Encode(items), Payloads(items));
  }

  // ----- Whatever a server sends -----

  /** Part of a subnegotiation: a plain byte, or an IAC with the byte after it. */
  datatype SubItem = Plain(b: Byte) | Pair(b: Byte) {
    predicate Proper() { if Plain? then b != 255 else b != 240 }

    function Wire(): seq<Byte> { if Plain? then [b] else [255, b] }
  }

  /** A telnet stream is made of these (RFC 854). */
  datatype Token =
    | Char(b: Byte)
    | Literal
    | Simple(cmd: Byte)
    | Negotiation(verb: Byte, option: Byte)
    | Sub(items: seq<SubItem>)
  {
    predicate Proper() {
      match this
      case Char(b) => b != 255
      case Literal => true
      case Simple(cmd) => cmd < 250
      case Negotiation(verb, _) => 251 <= verb <= 254
      case Sub(items) => AllProper(items)
    }

    ghost function Wire(): seq<Byte> {
      match this
      case Char(b) => [b]
      case Literal => [255, 255]
      case Simple(cmd) => [255, cmd]
      case Negotiation(verb, option) => [255, verb, option]
      case Sub(items) => [255, 250] + ItemsWire(items) + [255, 240]
    }

    /** The data it carries. */
    function Carries(): seq<Byte> {
      match this
      case Char(b) => [b]
      case Literal => [255]
      case _ => []
    }

    /** What has to be answered: COM-PORT is agreed to, anything else is refused. */
    function Answer(): seq<seq<Byte>> {
      match this
      case Negotiation(253, 44) => [[255, 251, 44]]
      case Negotiation(253, option) => [[255, 252, option]]
      case Negotiation(251, option) => if option == 44 then [] else [[255, 254, option]]
      case _ => []
    }

    /** Whether COM-PORT is agreed after it. */
    predicate Agrees(before: bool) {
      match this
      case Negotiation(253, 44) => true
      case Negotiation(254, 44) => false
      case _ => before
    }
  }

  /** The beginning of a token. */
  datatype Opening = Between | Escaped | Verb(verb: Byte) | InSub(items: seq<SubItem>) | SubEscaped(items: seq<SubItem>) {
    predicate Proper() {
      match this
      case Verb(verb) => 251 <= verb <= 254
      case InSub(items) => AllProper(items)
      case SubEscaped(items) => AllProper(items)
      case _ => true
    }

    ghost function Wire(): seq<Byte> {
      match this
      case Between => []
      case Escaped => [255]
      case Verb(verb) => [255, verb]
      case InSub(items) => [255, 250] + ItemsWire(items)
      case SubEscaped(items) => [255, 250] + ItemsWire(items) + [255]
    }
  }

  predicate AllProper(items: seq<SubItem>) {
    forall i :: 0 <= i < |items| ==> items[i].Proper()
  }

  ghost function ItemsWire(items: seq<SubItem>): seq<Byte> {
    if items == [] then [] else ItemsWire(items[..|items| - 1]) + items[|items| - 1].Wire()
  }

  ghost predicate Stream(ts: seq<Token>) {
    forall i :: 0 <= i < |ts| ==> ts[i].Proper()
  }

  ghost function Wires(ts: seq<Token>): seq<Byte> {
    if ts == [] then [] else Wires(ts[..|ts| - 1]) + ts[|ts| - 1].Wire()
  }

  ghost function AllCarry(ts: seq<Token>): seq<Byte> {
    if ts == [] then [] else AllCarry(ts[..|ts| - 1]) + ts[|ts| - 1].Carries()
  }

  ghost function Answers(ts: seq<Token>): seq<seq<Byte>> {
    if ts == [] then [] else Answers(ts[..|ts| - 1]) + ts[|ts| - 1].Answer()
  }

  /** The last DO or DONT COM-PORT decides. */
  ghost predicate Agreed(before: bool, ts: seq<Token>) {
    if ts == [] then before else ts[|ts| - 1].Agrees(Agreed(before, ts[..|ts| - 1]))
  }

  lemma {:induction false} WiresSnoc(ts: seq<Token>, t: Token)
    ensures Wires(ts + [t]) == Wires(ts) + t.Wire()
  {
    assert (ts + [t])[..|ts|] == ts;
  }

  lemma {:induction false} ItemsSnoc(items: seq<SubItem>, i: SubItem)
    requires AllProper(items) && i.Proper()
    ensures AllProper(items + [i]) && ItemsWire(items + [i]) == ItemsWire(items) + i.Wire()
  {
    assert (items + [i])[..|items|] == items;
  }

  /** Every stream is a sequence of tokens and the beginning of one more. */
  lemma {:induction false} EveryStream(s: seq<Byte>) returns (ts: seq<Token>, open: Opening)
    ensures Stream(ts) && open.Proper() && s == Wires(ts) + open.Wire()
    decreases |s|
  {
    if s == [] {
      return [], Between;
    }
    var before, begun := EveryStream(s[..|s| - 1]);
    ts, open := MoreStream(before, begun, s[|s| - 1]);
    assert s == s[..|s| - 1] + [s[|s| - 1]];
  }

  lemma {:induction false} MoreStream(before: seq<Token>, begun: Opening, c: Byte) returns (ts: seq<Token>, open: Opening)
    requires Stream(before) && begun.Proper()
    ensures Stream(ts) && open.Proper() && Wires(ts) + open.Wire() == Wires(before) + begun.Wire() + [c]
  {
    var done, rest := NextByte(begun, c);
    Assoc(Wires(before), begun.Wire(), [c]);
    ts, open := before, rest;
    if done.Some? {
      ts := TokenDone(before, done.value);
    }
  }

  lemma {:induction false} TokenDone(ts: seq<Token>, t: Token) returns (ts': seq<Token>)
    requires Stream(ts) && t.Proper()
    ensures Stream(ts') && Wires(ts') + Between.Wire() == Wires(ts) + t.Wire()
  {
    ts' := ts + [t];
    WiresSnoc(ts, t);
  }

  /** One more byte ends a token, or leaves one open. */
  lemma {:induction false} NextByte(open: Opening, c: Byte) returns (done: Option<Token>, open': Opening)
    requires open.Proper()
    ensures if done.Some? then done.value.Proper() && open' == Between && done.value.Wire() == open.Wire() + [c]
            else open'.Proper() && open'.Wire() == open.Wire() + [c]
  {
    done := None;
    match open
    case Between =>
      if c == 255 { open' := Escaped; } else { done, open' := Some(Char(c)), Between; }
    case Escaped =>
      if c < 250 { done, open' := Some(Simple(c)), Between; }
      else if c == 250 {
        open' := InSub([]);
        assert open'.Wire() == [255, 250];
      }
      else if c == 255 { done, open' := Some(Literal), Between; }
      else { open' := Verb(c); }
    case Verb(verb) =>
      done, open' := Some(Negotiation(verb, c)), Between;
    case InSub(items) =>
      if c == 255 {
        open' := SubEscaped(items);
      } else {
        MoreItems(items, Plain(c));
        open' := InSub(items + [Plain(c)]);
      }
    case SubEscaped(items) =>
      if c == 240 {
        done, open' := Some(Sub(items)), Between;
      } else {
        MoreItems(items, Pair(c));
        open' := InSub(items + [Pair(c)]);
      }
  }

  lemma {:induction false} MoreItems(items: seq<SubItem>, i: SubItem)
    requires AllProper(items) && i.Proper()
    ensures InSub(items + [i]).Proper() && InSub(items + [i]).Wire() == InSub(items).Wire() + i.Wire()
    ensures i.Pair? ==> InSub(items + [i]).Wire() == SubEscaped(items).Wire() + [i.b]
  {
    ItemsSnoc(items, i);
    Assoc([255, 250], ItemsWire(items), i.Wire());
    if i.Pair? {
      Assoc(InSub(items).Wire(), [255], [i.b]);
      assert [255] + [i.b] == i.Wire();
    }
  }

  lemma {:induction false} FilterItems(rx: Rx, items: seq<SubItem>)
    requires rx.state == Subneg && AllProper(items)
    ensures Filter(rx, ItemsWire(items)) == Effect(rx, [], [])
    decreases |items|
  {
    if items != [] {
      var init, last := items[..|items| - 1], items[|items| - 1];
      FilterItems(rx, init);
      FilterAppend(rx, ItemsWire(init), last.Wire());
      match last
      case Plain(b) => FilterOne(rx, b);
      case Pair(b) => FilterTwo(rx, 255, b);
    }
  }

  /** The filter inside a subnegotiation. */
  lemma {:induction false} FilterInSub(rx: Rx, items: seq<SubItem>)
    requires rx.state == Data && AllProper(items)
    ensures Filter(rx, [255, 250] + ItemsWire(items)) == Effect(rx.(state := Subneg), [], [])
  {
    FilterTwo(rx, 255, 250);
    FilterAppend(rx, [255, 250], ItemsWire(items));
    FilterItems(rx.(state := Subneg), items);
  }

  /** What one token does: it passes its data on and gets its answer. */
  ghost predicate Treated(e: Effect, data: seq<Byte>, replies: seq<seq<Byte>>, active: bool) {
    e.data == data && e.replies == replies && e.rx.active == active && e.rx.state == Data
  }

  lemma {:induction false} FilterToken(rx: Rx, t: Token)
    requires rx.state == Data && t.Proper()
    ensures Treated(Filter(rx, t.Wire()), t.Carries(), t.Answer(), t.Agrees(rx.active))
  {
    match t
    case Char(b) => FilterOne(rx, b);
    case Literal => FilterTwo(rx, 255, 255);
    case Simple(cmd) => FilterTwo(rx, 255, cmd);
    case Negotiation(verb, option) => FilterOption(rx, verb, option);
    case Sub(items) =>
      FilterInSub(rx, items);
      FilterAppend(rx, [255, 250] + ItemsWire(items), [255, 240]);
      FilterTwo(rx.(state := Subneg), 255, 240);
  }

  lemma {:induction false} FilterOption(rx: Rx, verb: Byte, option: Byte)
    requires rx.state == Data && 251 <= verb <= 254
    ensures var e, t := Filter(rx, [255, verb, option]), Negotiation(verb, option);
            Treated(e, t.Carries(), t.Answer(), t.Agrees(rx.active))
  {
    FilterTwo(rx, 255, verb);
    assert [255, verb, option] == [255, verb] + [option];
    FilterAppend(rx, [255, verb], [option]);
    FilterOne(rx.(state := Negotiate, verb := verb), option);
  }

  /** Whatever a server sends: the data tokens come out in order and nothing else does, every
      request gets its answer, and the last word on COM-PORT counts. */
  lemma {:induction false} ServerStream(rx: Rx, ts: seq<Token>)
    requires rx.state == Data && Stream(ts)
    ensures Treated(Filter(rx, Wires(ts)), AllCarry(ts), Answers(ts), Agreed(rx.active, ts))
    decreases |ts|
  {
    if ts != [] {
      var init, last := ts[..|ts| - 1], ts[|ts| - 1];
      ServerStream(rx, init);
      FilterAppend(rx, Wires(init), last.Wire());
      FilterToken(Filter(rx, Wires(init)).rx, last);
    }
  }

  /** Picking up at `before`, the filter has done with `s` what its tokens call for. */
  ghost predicate Served(before: Effect, after: Effect, s: seq<Byte>) {
    forall ts: seq<Token> :: Stream(ts) && s == Wires(ts) ==>
      Treated(after, before.data + AllCarry(ts), before.replies + Answers(ts), Agreed(before.rx.active, ts))
  }

  lemma {:induction false} FilterServes(before: Effect, s: seq<Byte>)
    requires before.rx.state == Data
    ensures Served(before, Join(before, Filter(before.rx, s)), s)
  {
    forall ts: seq<Token> | Stream(ts) && s == Wires(ts)
      ensures Treated(Join(before, Filter(before.rx, s)), before.data + AllCarry(ts), before.replies + Answers(ts), Agreed(before.rx.active, ts))
    {
      ServerStream(before.rx, ts);
    }
  }

  /** The beginning of a token passes nothing on and is answered by nothing. */
  lemma {:induction false} FilterOpening(rx: Rx, open: Opening)
    requires rx.state == Data && open.Proper()
    ensures var e := Filter(rx, open.Wire()); e.data == [] && e.replies == [] && e.rx.active == rx.active
    ensures Filter(rx, open.Wire()).rx.state == Data <==> open == Between
  {
    match open
    case Between =>
    case Escaped => FilterOne(rx, 255);
    case Verb(verb) => FilterTwo(rx, 255, verb);
    case InSub(items) => FilterInSub(rx, items);
    case SubEscaped(items) =>
      FilterInSub(rx, items);
      FilterAppend(rx, [255, 250] + ItemsWire(items), [255]);
      FilterOne(rx.(state := Subneg), 255);
  }

  /** So any bytes at all come out as the data of the tokens they make up. */
  lemma {:induction false} AnyStream(rx: Rx, s: seq<Byte>) returns (ts: seq<Token>, open: Opening)
    requires rx.state == Data
    ensures Stream(ts) && open.Proper() && s == Wires(ts) + open.Wire()
    ensures var e := Filter(rx, s);
            && e.data == AllCarry(ts) && e.replies == Answers(ts) && e.rx.active == Agreed(rx.active, ts)
            && (e.rx.state == Data <==> open == Between)
  {
    ts, open := EveryStream(s);
    ServerStream(rx, ts);
    FilterAppend(rx, Wires(ts), open.Wire());
    FilterOpening(Filter(rx, Wires(ts)).rx, open);
  }

  /** The bytes of a subnegotiation, with a doubled 255 read as one. */
  ghost function Meant(items: seq<SubItem>): seq<Byte> {
    if items == [] then [] else Meant(items[..|items| - 1]) + [items[|items| - 1].b]
  }

  lemma {:induction false} MeantSnoc(items: seq<SubItem>, i: SubItem)
    ensures Meant(items + [i]) == Meant(items) + [i.b]
  {
    assert (items + [i])[..|items|] == items;
  }

  lemma {:induction false} EscapedItems(val: seq<Byte>, before: seq<SubItem>) returns (items: seq<SubItem>)
    requires AllProper(before)
    ensures AllProper(items) && ItemsWire(items) == ItemsWire(before) + Escape(val) && Meant(items) == Meant(before) + val
    decreases |val|
  {
    if val == [] {
      return before;
    }
    var init, b := val[..|val| - 1], val[|val| - 1];
    items := EscapedItems(init, before);
    var i := if b == 255 then Pair(b) else Plain(b);
    ItemsSnoc(items, i);
    MeantSnoc(items, i);
    assert val == init + [b];
    assert EscapeByte(b) == i.Wire();
    Assoc(ItemsWire(before), Escape(init), EscapeByte(b));
    Assoc(Meant(before), init, [b]);
    items := items + [i];
  }

  /** A frame is one closed subnegotiation of COM-PORT, and means the command and its value. */
  lemma {:induction false} FrameMeans(cmd: Byte, val: seq<Byte>) returns (items: seq<SubItem>)
    requires cmd != IAC
    ensures Sub(items).Proper() && Frame(cmd, val) == Sub(items).Wire() && Meant(items) == [44, cmd] + val
  {
    var none: seq<SubItem> := [];
    ItemsSnoc(none, Plain(44));
    MeantSnoc(none, Plain(44));
    var one := none + [Plain(44)];
    ItemsSnoc(one, Plain(cmd));
    MeantSnoc(one, Plain(cmd));
    var two := one + [Plain(cmd)];
    items := EscapedItems(val, two);
    assert ItemsWire(two) == [44, cmd] && Meant(two) == [44, cmd];
    assert [255, 250] + ItemsWire(items) == [255, 250, 44, cmd] + Escape(val);
  }

  // ----- Negotiation -----

  /** A reply this implementation can send: a refusal, or agreeing to COM-PORT. */
  ghost predicate IsReply(r: seq<Byte>) {
    && |r| == 3 && r[0] == IAC
    && (((r[1] == WONT || r[1] == DONT) && r[2] != COMPORT) || (r[1] == WILL && r[2] == COMPORT))
  }

  lemma {:induction false} RepliesAre(rx: Rx, s: seq<Byte>)
    ensures forall i :: 0 <= i < |Filter(rx, s).replies| ==> IsReply(Filter(rx, s).replies[i])
    decreases |s|
  {
    if s != [] {
      RepliesAre(rx, s[..|s| - 1]);
    }
  }

  lemma {:induction false} ReplySilent(rx: Rx, r: seq<Byte>)
    requires rx.state == Data && IsReply(r)
    ensures var e := Filter(rx, r); e.data == [] && e.replies == [] && e.rx.state == Data && e.rx.active == rx.active
  {
    assert r == [r[0], r[1]] + [r[2]];
    FilterAppend(rx, [r[0], r[1]], [r[2]]);
    FilterTwo(rx, r[0], r[1]);
    FilterOne(Filter(rx, [r[0], r[1]]).rx, r[2]);
  }

  lemma {:induction false} RepliesSilent(rx: Rx, rs: seq<seq<Byte>>)
    requires rx.state == Data && forall i :: 0 <= i < |rs| ==> IsReply(rs[i])
    ensures var e := Filter(rx, Concat(rs)); e.data == [] && e.replies == [] && e.rx.state == Data
    decreases |rs|
  {
    if rs != [] {
      var init, last := rs[..|rs| - 1], rs[|rs| - 1];
      RepliesSilent(rx, init);
      assert rs == init + [last];
      ConcatSnoc(init, last);
      FilterAppend(rx, Concat(init), last);
      ReplySilent(Filter(rx, Concat(init)).rx, last);
    }
  }

  /** No negotiation loop: whatever one instance is sent, its replies provoke no
      reply and no data from another. */
  lemma {:induction false} NoNegotiationLoop(rx: Rx, s: seq<Byte>, peer: Rx)
    requires peer.state == Data
    ensures var e := Filter(peer, Concat(Filter(rx, s).replies)); e.data == [] && e.replies == [] && e.rx.state == Data
  {
    RepliesAre(rx, s);
    RepliesSilent(peer, Filter(rx, s).replies);
  }
}
