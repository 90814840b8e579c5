/** The serial-over-TCP link (src/links/serial_tcp.c): the telnet receive filter and
    the escaping writers, on top of the link write queue. */
module SerialTcp {
  import opened Bytes
  import opened Telnet
  import opened Wire
  import LinkQueue

  /** What a call does that sends `bytes`: nothing unless the link is ready for it, and
      otherwise what the write queue does with them. */
  ghost predicate SentAs(ready: bool, bytes: seq<Byte>, before: nat, after: nat, ok: bool, taken: nat, heard: seq<WriteResult>) {
    if ready then LinkQueue.Settles(bytes, before, after, ok, taken, heard)
    else !ok && taken == 0 <= |bytes| && |heard| == 0 && after == before
  }

  class SerialTcp {
    const queue: LinkQueue.LinkQueue
    const wire: Wire
    var connected: bool
    var tstate: State
    var verb: Byte
    var active: bool
    var replies: seq<seq<Byte>>  // negotiation answers, sent past the queue

    function Parser(): Rx
      reads this
    {
      Rx(tstate, verb, active)
    }

    /** COM-PORT commands need the server's agreement. */
    predicate Ready(c: Call)
      reads this
    {
      connected && (c.Set? ==> active)
    }

    ghost predicate Valid()
      reads this, queue, queue.ring, queue.ring.slots, wire
    {
      queue.Valid()
    }

    constructor (wire: Wire)
      requires wire.sent == []
      ensures Valid() && this.wire == wire && connected && queue.Pending() == []
      ensures Parser() == Rx(Data, 0, false) && replies == []
      ensures fresh(queue) && fresh(queue.ring) && fresh(queue.ring.slots)
    {
      queue := new LinkQueue.LinkQueue();
      this.wire := wire;
      connected, tstate, verb, active, replies := true, Data, 0, false, [];
    }

    /** Strips telnet commands from one chunk, picking up where the last one ended. */
    method FilterRx(input: seq<Byte>) returns (out: seq<Byte>)
      modifies this
      ensures Effect(Parser(), out, replies) == Join(Effect(old(Parser()), [], old(replies)), Filter(old(Parser()), input))
      ensures |out| <= |input| && connected == old(connected)
      ensures old(tstate) == Data ==> Served(Effect(old(Parser()), [], old(replies)), Effect(Parser(), out, replies), input)
    {
      out := [];
      ghost var start := Effect(Parser(), [], replies);
      for i := 0 to |input|
        invariant connected == old(connected)
        invariant Effect(Parser(), out, replies) == Join(start, Filter(start.rx, input[..i]))
      {
        assert input[..i + 1][..i] == input[..i];
        JoinThen(start, Filter(start.rx, input[..i]), input[i]);
        var more := Consume(input[i]);
        out := out + more;
      }
      assert input[..|input|] == input;
      NeverLonger(start.rx, input);
      if start.rx.state == Data {
        FilterServes(start, input);
      }
    }

    /** One received byte. */
    method Consume(c: Byte) returns (data: seq<Byte>)
      modifies this`tstate, this`verb, this`active, this`replies
      ensures Effect(Parser(), data, replies) == Join(Effect(old(Parser()), [], old(replies)), Receive(old(Parser()), c))
    {
      data := [];
      match tstate
      case Data =>
        if c == IAC {
          tstate := Command;
        } else {
          data := [c];
        }
      case Command =>
        if c == IAC {
          data := [IAC];
          tstate := Data;
        } else if c == WILL || c == WONT || c == DO || c == DONT {
          verb := c;
          tstate := Negotiate;
        } else if c == SB {
          tstate := Subneg;
        } else {
          tstate := Data;
        }
      case Negotiate =>
        if c == COMPORT {
          if verb == DO {
            active := true;
            replies := replies + [[IAC, WILL, COMPORT]];
          } else if verb == DONT {
            active := false;
          }
        } else {
          replies := replies + Refusal(verb, c);
        }
        tstate := Data;
      case Subneg =>
        if c == IAC {
          tstate := SubnegCommand;
        }
      case SubnegCommand =>
        tstate := if c == SE then Data else Subneg;
    }

    /** Sends user data, escaped unless it contains nothing to escape. */
    method WriteData(data: seq<Byte>) returns (ok: bool, ghost taken: nat, ghost heard: seq<WriteResult>)
      requires Valid()
      modifies queue, queue.ring, queue.ring.slots, wire
      ensures Valid() && (queue.ring.slots == old(queue.ring.slots) || fresh(queue.ring.slots))
      ensures SentAs(connected, Escape(data), |old(queue.Pending())|, |queue.Pending()|, ok, taken, heard)
      ensures wire.answers == old(wire.answers) + heard
      ensures wire.sent + queue.Pending() == old(wire.sent + queue.Pending()) + Escape(data)[..taken]
    {
      if !connected {
        return false, 0, [];
      }
      if forall i :: 0 <= i < |data| ==> data[i] != IAC {
        NothingToEscape(data);
        ok, taken, heard := queue.Write(wire, data);
        return;
      }
      var esc: seq<Byte> := [];
      for i := 0 to |data|
        invariant esc == Escape(data[..i])
      {
        assert data[..i + 1][..i] == data[..i];
        esc := esc + [data[i]];
        if data[i] == IAC {
          esc := esc + [IAC];
        }
      }
      assert data[..|data|] == data;
      ok, taken, heard := queue.Write(wire, esc);
    }

    /** Sends a COM-PORT command, if the server has agreed to them. The frame is
        built in a buffer of 32 bytes. */
    method ComportSend(cmd: Byte, val: seq<Byte>) returns (ok: bool, ghost taken: nat, ghost heard: seq<WriteResult>)
      requires Valid() && |val| <= 4
      modifies queue, queue.ring, queue.ring.slots, wire
      ensures Valid() && (queue.ring.slots == old(queue.ring.slots) || fresh(queue.ring.slots))
      ensures SentAs(connected && active, Frame(cmd, val), |old(queue.Pending())|, |queue.Pending()|, ok, taken, heard)
      ensures wire.answers == old(wire.answers) + heard
      ensures wire.sent + queue.Pending() == old(wire.sent + queue.Pending()) + Frame(cmd, val)[..taken]
    {
      if !connected || !active {
        return false, 0, [];
      }
      var frame := BuildFrame(cmd, val);
      ok, taken, heard := queue.Write(wire, frame);
    }
  }

  /** The frame never outgrows the 32-byte buffer the link builds it in. */
  method BuildFrame(cmd: Byte, val: seq<Byte>) returns (f: seq<Byte>)
    requires |val| <= 4
    ensures f == Frame(cmd, val) && |f| <= 32
  {
    var esc: seq<Byte> := [];
    for i := 0 to |val|
      invariant |esc| <= 2 * i
      invariant esc == Escape(val[..i])
    {
      assert val[..i + 1][..i] == val[..i];
      esc := esc + [val[i]];
      if val[i] == IAC {
        esc := esc + [IAC];
      }
    }
    assert val[..|val|] == val;
    f := [IAC, SB, COMPORT, cmd] + esc + [IAC, SE];
  }

  datatype Call = Write(data: seq<Byte>) | Set(cmd: Byte, val: seq<Byte>) | FlushQueue

  function ItemOf(c: Call): seq<Item> {
    match c
    case Write(d) => [Payload(d)]
    case Set(cmd, val) => [Control(cmd, val)]
    case FlushQueue => []
  }

  /** What a run of calls asks to be sent. */
  ghost function ItemsOf(script: seq<Call>): seq<Item> {
    if script == [] then [] else ItemsOf(script[..|script| - 1]) + ItemOf(script[|script| - 1])
  }

  ghost predicate Frameable(script: seq<Call>) {
    forall i :: 0 <= i < |script| && script[i].Set? ==> script[i].cmd != IAC && |script[i].val| <= 4
  }

  lemma {:induction false} ItemsFrameable(script: seq<Call>)
    requires Frameable(script)
    ensures var items := ItemsOf(script); forall i :: 0 <= i < |items| && items[i].Control? ==> items[i].cmd != IAC
    decreases |script|
  {
    if script != [] {
      var n := |script| - 1;
      ItemsFrameable(script[..n]);
      assert script[n].Set? ==> script[n].cmd != IAC;
      assert ItemsOf(script) == ItemsOf(script[..n]) + ItemOf(script[n]);
    }
  }

  /** One more call. */
  lemma {:induction false} EncodeStep(script: seq<Call>, n: nat)
    requires n < |script|
    ensures Encode(ItemsOf(script[..n + 1])) == Encode(ItemsOf(script[..n])) + Encode(ItemOf(script[n]))
  {
    assert script[..n + 1][..n] == script[..n];
    EncodeMore(ItemsOf(script[..n]), ItemOf(script[n]));
  }

  /** What a run has put on wire and queue: all calls up to `done`, and of the one
      that was rejected after that at most a first part. */
  ghost predicate Accounts(out: seq<Byte>, script: seq<Call>, done: nat, leaked: nat) {
    && done <= |script|
    && if done == |script| then leaked == 0 && out == Encode(ItemsOf(script))
       else leaked <= |Encode(ItemOf(script[done]))|
            && out == Encode(ItemsOf(script[..done])) + Encode(ItemOf(script[done]))[..leaked]
  }

  ghost predicate SentAll(out: seq<Byte>, script: seq<Call>, n: nat) {
    n <= |script| && out == Encode(ItemsOf(script[..n]))
  }

  lemma {:induction false} SentNone(out: seq<Byte>, script: seq<Call>)
    requires |out| == 0
    ensures SentAll(out, script, 0)
  {
    assert |script[..0]| == 0;
  }

  lemma {:induction false} SentMore(out: seq<Byte>, script: seq<Call>, n: nat, taken: nat)
    requires SentAll(out, script, n) && n < |script| && taken <= |Encode(ItemOf(script[n]))|
    ensures var out' := out + Encode(ItemOf(script[n]))[..taken];
            && Accounts(out', script, n, taken)
            && (taken == |Encode(ItemOf(script[n]))| ==> SentAll(out', script, n + 1))
  {
    var item := Encode(ItemOf(script[n]));
    assert item[..|item|] == item;
    EncodeStep(script, n);
  }

  lemma {:induction false} SentEverything(out: seq<Byte>, script: seq<Call>)
    requires SentAll(out, script, |script|)
    ensures Accounts(out, script, |script|, 0)
  {
    assert script[..|script|] == script;
  }

  /** Any run of writes, COM-PORT commands and flushes, up to the first one the link
      rejects. */
  method Run(l: SerialTcp, script: seq<Call>) returns (done: nat, ghost leaked: nat, ghost heard: seq<WriteResult>)
    requires l.Valid() && |l.wire.sent| == |l.queue.Pending()| == 0 && Frameable(script)
    modifies l.queue, l.queue.ring, l.queue.ring.slots, l.wire
    ensures l.Valid() && Accounts(l.wire.sent + l.queue.Pending(), script, done, leaked)
    ensures done < |script| ==> Cause(l.Ready(script[done]), script[done], |l.queue.Pending()|, leaked, heard)
    ensures done < |script| ==> heard == Suffix(l.wire.answers, |heard|)
  {
    SentNone(l.wire.sent + l.queue.Pending(), script);
    done, leaked, heard := 0, 0, [];
    while done < |script|
      invariant done <= |script| && l.Valid() && leaked == 0
      invariant l.queue.ring.slots == old(l.queue.ring.slots) || fresh(l.queue.ring.slots)
      invariant SentAll(l.wire.sent + l.queue.Pending(), script, done)
    {
      ghost var before := l.wire.sent + l.queue.Pending();
      var ok;
      ok, leaked, heard := Perform(l, script[done]);
      SentMore(before, script, done, leaked);
      if !ok {
        return;
      }
      done, leaked := done + 1, 0;
    }
    SentEverything(l.wire.sent + l.queue.Pending(), script);
  }

  /** Of a rejected call, what has leaked is a first part of what it would have sent. */
  lemma {:induction false} AccountsPrefix(out: seq<Byte>, script: seq<Call>, done: nat, leaked: nat)
    requires Accounts(out, script, done, leaked)
    ensures out <= Encode(ItemsOf(if done == |script| then script else script[..done + 1]))
  {
    if done < |script| {
      EncodeStep(script, done);
    }
  }

  /** End to end: whatever part of such a run is on the wire, cut into whatever
      chunks, the peer's filter passes on a prefix of the payloads, and all of them
      once the queue is empty. */
  lemma {:induction false} EndToEnd(script: seq<Call>, sent: seq<Byte>, pending: seq<Byte>, chunks: seq<seq<Byte>>, peer: Rx)
    requires Frameable(script) && sent + pending <= Encode(ItemsOf(script)) && Concat(chunks) == sent && peer.state == Data
    ensures FilterChunks(peer, chunks).data <= Payloads(ItemsOf(script))
    ensures sent == Encode(ItemsOf(script)) ==> FilterChunks(peer, chunks) == Effect(peer, Payloads(ItemsOf(script)), [])
  {
    ItemsFrameable(script);
    PrefixDelivered(peer, ItemsOf(script), chunks);
  }

  /** Why a call is rejected: the link is not ready for it, the descriptor refuses, or what
      is left does not fit the queue. */
  ghost predicate Cause(ready: bool, c: Call, pending: nat, leaked: nat, heard: seq<WriteResult>) {
    if c.FlushQueue? then Refused(heard)
    else !ready || Refused(heard) || pending + |Encode(ItemOf(c))| - leaked > LinkQueue.MAX_BYTES
  }

  method Perform(l: SerialTcp, c: Call) returns (ok: bool, ghost taken: nat, ghost heard: seq<WriteResult>)
    requires l.Valid() && (c.Set? ==> |c.val| <= 4)
    modifies l.queue, l.queue.ring, l.queue.ring.slots, l.wire
    ensures l.Valid() && (l.queue.ring.slots == old(l.queue.ring.slots) || fresh(l.queue.ring.slots))
    ensures taken <= |Encode(ItemOf(c))| && (ok ==> taken == |Encode(ItemOf(c))|)
    ensures !ok ==> Cause(l.Ready(c), c, |l.queue.Pending()|, taken, heard)
    ensures ok && !c.FlushQueue? ==> l.Ready(c) && !Refused(heard)
    ensures l.wire.answers == old(l.wire.answers) + heard
    ensures l.wire.sent + l.queue.Pending() == old(l.wire.sent + l.queue.Pending()) + Encode(ItemOf(c))[..taken]
  {
    match c
    case Write(d) =>
      ok, taken, heard := l.WriteData(d);
      EncodeOne(Payload(d));
    case Set(cmd, val) =>
      ok, taken, heard := l.ComportSend(cmd, val);
      EncodeOne(Control(cmd, val));
    case FlushQueue =>
      var r;
      r, heard := l.queue.Flush(l.wire);
      ok, taken := !r.Broken?, 0;
  }

  lemma {:induction false} EncodeOne(i: Item)
    ensures Encode([i]) == EncodeItem(i)
  {
    assert [i][..0] == [];
  }

  lemma {:induction false} EncodeMore(items: seq<Item>, more: seq<Item>)
    requires |more| <= 1
    ensures Encode(items + more) == Encode(items) + Encode(more)
  {
    if more == [] {
      assert items + more == items;
    } else {
      assert (items + more)[..|items|] == items && more == [more[0]];
      EncodeOne(more[0]);
    }
  }
}
