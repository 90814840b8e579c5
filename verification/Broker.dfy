/** The broker's event loop (src/broker.c): client messages, timers and link events
    act on the client table and the device side. Whatever the events, all their invariants hold together. */
module Broker {
  import opened Bytes
  import opened Patterns
  import opened Link
  import Device
  import BreakMachine
  import Flood
  import opened Expect
  import opened ExpectEngine
  import opened Clients

  const DRAIN_CHUNK := 4096

  datatype Message =
    | Greeting(hello: Hello, tokenSet: bool)
    | SendExpect(id: string, compiled: Option<Pattern>, deadline: real, payload: Payload)
    | ListenExpect(id: string, compiled: Option<Pattern>, deadline: real, overRate: bool)
    | TakeControl
    | GiveControl
    | Suspend
    | Act(request: Device.Request)
    | Query
  {
    predicate Resumes() { Act? && request.Resume? }
  }

  /** The data that comes with an expect: none, unusable, or bytes to send. */
  datatype Payload = Nothing | Unusable | Data(bytes: seq<Byte>)

  /** What became of an expect that came with data: refused, waiting, or taken back. */
  datatype Sent = NotAdded | Waiting | TakenBack

  /** What wakes the event loop. Clients are addressed by their place in the table. */
  datatype Event =
    | Accept(needsAuth: bool, watched: bool)
    | FromClient(at: nat, message: Message)
    | Hangup(at: nat)
    | FromSink(request: SinkRequest)
    | Turn(now: real, blocked: bool, answer: Begun)
    | LinkReady(chunks: seq<Chunk>, lost: bool, hangup: bool, writable: bool, flushFails: bool, poll: Polled, now: real)
    | BreakTimer
    | FloodTimer(now: real, later: real)
    | Housekeeping(late: nat -> bool, dead: nat -> bool)
    | FlushClients(broken: nat -> bool)

  /** Device output as read; `critical`: it contains a critical incident. */
  datatype Chunk = Chunk(data: seq<Byte>, ts: real, critical: bool)

  /** What the built-in MCP sink asks for. `room`: it has a slot for the pending call. Its
      pin tool hands every action on to the link; only its reset tool pulses a line. It makes up
      its own ids, of at most 15 bytes. */
  datatype SinkRequest =
    | SinkWrite(data: seq<Byte>)
    | SinkPin(line: Line, action: Action, ms: int)
    | SinkRule(rule: Device.RuleRequest)
    | SinkResume(blocked: bool, now: real, answer: Begun)
    | SinkSuspend
    | SysRq(ms: int, key: Byte, delay: int)
    | SinkReset(line: Line, hold: int, wait: Option<Awaited>)
    | SinkCommand(id: Fitting, compiled: Option<Pattern>, deadline: real, data: seq<Byte>, room: bool)
    | SinkWait(id: Fitting, compiled: Option<Pattern>, deadline: real, room: bool)
    | SinkMonitor(id: Fitting, compiled: Option<Pattern>, deadline: real, room: bool)
  {
    /** Requests that only listen are not turned away by a takeover. */
    predicate Listens() { SinkWait? || SinkMonitor? }

    /** Requests that go straight to the device side. */
    predicate Acts() { SinkWrite? || SinkPin? || SinkRule? || SinkResume? }

    function ForDevice(): (r: Device.Request)
      requires Acts()
      ensures r.Resume? == SinkResume? && (r.Pin? ==> r.action.Drive?)
    {
      match this
      case SinkWrite(data) => Device.Send(data)
      case SinkPin(line, action, ms) => Device.Request.Pin(line, Device.Drive(action), ms)
      case SinkRule(rule) => Device.Request.AddRule(rule)
      case SinkResume(blocked, now, answer) => Device.Request.Resume(blocked, now, answer)
    }
  }

  /** The output a reset waits for. */
  datatype Awaited = Awaited(id: Fitting, compiled: Option<Pattern>, deadline: real, room: bool)

  predicate Resumes(e: Event) {
    (e.FromClient? && e.message.Resumes()) || (e.FromSink? && e.request.SinkResume?)
  }

  predicate AnyResumes(script: seq<Event>) { exists k :: 0 <= k < |script| && Resumes(script[k]) }

  lemma {:induction false} AnyMore(script: seq<Event>, i: nat)
    requires i < |script|
    ensures script[..i + 1] == script[..i] + [script[i]]
    ensures AnyResumes(script[..i + 1]) <==> AnyResumes(script[..i]) || Resumes(script[i])
  {
    var more := script[..i + 1];
    assert forall k :: 0 <= k < i ==> more[k] == script[..i][k];
    assert more[i] == script[i];
  }

  /** A chunk as the drain reads it. */
  predicate Drained(c: Chunk) { c.ts > 0.0 && |c.data| <= DRAIN_CHUNK }

  predicate Possible(e: Event) {
    e.LinkReady? ==> forall i :: 0 <= i < |e.chunks| ==> Drained(e.chunks[i])
  }

  /** The output of a run of chunks. */
  ghost function Output(chunks: seq<Chunk>): seq<Byte> {
    if chunks == [] then [] else Output(chunks[..|chunks| - 1]) + chunks[|chunks| - 1].data
  }

  /** What is on record: requests of every kind, and what became of them. */
  datatype Ledger = Ledger(
    book: seq<Key>, collected: multiset<nat>, cancelled: multiset<nat>, log: seq<Byte>,
    pulses: seq<BreakMachine.Pulse>, fired: seq<BreakMachine.Completion>,
    floods: seq<Flood.Request>, results: seq<Flood.Result>)

  ghost predicate Extends(a: Ledger, b: Ledger) {
    && a.book <= b.book && a.collected <= b.collected && a.cancelled <= b.cancelled && a.log <= b.log
    && a.pulses <= b.pulses && a.fired <= b.fired && a.floods <= b.floods && a.results <= b.results
  }

  lemma {:induction false} ExtendsOn(a: Ledger, b: Ledger, c: Ledger)
    requires Extends(a, b) && Extends(b, c)
    ensures Extends(a, c)
  {
  }

  class Broker {
    const table: Table
    const device: Device.Device
    ghost var trace: seq<Event>  // the events handled so far

    ghost predicate Valid()
      reads table, table.clients, table.holder, table.expects, device, device.control, device.control.port,
            device.breaks, device.flood, device.rules, device.rules.window
    {
      table.Valid() && device.Valid() && table.expects.largest <= DRAIN_CHUNK
    }

    /** What has been accepted, completed, reported or resolved stays on record. */
    twostate predicate Grows()
      reads table.expects, device.breaks, device.flood
    {
      table.expects.Grows() && device.Grows()
    }

    ghost function Records(): Ledger
      reads table.expects, device.breaks, device.flood
    {
      Ledger(table.expects.book, table.expects.collected, table.expects.cancelled, table.expects.log,
             device.breaks.accepted, device.breaks.fired, device.flood.accepted, device.flood.results)
    }

    /** Starts on a port that its setup has opened. */
    constructor (port: Port, reconnect: bool, baud: int)
      requires port.phase == Up
      ensures Valid() && device.control.port == port && device.control.IsUp() && trace == []
      ensures table.clients == [] && table.holder == null && |table.expects.requests| == 0
      ensures fresh(table) && fresh(table.expects) && fresh(device) && fresh(device.control) && fresh(device.breaks)
      ensures fresh(device.flood) && fresh(device.rules) && fresh(device.rules.window) && fresh(device.rules.window.buf)
    {
      table := new Table();
      device := new Device.Device(port, reconnect, baud);
      trace := [];
    }

    // ----- What each event comes to -----

    /** The port is given away; pulses, floods and expects have ended. */
    twostate predicate GivenAway()
      reads table.expects, device.control, device.control.port, device.breaks, device.flood
    {
      && device.control.suspended && device.control.port.phase == Closed
      && device.control.Now() == old(device.control.Now()).Suspended()
      && device.control.port.attempts == old(device.control.port.attempts)
      && (!old(device.control.suspended) ==>
            device.breaks.state.Idle? && !device.flood.active && |table.expects.requests| == 0)
      && (old(device.control.suspended) ==> unchanged(table.expects, device.breaks, device.flood))
    }

    /** A permitted message that acts on the device, the port or the rules has had its effect. */
    twostate predicate Acted(m: Message)
      reads table.expects, device`calls, device`baud, device`early, device.control, device.control.port,
            device.breaks, device.flood, device.rules
    {
      && (m.Suspend? ==> GivenAway())
      && (m.Act? ==> device.Did(m.request) && device.Leaves(m.request) && unchanged(table.expects))
    }

    /** Such a message has its effect iff its sender may act, and otherwise none. */
    twostate predicate Obeyed(c: Client, m: Message)
      reads table.expects, device`calls, device`baud, device`heard, device`early, device.control, device.control.port,
            device.breaks, device.flood, device.rules
    {
      if old(c.greeted && table.CanSend(c)) then Acted(m) else device.Untouched() && unchanged(table.expects)
    }

    /** An expect that came with data: registered first, and taken back by its id when the
        data cannot be sent. */
    twostate predicate SentExpect(c: Client, id: string, compiled: Option<Pattern>, deadline: real, payload: Payload)
      reads table.expects, device`calls
    {
      if old(c.greeted && table.CanSend(c) && device.control.IsUp()) && compiled.Some? && old(table.expects.Room(Owner.Client(c.num))) then
        && Offered(payload)
        && var own := NewRequest(id, Owner.Client(c.num), compiled.value, deadline);
           if payload.Unusable? || (payload.Data? && !device.calls[|device.calls| - 1].ok)
           then WithoutId(old(table.expects.requests) + [own], table.expects.requests, id)
           else table.expects.requests == old(table.expects.requests) + [own]
      else table.expects.requests == old(table.expects.requests) && device.calls == old(device.calls)
    }

    /** The data that came with an expect has been offered to the link, once. */
    twostate predicate Offered(payload: Payload)
      reads device`calls
    {
      if payload.Data? then device.Calls(Wrote(payload.bytes, true)) && device.calls != [] else device.calls == old(device.calls)
    }

    /** A wait for output needs the link, and no permission to send. */
    twostate predicate Listened(c: Client, id: string, compiled: Option<Pattern>, deadline: real, overRate: bool)
      reads table.expects
    {
      table.expects.requests == old(table.expects.requests) +
        if old(c.greeted && device.control.IsUp()) && !overRate && compiled.Some? && old(table.expects.Room(Owner.Client(c.num)))
        then [NewRequest(id, Owner.Client(c.num), compiled.value, deadline)] else []
    }

    /** Messages about the connection itself and about output to wait for. */
    twostate predicate Heeded(c: Client, m: Message)
      reads table, table.clients, table.expects, c, device`calls
    {
      match m
      case Greeting(h, tokenSet) => table.Greeted(c, h, tokenSet)
      case SendExpect(id, compiled, deadline, payload) => SentExpect(c, id, compiled, deadline, payload)
      case ListenExpect(id, compiled, deadline, overRate) => Listened(c, id, compiled, deadline, overRate)
      case TakeControl => table.holder == if old(c.greeted && table.CanSend(c)) then c else old(table.holder)
      case GiveControl => table.holder == if old(c.greeted) && old(table.holder) == c then null else old(table.holder)
      case _ => true
    }

    /** The sink waits for output if the link is there; without room for the call the wait
        is taken back, and in the case of a monitor every wait of the sink. */
    twostate predicate SinkListened(r: SinkRequest)
      requires r.Listens()
      reads table.expects
    {
      if old(device.control.suspended || device.control.port.phase == Closed) || r.compiled.None? || !old(table.expects.Room(Mcp))
      then table.expects.requests == old(table.expects.requests)
      else if r.room then SinkWaits(r.id, r.compiled.value, r.deadline)
      else if r.SinkMonitor? then SinkCleared() else IdCleared(r.id)
    }

    /** A command of the sink waits for its output, is written once, and its wait is taken back
        when the link does not take it; without room for the call all waits of the sink are. */
    twostate predicate SinkSent(r: SinkRequest)
      requires r.SinkCommand?
      reads table.expects, device`calls
    {
      if old(device.control.IsUp()) && r.compiled.Some? && old(table.expects.Room(Mcp)) then
        && device.Calls(Wrote(r.data, true)) && device.calls != []
        && if !device.calls[|device.calls| - 1].ok then IdCleared(r.id)
           else if r.room then SinkWaits(r.id, r.compiled.value, r.deadline)
           else SinkCleared()
      else table.expects.requests == old(table.expects.requests) && device.calls == old(device.calls)
    }

    /** The wait that goes with a reset follows once the pulse is accepted. */
    twostate predicate SinkAwaits(wait: Option<Awaited>)
      reads table.expects, device.breaks
    {
      if |device.breaks.accepted| > |old(device.breaks.accepted)| && wait.Some? && wait.value.compiled.Some? && old(table.expects.Room(Mcp)) then
        if wait.value.room then SinkWaits(wait.value.id, wait.value.compiled.value, wait.value.deadline) else IdCleared(wait.value.id)
      else table.expects.requests == old(table.expects.requests)
    }

    twostate predicate SinkDid(r: SinkRequest)
      reads table.expects, device`calls, device`baud, device`early, device.control, device.control.port,
            device.breaks, device.flood, device.rules
    {
      match r
      case SinkWrite(data) => Acted(Act(Device.Send(data)))
      case SinkPin(line, action, ms) => Acted(Act(Device.Request.Pin(line, Device.Drive(action), ms)))
      case SinkRule(rule) => Acted(Act(Device.Request.AddRule(rule)))
      case SinkResume(blocked, now, answer) => Acted(Act(Device.Request.Resume(blocked, now, answer)))
      case SinkSuspend => GivenAway()
      case SysRq(ms, key, delay) => device.breaks.Struck(device.control.IsUp(), ms, [key], delay)
      case SinkReset(line, hold, wait) =>
        device.breaks.Grasped(device.control.IsUp(), line, if hold < 1 then 1 else hold) && SinkAwaits(wait)
      case SinkCommand(_, _, _, _, _) => SinkSent(r)
      case SinkWait(_, _, _, _) => SinkListened(r)
      case SinkMonitor(_, _, _, _) => SinkListened(r)
    }

    /** A turn hands out finished expects, and tries a lost link again when that is due. */
    twostate predicate Turned(now: real, blocked: bool, answer: Begun)
      reads table.expects, device.control, device.control.port
    {
      Collects(old(table.expects.requests), table.expects.requests, now, 16) && device.Retried(now, blocked, answer)
    }

    /** Whatever is read is passed on to everybody before the link is given up. */
    twostate predicate Drank(e: Event)
      requires e.LinkReady?
      reads table.expects, device`heard, device.control, device.control.port, device.breaks, device.flood
    {
      && table.expects.log == old(table.expects.log) + (if old(device.control.port.phase) == Up then Output(e.chunks) else [])
      && device.heard == old(device.heard) + (if old(device.control.port.phase) == Up then Output(e.chunks) else [])
      && (old(device.control.port.phase) == Connecting ==> device.Answered(e.hangup, e.writable, e.poll))
      && (old(device.control.port.phase) == Closed ==> unchanged(device.control, device.control.port, device.breaks, device.flood))
      && (old(device.control.port.phase) == Up ==>
            if e.lost || e.hangup || (e.writable && e.flushFails)
            then Lost() else device.control.Now() == old(device.control.Now()))
    }

    /** The link was lost: what was under way has ended, and nobody waits for more output. */
    twostate predicate Lost()
      reads table.expects, device.control, device.control.port, device.breaks, device.flood
    {
      && device.control.Now() == old(device.control.Now()).(disconnected := true) && device.control.port.phase == Closed
      && device.breaks.state.Idle? && !device.flood.active && Settled(table.expects.requests)
    }

    /** Connections come and go. */
    twostate predicate Connected(e: Event)
      reads table, table.clients, table.expects
    {
      match e
      case Accept(needsAuth, watched) =>
        if |old(table.clients)| < 32 && watched
        then |table.clients| == |old(table.clients)| + 1 && old(table.clients) <= table.clients && Newcomer(table.clients[|table.clients| - 1], needsAuth)
        else table.clients == old(table.clients)
      case Hangup(at) =>
        if at < |old(table.clients)| then Gone(at) else table.clients == old(table.clients)
      case Housekeeping(late, dead) =>
        && table.Departed()
        && (forall d :: d in table.clients ==> (d.greeted || !late(d.num)) && !dead(d.num))
        && (forall d :: d in old(table.clients) && d !in table.clients ==> (!old(d.greeted) && late(d.num)) || dead(d.num))
      case FlushClients(broken) =>
        && table.Departed()
        && (forall d :: d in table.clients ==> !broken(d.num))
        && (forall d :: d in old(table.clients) && d !in table.clients ==> broken(d.num))
      case _ => true
    }

    /** A client that has not said anything yet. */
    predicate Newcomer(c: Client, needsAuth: bool)
      reads c
    {
      !c.greeted && !c.controller && c.needsAuth == needsAuth && |c.name| == 0
    }

    /** One client is gone, with its takeover and its expects. */
    twostate predicate Gone(at: nat)
      requires at < |old(table.clients)|
      reads table, table.expects
    {
      && |table.clients| == |old(table.clients)| - 1 && old(table.clients)[at] !in table.clients
      && table.holder == (if old(table.holder) == old(table.clients)[at] then null else old(table.holder))
      && WithoutOwner(old(table.expects.requests), table.expects.requests, Owner.Client(old(table.clients)[at].num))
    }

    /** Each event has had its effect; `clients` were there when it came. Compared with `true`
        where it is passed on, as `Answered` is, so that it is passed on whole. */
    twostate predicate Handled(e: Event, clients: seq<Client>)
      reads table, table.clients, table.expects, clients, device`calls, device`baud, device`heard, device`early,
            device.control, device.control.port, device.breaks, device.flood, device.rules
    {
      match e
      case FromClient(at, m) => at < |clients| ==> Answered(clients[at], m)
      case FromSink(r) => if r.Listens() || old(table.holder) == null then SinkDid(r) else device.Untouched() && unchanged(table.expects)
      case Turn(now, blocked, answer) => Turned(now, blocked, answer)
      case LinkReady(_, _, _, _, _, _, _) => Drank(e)
      case BreakTimer => device.breaks.Ticked()
      case FloodTimer(now, later) => device.flood.Ticked(device.control.IsUp(), now, later)
      case _ => Connected(e)
    }

    /** A client that does not know the token is gone; otherwise its message has had its effect. */
    twostate predicate Answered(c: Client, m: Message)
      reads table, table.clients, table.expects, c, device`calls, device`baud, device`heard, device`early,
            device.control, device.control.port, device.breaks, device.flood, device.rules
    {
      if c.disconnected then c !in table.clients && Expelled(c, m) else Taken(c, m)
    }

    /** Nobody is expelled but for a wrong token. */
    twostate predicate Expelled(c: Client, m: Message) {
      old(c.disconnected) || (m.Greeting? && AnswerTo(old(c.greeted), c.needsAuth && m.tokenSet, m.hello).BadToken?)
    }

    /** A message has had its effect. */
    twostate predicate Taken(c: Client, m: Message)
      reads table, table.clients, table.expects, c, device`calls, device`baud, device`heard, device`early,
            device.control, device.control.port, device.breaks, device.flood, device.rules
    {
      if m.Act? || m.Suspend? then Obeyed(c, m) else Heeded(c, m)
    }

    // ----- Suspending and losing the link -----

    /** Pulses, floods and expects end, and the port is given away. */
    method DoSuspend()
      requires Valid()
      modifies table.expects, device.control, device.control.port, device.breaks, device.flood
      ensures Valid() && device.Grows() && table.expects.Quiet() && GivenAway()
    {
      if device.control.suspended {
        return;
      }
      table.CancelAll();
      device.Suspend();
    }

    /** The link was lost: what is under way ends, and nobody is left waiting for output. */
    method LinkDown(now: real)
      requires Valid() && device.control.port.phase == Up
      modifies table.expects, device.control, device.control.port, device.breaks, device.flood
      ensures Valid() && device.Grows() && table.expects.Quiet() && Lost()
      ensures device.control.port.attempts == old(device.control.port.attempts)
    {
      device.LinkDown(now);
      table.AbortExpects(now);
    }

    // ----- Client messages -----

    /** Registers the expect first. When its data cannot be sent it is taken back by its
        id: what goes is every request stored under that very id, whoever made it. Its own
        request is among them iff the id fits its field. */
    method OnSendExpect(c: Client, id: string, compiled: Option<Pattern>, deadline: real, payload: Payload) returns (sent: Sent)
      requires Valid() && c in table.clients
      modifies device`calls, table.expects
      ensures Valid() && table.expects.Quiet()
      ensures c.greeted ==> SentExpect(c, id, compiled, deadline, payload)
      ensures !table.CanSend(c) || !device.control.IsUp() ==> device.Untouched()
      ensures sent.NotAdded? <==> !(&& table.CanSend(c) && device.control.IsUp() && compiled.Some?
                                    && old(table.expects.Room(Owner.Client(c.num))))
      ensures sent.NotAdded? ==> table.expects.requests == old(table.expects.requests)
      ensures sent.Waiting? ==>
                && compiled.Some? && !payload.Unusable?
                && table.expects.requests == old(table.expects.requests) + [NewRequest(id, Owner.Client(c.num), compiled.value, deadline)]
      ensures sent.TakenBack? ==>
                var own := NewRequest(id, Owner.Client(c.num), compiled.value, deadline);
                && !payload.Nothing?
                && WithoutId(old(table.expects.requests) + [own], table.expects.requests, id)
                && (own !in table.expects.requests <==> |id| <= FIELD_MAX)
    {
      if !table.CanSend(c) || !device.control.IsUp() {
        return NotAdded;
      }
      ghost var before := table.expects.requests;
      var added := table.AddExpect(c, id, compiled, deadline);
      if !added {
        return NotAdded;
      }
      var fine := Deliver(payload);
      if fine {
        return Waiting;
      }
      CancelId(id);
      OwnRequestGone(before, NewRequest(id, Owner.Client(c.num), compiled.value, deadline), table.expects.requests, id);
      return TakenBack;
    }

    /** Sends the data that came with an expect. */
    method Deliver(payload: Payload) returns (fine: bool)
      requires Valid()
      modifies device`calls
      ensures Valid() && (payload.Nothing? ==> fine) && (payload.Unusable? ==> !fine) && Offered(payload)
      ensures payload.Data? ==> device.calls != [] && device.calls[|device.calls| - 1].ok == fine
    {
      fine := !payload.Unusable?;
      if payload.Data? {
        fine := Offer(payload.bytes);
      }
    }

    /** Waiting for output needs no permission to send. */
    method OnListenExpect(c: Client, id: string, compiled: Option<Pattern>, deadline: real, overRate: bool)
      requires Valid() && c in table.clients
      modifies table.expects
      ensures Valid() && table.expects.Quiet()
      ensures table.expects.requests == old(table.expects.requests) +
                if device.control.IsUp() && !overRate && compiled.Some? && old(table.expects.Room(Owner.Client(c.num)))
                then [NewRequest(id, Owner.Client(c.num), compiled.value, deadline)] else []
      ensures c.greeted ==> Listened(c, id, compiled, deadline, overRate)
    {
      if device.control.IsUp() && !overRate {
        var _ := table.AddExpect(c, id, compiled, deadline);
      }
    }

    /** A permitted message that acts on the device, the port or the rules. */
    method Perform(m: Message)
      requires Valid() && (m.Act? || m.Suspend?)
      modifies table.expects, device, device.control, device.control.port, device.breaks, device.flood,
               device.rules, device.rules.window
      ensures Valid() && device.Grows() && table.expects.Quiet() && device.StaysAway(m.Resumes())
      ensures Acted(m)
    {
      if m.Suspend? {
        DoSuspend();
      } else {
        device.Perform(m.request);
      }
    }

    /** A message changes the device, the port or the rules only if its sender is a
        controller and nobody else holds the takeover. */
    method Handle(c: Client, m: Message)
      requires Valid() && c in table.clients
      modifies table, table.expects, c, device, device.control, device.control.port, device.breaks, device.flood,
               device.rules, device.rules.window
      ensures Valid() && Grows() && device.StaysAway(m.Resumes())
      ensures !old(table.CanSend(c)) ==> device.Untouched()
      ensures Taken(c, m) && (c.disconnected ==> Expelled(c, m))
      ensures !old(c.greeted) && !m.Greeting? ==> device.Untouched() && unchanged(table, table.expects, c)
      ensures m.Act? || m.Suspend? ==> unchanged(table)
      ensures c in table.clients && forall d :: d in table.clients ==> d in old(table.clients)
    {
      if !c.greeted && !m.Greeting? {
        return;
      }
      if m.Act? || m.Suspend? {
        if table.CanSend(c) {
          Perform(m);
        }
      } else {
        Register(c, m);
      }
    }

    /** Messages about the connection itself and about output to wait for. */
    method Register(c: Client, m: Message)
      requires Valid() && c in table.clients && !m.Act? && !m.Suspend? && (c.greeted || m.Greeting?)
      modifies table, table.expects, c, device`calls
      ensures Valid() && table.expects.Quiet() && (!old(table.CanSend(c)) ==> device.Untouched()) && Heeded(c, m)
      ensures c.disconnected ==> Expelled(c, m)
      ensures c in table.clients && forall d :: d in table.clients ==> d in old(table.clients)
    {
      match m {
        case Greeting(h, tokenSet) => var _ := table.Greet(c, h, tokenSet);
        case SendExpect(_, _, _, _) => OnExpect(c, m);
        case ListenExpect(_, _, _, _) => OnExpect(c, m);
        case TakeControl => var _ := table.Takeover(c);
        case GiveControl => table.Release(c);
        case Query =>
      }
    }

    method OnExpect(c: Client, m: Message)
      requires Valid() && c in table.clients && c.greeted && (m.SendExpect? || m.ListenExpect?)
      modifies table.expects, device`calls
      ensures Valid() && table.expects.Quiet() && (!table.CanSend(c) ==> device.Untouched()) && Heeded(c, m)
    {
      match m {
        case SendExpect(id, compiled, deadline, payload) => var _ := OnSendExpect(c, id, compiled, deadline, payload);
        case ListenExpect(id, compiled, deadline, overRate) => OnListenExpect(c, id, compiled, deadline, overRate);
      }
    }

    // ----- The MCP sink -----

    /** The sink keeps its hands off the device while a client holds the takeover. */
    method OnSink(r: SinkRequest)
      requires Valid()
      modifies table.expects, device, device.control, device.control.port, device.breaks, device.flood,
               device.rules, device.rules.window
      ensures Valid() && device.Grows() && table.expects.Quiet() && device.StaysAway(r.SinkResume?)
      ensures table.holder != null ==> device.Untouched()
      ensures if r.Listens() || table.holder == null then SinkDid(r) else device.Untouched() && unchanged(table.expects)
    {
      if r.Listens() {
        var _ := SinkListen(r);
      } else if table.holder == null {
        SinkPerform(r);
      }
    }

    method SinkPerform(r: SinkRequest)
      requires Valid() && !r.Listens()
      modifies table.expects, device, device.control, device.control.port, device.breaks, device.flood,
               device.rules, device.rules.window
      ensures Valid() && device.Grows() && table.expects.Quiet() && device.StaysAway(r.SinkResume?) && SinkDid(r)
    {
      if r.Acts() {
        Perform(Act(r.ForDevice()));
      } else if r.SinkSuspend? {
        DoSuspend();
      } else {
        SinkDrive(r);
      }
    }

    method SinkDrive(r: SinkRequest)
      requires Valid() && (r.SysRq? || r.SinkReset? || r.SinkCommand?)
      modifies table.expects, device`calls, device.breaks
      ensures Valid() && device.breaks.Grows() && table.expects.Quiet() && SinkDid(r)
    {
      match r {
        case SysRq(ms, key, delay) => device.Strike(ms, [key], delay);
        case SinkReset(line, hold, wait) => SinkPulse(line, hold, wait);
        case SinkCommand(_, _, _, _, _) => var _ := SinkSend(r);
      }
    }

    /** Waits for output; without room for the call, the wait is taken back, and in the
        case of a monitor every wait of the sink. */
    method SinkListen(r: SinkRequest) returns (sent: Sent)
      requires Valid() && r.Listens()
      modifies table.expects
      ensures Valid() && table.expects.Quiet() && SinkListened(r)
      ensures sent.NotAdded? ==> table.expects.requests == old(table.expects.requests)
      ensures sent.Waiting? ==> r.room && r.compiled.Some? && SinkWaits(r.id, r.compiled.value, r.deadline)
      ensures sent.TakenBack? ==> !r.room && if r.SinkMonitor? then SinkCleared() else IdCleared(r.id)
    {
      if device.control.suspended || device.control.port.phase == Closed {
        return NotAdded;
      }
      var added := SinkExpect(r.id, r.compiled, r.deadline);
      if !added {
        return NotAdded;
      }
      if r.room {
        return Waiting;
      }
      TakeBack(old(table.expects.requests), r.id, r.SinkMonitor?);
      return TakenBack;
    }

    /** A command waits for its output before it is written. */
    method SinkSend(r: SinkRequest) returns (sent: Sent)
      requires Valid() && r.SinkCommand?
      modifies device`calls, table.expects
      ensures Valid() && table.expects.Quiet() && SinkSent(r)
      ensures sent.NotAdded? ==> table.expects.requests == old(table.expects.requests) && device.Untouched()
      ensures sent.Waiting? ==> device.control.IsUp() && r.room && r.compiled.Some? && SinkWaits(r.id, r.compiled.value, r.deadline)
      ensures sent.TakenBack? ==> IdCleared(r.id) || (!r.room && SinkCleared())
    {
      if !device.control.IsUp() {
        return NotAdded;
      }
      var added := SinkExpect(r.id, r.compiled, r.deadline);
      if !added {
        return NotAdded;
      }
      sent := SinkOffer(r, old(table.expects.requests));
    }

    /** The wait is registered; the command is written, or its wait taken back. */
    method SinkOffer(r: SinkRequest, ghost before: seq<Request>) returns (sent: Sent)
      requires Valid() && r.SinkCommand? && r.compiled.Some?
      requires table.expects.requests == before + [NewRequest(r.id, Mcp, r.compiled.value, r.deadline)]
      modifies device`calls, table.expects
      ensures Valid() && table.expects.Quiet() && device.Calls(Wrote(r.data, true)) && device.calls != []
      ensures var ok := device.calls[|device.calls| - 1].ok;
              if ok && r.room then sent.Waiting? && table.expects.requests == old(table.expects.requests)
              else sent.TakenBack? && if ok then WithoutOwner(before, table.expects.requests, Mcp)
                                      else WithoutId(before, table.expects.requests, r.id)
    {
      var ok := Offer(r.data);
      if ok && r.room {
        return Waiting;
      }
      TakeBack(before, r.id, ok);
      return TakenBack;
    }

    method Offer(data: seq<Byte>) returns (ok: bool)
      requires Valid()
      modifies device`calls
      ensures Valid() && device.calls == old(device.calls) + [Wrote(data, ok)]
    {
      ok := device.Write(data);
    }

    method SinkPulse(line: Line, hold: int, wait: Option<Awaited>)
      requires Valid()
      modifies device.breaks, table.expects
      ensures Valid() && device.breaks.Grows() && table.expects.Quiet()
      ensures device.breaks.Grasped(device.control.IsUp(), line, if hold < 1 then 1 else hold) && SinkAwaits(wait)
    {
      var ok := device.PulseLine(line, if hold < 1 then 1 else hold);
      if ok && wait.Some? {
        var added := SinkExpect(wait.value.id, wait.value.compiled, wait.value.deadline);
        if added && !wait.value.room {
          TakeBack(old(table.expects.requests), wait.value.id, false);
        }
      }
    }

    /** The sink has one more wait, and the earlier requests are as they were. */
    twostate predicate SinkWaits(id: string, pattern: Pattern, deadline: real)
      reads table.expects
    {
      table.expects.requests == old(table.expects.requests) + [NewRequest(id, Mcp, pattern, deadline)]
    }

    /** Of the earlier requests, those under other ids are left. */
    twostate predicate IdCleared(id: string)
      reads table.expects
    {
      WithoutId(old(table.expects.requests), table.expects.requests, id)
    }

    /** Of the earlier requests, those of other owners are left. */
    twostate predicate SinkCleared()
      reads table.expects
    {
      WithoutOwner(old(table.expects.requests), table.expects.requests, Mcp)
    }

    /** Takes the newest wait of the sink back, or all of its waits. */
    method TakeBack(ghost before: seq<Request>, id: Fitting, all: bool)
      requires Valid() && |table.expects.requests| == |before| + 1 && before == table.expects.requests[..|before|]
      requires table.expects.requests[|before|].id == id && table.expects.requests[|before|].client == Mcp
      modifies table.expects
      ensures Valid() && table.expects.Quiet()
      ensures if all then WithoutOwner(before, table.expects.requests, Mcp) else WithoutId(before, table.expects.requests, id)
    {
      ghost var during := table.expects.requests;
      if all {
        CancelSink();
        OwnGone(before, during, table.expects.requests);
      } else {
        CancelId(id);
        OwnIdGone(before, during, table.expects.requests, id);
      }
    }

    method SinkExpect(id: Fitting, compiled: Option<Pattern>, deadline: real) returns (added: bool)
      requires Valid()
      modifies table.expects
      ensures Valid() && table.expects.Quiet()
      ensures added == (old(table.expects.Room(Mcp)) && compiled.Some?)
      ensures added ==> SinkWaits(id, compiled.value, deadline)
      ensures !added ==> table.expects.requests == old(table.expects.requests)
    {
      added := table.AddForSink(id, compiled, deadline);
    }

    method CancelId(id: string)
      requires Valid()
      modifies table.expects
      ensures Valid() && table.expects.Quiet() && WithoutId(old(table.expects.requests), table.expects.requests, id)
    {
      table.CancelId(id);
    }

    method CancelSink()
      requires Valid()
      modifies table.expects
      ensures Valid() && table.expects.Quiet() && WithoutOwner(old(table.expects.requests), table.expects.requests, Mcp)
    {
      table.CancelSink();
    }

    // ----- Link events -----

    /** One chunk of device output: waiting clients, the flood and the rules see it. */
    method OnChunk(chunk: Chunk)
      requires Valid() && Drained(chunk)
      modifies table.expects, device`calls, device`heard, device.flood, device.rules, device.rules.window, device.rules.window.buf
      ensures Valid() && table.expects.Grows() && device.flood.Grows() && device.flood.Fed(chunk.data)
      ensures table.expects.log == old(table.expects.log) + chunk.data && device.heard == old(device.heard) + chunk.data
    {
      FeedExpects(chunk);
      PassOn(chunk);
    }

    method PassOn(chunk: Chunk)
      requires Valid() && Drained(chunk)
      modifies device`calls, device`heard, device.flood, device.rules, device.rules.window, device.rules.window.buf
      ensures Valid() && device.flood.Grows() && device.flood.Fed(chunk.data) && device.heard == old(device.heard) + chunk.data
    {
      var _, _ := device.Hear(chunk.data, chunk.ts);
    }

    method FeedExpects(chunk: Chunk)
      requires Valid() && Drained(chunk)
      modifies table.expects
      ensures Valid() && table.expects.Grows() && table.expects.log == old(table.expects.log) + chunk.data
      ensures !chunk.critical ==> AllFed(old(table.expects.requests), table.expects.requests, chunk.data)
      ensures chunk.critical ==> Settled(table.expects.requests)
    {
      table.FeedExpects(chunk.data);
      if chunk.critical {
        table.AbortExpects(chunk.ts);
      }
    }

    method OnOutput(chunks: seq<Chunk>)
      requires Valid() && forall i :: 0 <= i < |chunks| ==> Drained(chunks[i])
      modifies table.expects, device`calls, device`heard, device.flood, device.rules, device.rules.window, device.rules.window.buf
      ensures Valid() && table.expects.Grows() && device.flood.Grows()
      ensures table.expects.log == old(table.expects.log) + Output(chunks) && device.heard == old(device.heard) + Output(chunks)
    {
      for i := 0 to |chunks|
        invariant Valid() && table.expects.Grows() && device.flood.Grows()
        invariant table.expects.log == old(table.expects.log) + Output(chunks[..i]) && device.heard == old(device.heard) + Output(chunks[..i])
      {
        OutputStep(old(table.expects.log), chunks, i);
        OutputStep(old(device.heard), chunks, i);
        OnChunk(chunks[i]);
      }
      assert chunks[..|chunks|] == chunks;
    }

    /** Output is drained before a hangup is honoured. */
    method OnLinkReady(e: Event)
      requires Valid() && e.LinkReady? && Possible(e)
      modifies table.expects, device`calls, device`heard, device.control, device.control.port, device.breaks, device.flood,
               device.rules, device.rules.window, device.rules.window.buf
      ensures Valid() && Grows() && device.StaysAway(false)
      ensures device.control.port.attempts == old(device.control.port.attempts) && Drank(e)
    {
      if device.control.port.phase == Connecting {
        device.OnConnecting(e.hangup, e.writable, e.poll, e.now);
      } else if device.control.port.phase == Up {
        OnUp(e);
      }
    }

    method OnUp(e: Event)
      requires Valid() && e.LinkReady? && Possible(e) && device.control.port.phase == Up
      modifies table.expects, device`calls, device`heard, device.control, device.control.port, device.breaks, device.flood,
               device.rules, device.rules.window, device.rules.window.buf
      ensures Valid() && Grows() && device.control.port.attempts == old(device.control.port.attempts)
      ensures Drank(e)
    {
      OnOutput(e.chunks);
      if e.lost || e.hangup || (e.writable && e.flushFails) {
        LinkDown(e.now);
      }
    }

    /** The part of a turn that every wake-up starts with. */
    method OnTurn(now: real, blocked: bool, answer: Begun)
      requires Valid()
      modifies table.expects, device.control, device.control.port, device.rules.window
      ensures Valid() && table.expects.Quiet() && device.StaysAway(false) && Turned(now, blocked, answer)
    {
      table.Collect(now);
      device.Reconnect(now, blocked, answer);
    }

    // ----- The event loop -----

    /** A connection of the broker's, dropped when it has misbehaved. */
    method OnClient(at: nat, m: Message)
      requires Valid() && at < |table.clients|
      modifies table, table.expects, table.clients, device, device.control, device.control.port, device.breaks,
               device.flood, device.rules, device.rules.window
      ensures Valid() && Grows() && device.StaysAway(m.Resumes()) && (Answered(old(table.clients)[at], m) == true)
      ensures !old(table.CanSend(table.clients[at])) ==> device.Untouched()
      ensures forall d :: d in table.clients ==> d in old(table.clients)
    {
      var c := table.clients[at];
      Handle(c, m);
      if c.disconnected {
        Dismiss(c);
      }
    }

    /** A connection is closed. */
    method Dismiss(c: Client)
      requires Valid() && c in table.clients
      modifies table, table.expects
      ensures Valid() && table.expects.Quiet() && c !in table.clients
      ensures forall d :: d in table.clients ==> d in old(table.clients)
    {
      var _ := table.Remove(c, null);
    }

    /** Connections come and go. */
    method OnConnections(e: Event)
      requires Valid() && (e.Accept? || e.Hangup? || e.Housekeeping? || e.FlushClients?)
      modifies table, table.expects
      ensures Valid() && table.expects.Quiet() && Connected(e)
      ensures forall d :: d in table.clients ==> d in old(table.clients) || (e.Accept? && fresh(d))
    {
      match e {
        case Accept(needsAuth, watched) => var _ := table.Register(needsAuth, watched);
        case Hangup(at) =>
          if at < |table.clients| {
            var _ := table.Remove(table.clients[at], null);
          }
        case Housekeeping(_, _) => OnSweep(e);
        case FlushClients(_) => OnSweep(e);
      }
    }

    method OnSweep(e: Event)
      requires Valid() && (e.Housekeeping? || e.FlushClients?)
      modifies table, table.expects
      ensures Valid() && table.expects.Quiet() && Connected(e)
      ensures forall d :: d in table.clients ==> d in old(table.clients)
    {
      match e {
        case Housekeeping(late, dead) => table.DropStale(late, dead);
        case FlushClients(broken) => table.DropBroken(broken);
      }
    }

    method Dispatch(e: Event)
      requires Valid() && Possible(e)
      modifies table, table.expects, table.clients, device, device.control, device.control.port, device.breaks,
               device.flood, device.rules, device.rules.window, device.rules.window.buf
      ensures Valid() && Grows() && device.StaysAway(Resumes(e)) && (Handled(e, old(table.clients)) == true)
      ensures forall d :: d in table.clients ==> d in old(table.clients) || fresh(d)
      ensures e.FromClient? && e.at < |old(table.clients)| && !old(table.CanSend(table.clients[e.at])) ==> device.Untouched()
    {
      if e.FromClient? {
        if e.at < |table.clients| {
          OnClient(e.at, e.message);
        }
      } else if e.FromSink? {
        OnSink(e.request);
      } else if e.Accept? || e.Hangup? || e.Housekeeping? || e.FlushClients? {
        OnConnections(e);
      } else if e.LinkReady? {
        OnLinkReady(e);
      } else {
        OnClock(e);
      }
    }

    /** Timers and turns of the loop. */
    method OnClock(e: Event)
      requires Valid() && (e.Turn? || e.BreakTimer? || e.FloodTimer?)
      modifies table.expects, device.control, device.control.port, device.breaks, device.flood, device.rules.window
      ensures Valid() && Grows() && device.StaysAway(false) && (Handled(e, old(table.clients)) == true)
    {
      if e.Turn? {
        OnTurn(e.now, e.blocked, e.answer);
      } else {
        OnTimer(e);
      }
    }

    method OnTimer(e: Event)
      requires Valid() && (e.BreakTimer? || e.FloodTimer?)
      modifies device.breaks, device.flood
      ensures Valid() && device.Grows()
      ensures if e.BreakTimer? then device.breaks.Ticked() else device.flood.Ticked(device.control.IsUp(), e.now, e.later)
    {
      if e.BreakTimer? {
        device.OnBreakTimer();
      } else {
        device.OnFloodTimer(e.now, e.later);
      }
    }

    /** One event, after which the port is looked at. */
    method Step(e: Event)
      requires Valid() && Possible(e)
      modifies this, table, table.expects, table.clients, device, device.control, device.control.port, device.breaks,
               device.flood, device.rules, device.rules.window, device.rules.window.buf
      ensures Valid() && Grows() && device.StaysAway(Resumes(e)) && (Handled(e, old(table.clients)) == true)
      ensures trace == old(trace) + [e]
      ensures device.control.port.phase != Up ==> device.exposed
      ensures forall d :: d in table.clients ==> d in old(table.clients) || fresh(d)
    {
      Dispatch(e);
      Note(e);
    }

    /** Looks at the port after an event. */
    ghost method Note(e: Event)
      requires Valid()
      modifies this`trace, device`exposed
      ensures Valid() && trace == old(trace) + [e] && (device.control.port.phase != Up ==> device.exposed)
    {
      device.Observe();
      trace := trace + [e];
    }

    /** The same, without what it came to. */
    method Advance(e: Event)
      requires Valid() && Possible(e)
      modifies this, table, table.expects, table.clients, device, device.control, device.control.port, device.breaks,
               device.flood, device.rules, device.rules.window, device.rules.window.buf
      ensures Valid() && Extends(old(Records()), Records()) && device.StaysAway(Resumes(e)) && trace == old(trace) + [e]
      ensures forall d :: d in table.clients ==> d in old(table.clients) || fresh(d)
    {
      Step(e);
    }

    /** Any run of the broker, event by event. */
    method Run(script: seq<Event>)
      requires Valid() && forall k :: 0 <= k < |script| ==> Possible(script[k])
      modifies this, table, table.expects, table.clients, device, device.control, device.control.port, device.breaks,
               device.flood, device.rules, device.rules.window, device.rules.window.buf
      ensures Valid() && Extends(old(Records()), Records()) && device.StaysAway(AnyResumes(script)) && trace == old(trace) + script
    {
      for i := 0 to |script|
        invariant Valid() && Extends(old(Records()), Records()) && device.StaysAway(AnyResumes(script[..i]))
        invariant trace == old(trace) + script[..i]
        invariant forall d :: d in table.clients ==> d in old(table.clients) || fresh(d)
      {
        ghost var before := Records();
        AnyMore(script, i);
        assert forall k :: 0 <= k < |table.clients| ==> table.clients[k] in table.clients;
        Advance(script[i]);
        ExtendsOn(old(Records()), before, Records());
      }
      assert script[..|script|] == script;
    }

    /** The loop has ended: nobody is left waiting for a completion. */
    method Shutdown()
      requires Valid()
      modifies device.breaks
      ensures Valid() && device.breaks.Grows() && |device.breaks.accepted| == |device.breaks.fired|
    {
      device.breaks.Cancel();
    }
  }

  /** A request just added under `id` makes no difference to what its cancellation leaves. */
  lemma {:induction false} OwnIdGone(before: seq<Request>, during: seq<Request>, after: seq<Request>, id: string)
    requires |during| == |before| + 1 && before == during[..|before|] && during[|before|].id == id
    requires WithoutId(during, after, id)
    ensures WithoutId(before, after, id)
  {
    var r := during[|before|];
    assert during == before + [r];
    forall q: Request ensures multiset(after)[q] == if q.id == id then 0 else multiset(before)[q] {
      assert multiset(during)[q] == multiset(before)[q] + if q == r then 1 else 0;
    }
  }

  lemma {:induction false} OwnGone(before: seq<Request>, during: seq<Request>, after: seq<Request>)
    requires |during| == |before| + 1 && before == during[..|before|] && during[|before|].client == Mcp
    requires WithoutOwner(during, after, Mcp)
    ensures WithoutOwner(before, after, Mcp)
  {
    var r := during[|before|];
    assert during == before + [r];
    forall q: Request ensures multiset(after)[q] == if q.client == Mcp then 0 else multiset(before)[q] {
      assert multiset(during)[q] == multiset(before)[q] + if q == r then 1 else 0;
    }
  }

  lemma {:induction false} OutputStep(log: seq<Byte>, chunks: seq<Chunk>, i: nat)
    requires i < |chunks|
    ensures log + Output(chunks[..i + 1]) == log + Output(chunks[..i]) + chunks[i].data
  {
    assert chunks[..i + 1][..i] == chunks[..i];
  }

  /** A broker with a greeted observer and a greeted controller. */
  method TwoClients() returns (b: Broker, c1: Client, c2: Client)
    ensures b.Valid() && b.device.control.IsUp() && c1 in b.table.clients && c2 in b.table.clients
    ensures c1.num != c2.num && b.table.CanSend(c2) && |b.table.expects.requests| == 0
    ensures fresh(b.table.expects) && fresh(b.device)
  {
    var port := new Port(false);
    var _ := port.Open(Connected);
    b := new Broker(port, true, 115200);
    c1, c2 := JoinTwo(b.table);
  }

  /** Two clients use one id. When the second one's data cannot be sent, both requests
      are gone if the id fits its field, and both are still waiting if it does not. */
  method SharedId(id: string, p: Pattern) returns (b: Broker, sent: Sent)
    ensures b.Valid() && sent == TakenBack
    ensures |b.table.expects.requests| == if |id| <= FIELD_MAX then 0 else 2
  {
    var c1, c2;
    b, c1, c2 := TwoClients();
    sent := SendUnderSameId(b, c1, c2, id, p);
  }

  method SendUnderSameId(b: Broker, c1: Client, c2: Client, id: string, p: Pattern) returns (sent: Sent)
    requires b.Valid() && b.device.control.IsUp() && c1 in b.table.clients && c2 in b.table.clients && c1.num != c2.num
    requires b.table.CanSend(c2) && |b.table.expects.requests| == 0
    modifies b.table.expects, b.device`calls
    ensures b.Valid() && sent == TakenBack
    ensures |b.table.expects.requests| == if |id| <= FIELD_MAX then 0 else 2
  {
    b.OnListenExpect(c1, id, Some(p), 1.0, false);
    sent := SecondSends(b, c2, id, p);
  }

  method SecondSends(b: Broker, c: Client, id: string, p: Pattern) returns (sent: Sent)
    requires b.Valid() && b.device.control.IsUp() && c in b.table.clients && b.table.CanSend(c)
    requires |b.table.expects.requests| == 1 && b.table.expects.requests[0].id == Cut(id)
    modifies b.table.expects, b.device`calls
    ensures b.Valid() && sent == TakenBack
    ensures |b.table.expects.requests| == if |id| <= FIELD_MAX then 0 else 2
  {
    ghost var before := b.table.expects.requests;
    RoomForOther(b.table.expects, before, Owner.Client(c.num));
    sent := b.OnSendExpect(c, id, Some(p), 1.0, Unusable);
    BothUnder(before[0], NewRequest(id, Owner.Client(c.num), p, 1.0), before, b.table.expects.requests, id);
  }

  lemma {:induction false} RoomForOther(e: Engine, rs: seq<Request>, owner: Owner)
    requires e.requests == rs && |rs| == 1
    ensures e.Room(owner)
  {
    assert Count(rs[..0], owner) == 0;
  }

  lemma {:induction false} BothUnder(r: Request, own: Request, before: seq<Request>, after: seq<Request>, id: string)
    requires |before| == 1 && before[0] == r && r.id == own.id == Cut(id) && WithoutId(before + [own], after, id)
    ensures |after| == if |id| <= FIELD_MAX then 0 else 2
  {
    var all := before + [own];
    if |id| <= FIELD_MAX {
      forall q: Request ensures multiset(after)[q] == 0 {
        assert q in all ==> q.id == id;
      }
      assert multiset(after) == multiset{};
    } else {
      forall q: Request ensures multiset(after)[q] == multiset(all)[q] {
        assert q in all ==> q.id != id;
      }
      assert multiset(after) == multiset(all);
    }
    assert |after| == |multiset(after)| && |all| == |multiset(all)|;
  }
}
