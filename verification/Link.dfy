/** The device end of the broker: what its callbacks may answer (src/link.h).

    Every answer is left open; only the state of the port itself is kept. No shipped
    link drives a line before it is connected: a UART or GDB link without a
    descriptor refuses, and a TCP link refuses until the server has agreed to
    COM-PORT control, which each new connection negotiates afresh. */
module Link {
  import opened Bytes

  datatype Line = Break | Rts | Dtr | Unknown

  datatype Action = Set | Clear | Other(name: string)

  datatype Phase = Closed | Connecting | Up

  datatype Begun = Connected | InProgress | Denied

  datatype Polled = Ready | Pending | Refused

  /** What was asked of the link, and its answer. */
  datatype Call =
    | Drove(line: Line, action: Action, ok: bool)
    | Rated(baud: int, ok: bool)
    | Signalled(ms: nat, ok: bool)
    | Wrote(data: seq<Byte>, ok: bool)

  /** Drives a line. A port that is closed or still connecting refuses: `live` says
      that it is neither. */
  method SetParam(live: bool, pin: Line, action: Action) returns (ok: bool, ghost call: Call)
    ensures (ok ==> live) && call == Drove(pin, action, ok)
  {
    var willing := *;
    ok, call := SetParamTo(live, pin, action, willing);
  }

  /** The same with the link's answer given. */
  method SetParamTo(live: bool, pin: Line, action: Action, willing: bool) returns (ok: bool, ghost call: Call)
    ensures ok == (live && willing) && call == Drove(pin, action, ok)
  {
    ok := live && willing;
    call := Drove(pin, action, ok);
  }

  method SetRate(live: bool, baud: int) returns (ok: bool, ghost call: Call)
    ensures (ok ==> live) && call == Rated(baud, ok)
  {
    ok := *;
    ok := ok && live;
    call := Rated(baud, ok);
  }

  method SendBreak(live: bool, ms: nat) returns (ok: bool, ghost call: Call)
    ensures (ok ==> live) && call == Signalled(ms, ok)
  {
    ok := *;
    ok := ok && live;
    call := Signalled(ms, ok);
  }

  /** The broker's write: refused while the link is down, else up to the link. */
  method Transmit(up: bool, data: seq<Byte>) returns (ok: bool, ghost call: Call)
    ensures (ok ==> up) && call == Wrote(data, ok)
  {
    ok := false;
    if up {
      ok := *;
    }
    call := Wrote(data, ok);
  }

  /** What was asked of a timer, and its answer. */
  datatype TimerCall = Create(ok: bool) | Arm(ms: nat, ok: bool)

  method CreateTimer() returns (ok: bool, ghost call: TimerCall)
    ensures call == Create(ok)
  {
    ok := *;
    call := Create(ok);
  }

  method ArmTimer(ms: nat) returns (ok: bool, ghost call: TimerCall)
    ensures call == Arm(ms, ok)
  {
    ok := *;
    call := Arm(ms, ok);
  }

  class Port {
    const async: bool       // has connect_begin
    var phase: Phase
    ghost var attempts: nat // calls to open or connect_begin so far

    constructor (async: bool)
      ensures this.async == async && phase == Closed && attempts == 0
    {
      this.async := async;
      phase := Closed;
      attempts := 0;
    }

    // What the link answers is handed in by the caller, so that any answer is covered
    // and a run with given answers can be followed.

    /** Opening takes the port, so it must not be held already. */
    method Open(answer: Begun) returns (ok: bool)
      requires phase.Closed?
      modifies this
      ensures ok == !answer.Denied?
      ensures attempts == old(attempts) + 1 && phase == if ok then Up else Closed
    {
      ok := !answer.Denied?;
      attempts := attempts + 1;
      phase := if ok then Up else Closed;
    }

    method ConnectBegin(answer: Begun)
      requires async && phase.Closed?
      modifies this
      ensures attempts == old(attempts) + 1
      ensures phase == match answer { case Connected => Up case InProgress => Connecting case Denied => Closed }
    {
      attempts := attempts + 1;
      phase := match answer { case Connected => Up case InProgress => Connecting case Denied => Closed };
    }

    /** A refused connect still holds its socket until it is closed. */
    method ConnectPoll(answer: Polled)
      requires phase.Connecting?
      modifies this`phase
      ensures phase == if answer.Ready? then Up else Connecting
    {
      if answer.Ready? {
        phase := Up;
      }
    }

    method Close()
      modifies this`phase
      ensures phase == Closed
    {
      phase := Closed;
    }
  }
}
