/** Who owns the serial port (src/broker.c: suspend, resume, disconnect, reconnect).

    Three flags of the broker determine the state of the port in every run: it is
    closed while suspended, and it is held exactly while a connect is in flight or
    the link is not marked disconnected. */
module PortControl {
  import opened Link

  const RECONNECT_BASE := 2
  const RECONNECT_MAX := 60
  const CONNECT_TIMEOUT := 5.0
  const SEAT_BACKOFF := 30.0

  /** What the broker's flags say about the port. */
  function PhaseFor(suspended: bool, connecting: bool, disconnected: bool): Phase {
    if suspended then Closed
    else if connecting then Connecting
    else if disconnected then Closed
    else Up
  }

  /** Where the port is after an attempt to take it. */
  function PhaseAfter(async: bool, answer: Begun): Phase {
    match answer
    case Connected => Up
    case InProgress => if async then Connecting else Up
    case Denied => Closed
  }

  /** The broker's flags, and what each operation does to them. */
  datatype Flags = Flags(suspended: bool, disconnected: bool, connecting: bool, pendingAck: bool) {
    function Suspended(): Flags {
      if suspended then this else this.(suspended := true, connecting := false)
    }

    function Resumed(async: bool, blocked: bool, answer: Begun): Flags {
      if !suspended || blocked || answer.Denied? then this
      else if async && answer.InProgress? then this.(suspended := false, connecting := true, pendingAck := true)
      else this.(suspended := false, connecting := false, disconnected := false)
    }

    /** Connected; whoever waits for a resume is told. */
    function Joined(): Flags { this.(connecting := false, disconnected := false, pendingAck := false) }

    function GivenUp(): Flags {
      this.(connecting := false, disconnected := true, suspended := suspended || pendingAck, pendingAck := false)
    }

    function Polled(failed: bool, writable: bool, answer: Polled): Flags {
      if failed || (writable && answer.Refused?) then GivenUp()
      else if writable && answer.Ready? then Joined()
      else this
    }

    /** A due attempt to reconnect. */
    function Retried(async: bool, answer: Begun): Flags {
      if answer.Denied? then this
      else if async && answer.InProgress? then this.(connecting := true)
      else Joined()
    }

    /** A connect past its deadline. */
    function Overdue(late: bool): Flags { if connecting && late then GivenUp() else this }
  }

  /** The wait before the retry after the next one: twice as long, but at most a minute. */
  function BackedOff(delay: nat): (d: nat)
    ensures d <= 60 && (2 * delay <= 60 ==> d == 2 * delay) && (2 * delay > 60 ==> d == 60)
  {
    if 2 * delay > RECONNECT_MAX then RECONNECT_MAX else 2 * delay
  }

  class Control {
    const port: Port
    const reconnect: bool
    var suspended: bool
    var disconnected: bool
    var connecting: bool
    var pendingAck: bool   // a resume is waiting for its connect
    var delay: nat         // seconds
    var nextTry: real
    var deadline: real
    ghost var resuming: bool   // the connect in flight was begun by a resume
    ghost var abandoned: bool  // a suspend dropped such a connect, and its answer is still owed

    /** An answer to a resume is owed iff one is connecting, or was dropped by a suspend. */
    ghost predicate Owes()
      reads this
    {
      (pendingAck <==> resuming || abandoned) && (resuming ==> connecting)
    }

    ghost predicate Owns()
      reads this, port
    {
      && port.phase == PhaseFor(suspended, connecting, disconnected)
      && (connecting ==> port.async && !suspended)
    }

    /** Automatic retries back off between 2 and 60 seconds; only a resume connects a
        link that was never lost. */
    ghost predicate BacksOff()
      reads this
    {
      && delay <= RECONNECT_MAX
      && (connecting ==> pendingAck || disconnected)
      && (!suspended && disconnected && !(connecting && pendingAck) ==> RECONNECT_BASE <= delay)
    }

    ghost predicate Valid()
      reads this, port
    {
      Owns() && BacksOff() && Owes()
    }

    ghost function Now(): Flags
      reads this
    {
      Flags(suspended, disconnected, connecting, pendingAck)
    }

    /** Whether it is time for an attempt to reconnect. */
    predicate Due(blocked: bool, now: real)
      reads this
    {
      !suspended && !connecting && disconnected && reconnect && now >= nextTry && !blocked
    }

    predicate IsUp()
      reads this
    {
      !suspended && !disconnected
    }

    /** The broker starts with the port opened by its setup. */
    constructor (port: Port, reconnect: bool)
      requires port.phase == Up
      ensures Valid() && this.port == port && this.reconnect == reconnect
      ensures !suspended && !disconnected && !connecting && !pendingAck && !resuming && !abandoned
    {
      this.port, this.reconnect := port, reconnect;
      resuming, abandoned := false, false;
      suspended, disconnected, connecting, pendingAck := false, false, false, false;
      delay, nextTry, deadline := 0, 0.0, 0.0;
    }

    /** Gives the port away. A connect in flight is abandoned. */
    method Suspend() returns (ok: bool)
      requires Valid()
      modifies this`suspended, this`connecting, this`resuming, this`abandoned, port
      ensures Valid() && Now() == old(Now()).Suspended() && port.phase == Closed && port.attempts == old(port.attempts)
      ensures suspended && ok == !old(suspended) && !resuming && abandoned == (old(abandoned) || old(resuming))
    {
      if suspended {
        return false;
      }
      abandoned, resuming := abandoned || resuming, false;
      suspended := true;
      connecting := false;
      port.Close();
      return true;
    }

    /** The only way out of suspension; `blocked`: the device moved to another seat. */
    method Resume(blocked: bool, now: real, answer: Begun) returns (ok: bool)
      requires Valid()
      modifies this, port
      ensures Valid() && Now() == old(Now()).Resumed(port.async, blocked, answer)
      ensures ok == (old(suspended) && !suspended)
      ensures connecting ==> deadline == if ok then now + CONNECT_TIMEOUT else old(deadline)
      ensures abandoned == old(abandoned) && resuming == (old(resuming) || (ok && connecting))
      ensures port.attempts == old(port.attempts) + if old(suspended) && !blocked then 1 else 0
      ensures port.phase == if old(suspended) && !blocked then PhaseAfter(port.async, answer) else old(port.phase)
    {
      if !suspended || blocked {
        return false;
      }
      if port.async {
        port.ConnectBegin(answer);
        if answer.Denied? {
          return false;
        }
        suspended := false;
        if answer.InProgress? {
          pendingAck, resuming := true, true;
          WatchConnecting(now);
          return true;
        }
      } else {
        var taken := port.Open(answer);
        if !taken {
          return false;
        }
        suspended := false;
      }
      BringUp(false);
      return true;
    }

    /** A connected link clears the flags; a resume that waited for it is answered. */
    method BringUp(announce: bool)
      requires port.phase == Up && !suspended && delay <= RECONNECT_MAX && Owes() && (!announce ==> !resuming)
      modifies this`connecting, this`disconnected, this`pendingAck, this`resuming, this`abandoned
      ensures Valid() && IsUp() && !connecting && pendingAck == (old(pendingAck) && !announce)
      ensures !resuming && abandoned == (old(abandoned) && !announce)
    {
      connecting, disconnected := false, false;
      if announce && pendingAck {
        pendingAck := false;
        resuming, abandoned := false, false;
      }
    }

    method WatchConnecting(now: real)
      requires port.async && port.phase == Connecting && !suspended && delay <= RECONNECT_MAX
      requires pendingAck || (disconnected && RECONNECT_BASE <= delay)
      requires pendingAck <==> resuming || abandoned
      modifies this`connecting, this`deadline
      ensures Valid() && connecting && deadline == now + CONNECT_TIMEOUT
    {
      connecting := true;
      deadline := now + CONNECT_TIMEOUT;
    }

    method ScheduleRetry(now: real)
      modifies this`nextTry, this`delay
      ensures nextTry == now + old(delay) as real && delay == BackedOff(old(delay))
    {
      nextTry := now + delay as real;
      delay := delay * 2;
      if delay > RECONNECT_MAX {
        delay := RECONNECT_MAX;
      }
    }

    /** A connect failed or timed out. A failed resume leaves the port suspended; a failed
        automatic reconnect does so iff an earlier resume was dropped by a suspend. */
    method GiveUp(now: real)
      requires Valid() && connecting
      modifies this, port
      ensures Valid() && !connecting && port.phase == Closed && port.attempts == old(port.attempts)
      ensures Now() == old(Now()).GivenUp() && !resuming && !abandoned
      ensures suspended == (old(resuming) || old(abandoned))
      ensures nextTry == now + old(delay) as real && delay == BackedOff(old(delay))
    {
      connecting := false;
      port.Close();
      disconnected := true;
      if pendingAck {
        pendingAck := false;
        resuming, abandoned := false, false;
        suspended := true;
      }
      ScheduleRetry(now);
    }

    /** The link went away: the port is released and retried at once. */
    method Disconnect(now: real)
      requires Valid() && !suspended && !connecting
      modifies this`disconnected, this`delay, this`nextTry, port
      ensures Valid() && Now() == old(Now()).(disconnected := true)
      ensures port.phase == Closed && port.attempts == old(port.attempts)
      ensures !old(disconnected) ==> nextTry == now && delay == 2
    {
      if disconnected {
        return;
      }
      port.Close();
      disconnected := true;
      delay := RECONNECT_BASE;
      nextTry := now;
    }

    /** An event on the socket of a connect in flight. */
    method OnConnecting(failed: bool, writable: bool, answer: Polled, now: real)
      requires Valid() && connecting
      modifies this, port
      ensures Valid() && Now() == old(Now()).Polled(failed, writable, answer)
      ensures port.attempts == old(port.attempts)
      ensures port.phase == if failed || (writable && answer.Refused?) then Closed else if writable && answer.Ready? then Up else Connecting
      ensures port.phase == Closed ==> nextTry == now + old(delay) as real && delay == BackedOff(old(delay))
      ensures connecting ==> resuming == old(resuming) && abandoned == old(abandoned)
    {
      if failed {
        GiveUp(now);
      } else if writable {
        port.ConnectPoll(answer);
        if answer.Ready? {
          BringUp(true);
        } else if answer.Refused? {
          GiveUp(now);
        }
      }
    }

    /** One try to get a lost link back, when it is due. */
    method AttemptReconnect(blocked: bool, now: real, answer: Begun)
      requires Valid()
      modifies this, port
      ensures Valid()
      ensures Now() == if old(Due(blocked, now)) then old(Now()).Retried(port.async, answer) else old(Now())
      ensures port.attempts == old(port.attempts) + if old(Due(blocked, now)) then 1 else 0
      ensures connecting ==> deadline == if old(connecting) then old(deadline) else now + CONNECT_TIMEOUT
      ensures connecting ==> resuming == old(resuming) && abandoned == old(abandoned)
      ensures old(Due(blocked, now)) && answer.Denied? ==>
                nextTry == now + old(delay) as real >= now + 2.0 && delay == BackedOff(old(delay))
      ensures old(Due(false, now)) && blocked ==> nextTry == now + 30.0 && delay == old(delay)
      ensures !old(Due(false, now)) ==> nextTry == old(nextTry) && delay == old(delay)
      ensures port.phase == if old(Due(blocked, now)) then PhaseAfter(port.async, answer) else old(port.phase)
    {
      if suspended || connecting || !disconnected || !reconnect || now < nextTry {
        return;
      }
      if blocked {
        nextTry := now + SEAT_BACKOFF;
        return;
      }
      if port.async {
        port.ConnectBegin(answer);
        match answer {
          case Connected => BringUp(true);
          case InProgress => WatchConnecting(now);
          case Denied => ScheduleRetry(now);
        }
      } else {
        var taken := port.Open(answer);
        if taken {
          BringUp(true);
        } else {
          ScheduleRetry(now);
        }
      }
    }
  }

  /** A broker that resumed over a slow link, was suspended meanwhile, and resumed at
      once: the answer to its first resume is still owed. */
  method DroppedResume() returns (c: Control)
    ensures c.Valid() && fresh(c) && fresh(c.port) && c.port.async && c.reconnect
    ensures c.Now() == Flags(false, false, false, true) && c.abandoned && !c.resuming
  {
    var port := new Port(true);
    port.ConnectBegin(Connected);
    c := new Control(port, true);
    var _ := c.Suspend();
    var _ := c.Resume(false, 0.0, InProgress);
    var _ := c.Suspend();
    var _ := c.Resume(false, 1.0, Connected);
  }

  /** Nobody has suspended this broker since it resumed, yet losing the link and failing
      to reconnect leaves it suspended. */
  method ReconnectSuspends() returns (c: Control)
    ensures c.Valid() && c.suspended && c.port.phase == Closed
  {
    c := DroppedResume();
    c.Disconnect(2.0);
    c.AttemptReconnect(false, 2.0, InProgress);
    c.GiveUp(8.0);
  }
}
