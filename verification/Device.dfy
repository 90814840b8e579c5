/** The device side of the broker (src/broker.c): the port, the pulses and floods that
    run on it, and the autoresponder rules. */
module Device {
  import opened Bytes
  import opened Patterns
  import opened Link
  import PortControl
  import BreakMachine
  import Flood
  import Autoresponder

  const FIRED_PER_FEED := 8

  datatype PinAction = Drive(action: Action) | Pulse

  /** A rule as it is asked for; `compiled` is the outcome of compiling its pattern. */
  datatype RuleRequest = RuleRequest(name: string, pattern: string, compiled: Option<Pattern>,
                                     response: seq<Byte>, once: bool, cooldownMs: int)

  /** What clients and the MCP sink may ask of the device, the port and the rules. */
  datatype Request =
    | Send(data: seq<Byte>)
    | Pin(line: Line, action: PinAction, ms: int)
    | SetBaud(baud: int)
    | Resume(blocked: bool, now: real, answer: Begun)
    | Interrupt(flood: Flood.Request, now: real, answers: Flood.Answers)
    | AddRule(rule: RuleRequest)
    | RemoveRule(name: string)

  /** The responses of `fired`, written in order. */
  ghost predicate Answers(before: seq<Call>, after: seq<Call>, fired: seq<Autoresponder.Fire>) {
    && |after| == |before| + |fired| && after[..|before|] == before
    && forall k :: |before| <= k < |after| ==> after[k].Wrote? && after[k].data == fired[k - |before|].response
  }

  lemma {:induction false} AnsweredMore(before: seq<Call>, after: seq<Call>, fired: seq<Autoresponder.Fire>, i: nat, ok: bool)
    requires i < |fired| && Answers(before, after, fired[..i])
    ensures Answers(before, after + [Wrote(fired[i].response, ok)], fired[..i + 1])
  {
    var after' := after + [Wrote(fired[i].response, ok)];
    assert after'[..|before|] == after[..|before|];
  }

  class Device {
    const control: PortControl.Control
    const breaks: BreakMachine.Machine
    const flood: Flood.Machine
    const rules: Autoresponder.Autoresponder
    var baud: int
    ghost var calls: seq<Call>   // writes and parameter changes asked of the link, with its answers
    ghost var heard: seq<Byte>   // device output passed on to the flood and the rules
    ghost var early: bool        // the last flood was accepted during a connect
    ghost var exposed: bool      // since then the port has been seen not to be up

    /** Pulses run only on a port that is up. A flood does too, unless it was accepted
        while the port was still connecting; such a flood holds no reset line. */
    ghost predicate Attended()
      reads this, control, control.port, breaks, flood
    {
      && (breaks.state.Idle? || control.port.phase == Up)
      && (flood.active && |flood.accepted| > 0 ==>
            && (exposed <==> early)
            && (control.port.phase != Up ==> early)
            && (early ==> flood.Current().reset.None?))
    }

    ghost predicate Valid()
      reads this, control, control.port, breaks, flood, rules, rules.window
    {
      control.Valid() && breaks.Valid() && flood.Valid() && rules.Valid() && Attended()
    }

    /** The device, the port and the rules are as they were. */
    twostate predicate Untouched()
      reads this`calls, this`baud, this`heard, this`early, control, control.port, breaks, flood, rules
    {
      unchanged(this`calls, this`baud, this`heard, this`early, control, control.port, breaks, flood, rules)
    }

    /** A suspended port is left alone unless it is to be resumed. */
    twostate predicate StaysAway(resume: bool)
      reads control, control.port
    {
      old(control.suspended) && !resume ==>
        control.suspended && control.port.phase == Closed && control.port.attempts == old(control.port.attempts)
    }

    /** What has been accepted, completed or reported stays on record. */
    twostate predicate Grows()
      reads breaks, flood
    {
      breaks.Grows() && flood.Grows()
    }

    // ----- What each request comes to -----

    /** One more call to the link, whatever it answers. */
    twostate predicate Calls(c: Call)
      reads this`calls
    {
      calls == old(calls) + [c.(ok := true)] || calls == old(calls) + [c.(ok := false)]
    }

    /** The three lines that can be asked for: BREAK is always a pulse, the modem lines are
        pulsed or driven. */
    twostate predicate Pinned(line: Line, action: PinAction, ms: int)
      reads this`calls, control, breaks
    {
      match line
      case Unknown => unchanged(breaks) && calls == old(calls)
      case Break => breaks.Struck(control.IsUp(), ms, [], 0) && calls == old(calls)
      case _ =>
        if action.Pulse? then breaks.Grasped(control.IsUp(), line, ms) && calls == old(calls)
        else unchanged(breaks) && Calls(Drove(line, action.action, true))
    }

    /** The link is asked for a positive rate, and the rate is kept iff the link takes it. */
    twostate predicate Rerated(rate: int)
      reads this`calls, this`baud
    {
      if rate > 0 then Calls(Rated(rate, true)) && baud == (if calls[|calls| - 1].ok then rate else old(baud))
      else calls == old(calls) && baud == old(baud)
    }

    twostate predicate Resumed(blocked: bool, answer: Begun)
      reads control, control.port
    {
      && control.Now() == old(control.Now()).Resumed(control.port.async, blocked, answer)
      && control.port.phase == (if old(control.suspended) && !blocked then PortControl.PhaseAfter(control.port.async, answer)
                                else old(control.port.phase))
    }

    /** A flood is taken iff nothing speaks against it, its line can be driven, and its timer
        can be created and armed. */
    twostate predicate Flooded(q: Flood.Request, answers: Flood.Answers)
      reads this`early, control, control.port, flood
    {
      if && !Flood.Rejected(control.IsUp(), old(flood.active), q) && (old(flood.hasTimer) || answers.created)
         && (q.reset.Some? ==> Live() && answers.held) && answers.armed
      then flood.active && flood.accepted == old(flood.accepted) + [q] && early == control.connecting
      else flood.active == old(flood.active) && flood.accepted == old(flood.accepted)
    }

    twostate predicate RuleAdded(r: RuleRequest)
      reads rules
    {
      if && |r.name| > 0 && |r.pattern| > 0 && |r.response| <= 256 && r.compiled.Some?
         && (|old(rules.rules)| < 32 || Autoresponder.Stored(old(rules.rules), r.name))
      then Autoresponder.Adds(old(rules.rules), old(rules.fires), rules.rules, rules.fires, r.name,
                              Autoresponder.NewRule(r.name, r.compiled.value, r.response, r.once, r.cooldownMs))
      else rules.rules == old(rules.rules) && rules.fires == old(rules.fires)
    }

    twostate predicate RuleRemoved(name: string)
      reads rules
    {
      if Autoresponder.Stored(old(rules.rules), name)
      then Autoresponder.Removes(old(rules.rules), rules.rules, name)
      else rules.rules == old(rules.rules)
    }

    /** A permitted request has had its effect. */
    twostate predicate Did(r: Request)
      reads this`calls, this`baud, this`early, control, control.port, breaks, flood, rules
    {
      match r
      case Send(data) => Calls(Wrote(data, true))
      case Pin(line, action, ms) => Pinned(line, action, ms)
      case SetBaud(rate) => Rerated(rate)
      case Resume(blocked, now, answer) => Resumed(blocked, answer)
      case Interrupt(q, now, answers) => Flooded(q, answers)
      case AddRule(rule) => RuleAdded(rule)
      case RemoveRule(name) => RuleRemoved(name)
    }

    /** And no other. */
    twostate predicate Leaves(r: Request)
      reads this`calls, this`baud, this`early, control, control.port, breaks, flood, rules
    {
      && (!r.Resume? ==> unchanged(control, control.port))
      && (!r.Pin? ==> unchanged(breaks))
      && (!r.Interrupt? ==> unchanged(flood) && early == old(early))
      && (!r.AddRule? && !r.RemoveRule? ==> unchanged(rules))
      && (!r.Send? && !r.Pin? && !r.SetBaud? ==> calls == old(calls))
      && (!r.SetBaud? ==> baud == old(baud))
    }

    /** Starts on a port that the broker's setup has opened. */
    constructor (port: Port, reconnect: bool, baud: int)
      requires port.phase == Up
      ensures Valid() && control.port == port && !control.suspended && !control.disconnected
      ensures !control.connecting && !control.pendingAck && !flood.active && breaks.state.Idle?
      ensures fresh(control) && fresh(breaks) && fresh(flood) && fresh(rules) && fresh(rules.window) && fresh(rules.window.buf)
    {
      control := new PortControl.Control(port, reconnect);
      breaks := new BreakMachine.Machine();
      flood := new Flood.Machine();
      rules := new Autoresponder.Autoresponder();
      this.baud, calls, heard, early, exposed := baud, [], [], false, false;
    }

    predicate Live()
      reads control.port
    {
      control.port.phase == Up
    }

    method Write(data: seq<Byte>) returns (ok: bool)
      requires Valid()
      modifies this`calls
      ensures Valid() && (ok ==> control.IsUp()) && calls == old(calls) + [Wrote(data, ok)]
    {
      ghost var call;
      ok, call := Transmit(control.IsUp(), data);
      calls := calls + [call];
    }

    // ----- Taking and giving up the port -----

    /** Cancels whatever is under way. */
    method StopMachines()
      requires Valid()
      modifies breaks, flood
      ensures Valid() && Grows() && breaks.state.Idle? && !flood.active
    {
      breaks.Cancel();
      flood.Cancel();
    }

    /** Pulses and floods end, then the port is given away. */
    method Suspend()
      requires Valid()
      modifies control, control.port, breaks, flood
      ensures Valid() && Grows() && control.Now() == old(control.Now()).Suspended()
      ensures control.port.phase == Closed && control.port.attempts == old(control.port.attempts)
      ensures !old(control.suspended) ==> breaks.state.Idle? && !flood.active
    {
      if control.suspended {
        return;
      }
      StopMachines();
      var _ := control.Suspend();
    }

    method Resume(blocked: bool, now: real, answer: Begun)
      requires Valid()
      modifies control, control.port, rules.window
      ensures Valid() && Resumed(blocked, answer)
      ensures old(control.suspended) && control.connecting ==> control.deadline == now + PortControl.CONNECT_TIMEOUT
      ensures old(control.suspended) && control.port.phase == Up ==> rules.window.len == 0
    {
      var ok := control.Resume(blocked, now, answer);
      if ok && control.port.phase == Up {
        rules.ResetWindow();
      }
    }

    /** The link was lost: pulses and floods end, and the port is released. */
    method LinkDown(now: real)
      requires Valid() && !control.suspended && !control.connecting
      modifies control, control.port, breaks, flood
      ensures Valid() && Grows() && control.Now() == old(control.Now()).(disconnected := true)
      ensures control.port.attempts == old(control.port.attempts)
      ensures !old(control.disconnected) ==> breaks.state.Idle? && !flood.active
    {
      if control.disconnected {
        return;
      }
      StopMachines();
      control.Disconnect(now);
    }

    /** A connect in flight fails, completes, or goes on. */
    twostate predicate Answered(hangup: bool, writable: bool, poll: Polled)
      reads control, control.port
    {
      && control.Now() == old(control.Now()).Polled(hangup, writable, poll)
      && control.port.attempts == old(control.port.attempts)
      && control.port.phase == (if hangup || (writable && poll.Refused?) then Closed else if writable && poll.Ready? then Up else Connecting)
    }

    /** An event on the socket of a connect in flight. */
    method OnConnecting(hangup: bool, writable: bool, poll: Polled, now: real)
      requires Valid() && control.connecting
      modifies control, control.port, rules.window
      ensures Valid() && Answered(hangup, writable, poll) && (control.port.phase == Up ==> rules.window.len == 0)
    {
      control.OnConnecting(hangup, writable, poll, now);
      if control.port.phase == Up {
        rules.ResetWindow();
      }
    }

    /** A lost link is tried again exactly when that is due, and a connect that takes too
        long is given up. */
    twostate predicate Retried(now: real, blocked: bool, answer: Begun)
      reads control, control.port
    {
      && (control.connecting ==> now <= control.deadline)
      && (if old(control.Due(blocked, now))
          then control.Now() == old(control.Now()).Retried(control.port.async, answer)
               && control.port.phase == PortControl.PhaseAfter(control.port.async, answer)
          else control.Now() == old(control.Now()).Overdue(now > old(control.deadline))
               && control.port.phase == if old(control.connecting) && now > old(control.deadline) then Closed else old(control.port.phase))
      && control.port.attempts == old(control.port.attempts) + if old(control.Due(blocked, now)) then 1 else 0
    }

    /** A due attempt to reconnect, and the end of one that took too long. */
    method Reconnect(now: real, blocked: bool, answer: Begun)
      requires Valid()
      modifies control, control.port, rules.window
      ensures Valid() && StaysAway(false)
      ensures Retried(now, blocked, answer)
      ensures old(control.port.phase) != Up && control.port.phase == Up ==> rules.window.len == 0
    {
      var wasUp := control.port.phase == Up;
      control.AttemptReconnect(blocked, now, answer);
      if control.connecting && now > control.deadline {
        control.GiveUp(now);
      }
      if !wasUp && control.port.phase == Up {
        rules.ResetWindow();
      }
    }

    // ----- Acting on the device -----

    /** A flood may be accepted while the port is still connecting. */
    method StartFlood(q: Flood.Request, now: real, answers: Flood.Answers) returns (ok: bool)
      requires Valid()
      modifies flood, this`early, this`exposed
      ensures Valid() && flood.Grows()
      ensures Flooded(q, answers)
      ensures ok == (&& !Flood.Rejected(control.IsUp(), old(flood.active), q) && (old(flood.hasTimer) || answers.created)
                     && (q.reset.Some? ==> Live() && answers.held) && answers.armed)
    {
      ok := flood.Start(control.IsUp(), Live(), q, now, answers);
      if ok {
        early, exposed := control.connecting, !Live();
      }
    }

    method Strike(ms: int, bytes: seq<Byte>, delay: int)
      requires Valid()
      modifies breaks
      ensures Valid() && breaks.Grows()
      ensures breaks.Struck(control.IsUp(), ms, bytes, delay)
    {
      var _ := breaks.ScheduleBreak(control.IsUp(), Live(), ms, bytes, delay);
    }

    method PulseLine(line: Line, hold: int) returns (ok: bool)
      requires Valid()
      modifies breaks
      ensures Valid() && breaks.Grows()
      ensures |breaks.accepted| == |old(breaks.accepted)| + if ok then 1 else 0
      ensures breaks.Grasped(control.IsUp(), line, hold)
    {
      ok := breaks.ScheduleReset(control.IsUp(), Live(), line, hold);
    }

    /** Only the two modem lines and BREAK can be asked for, and only that line moves. */
    method Pin(line: Line, action: PinAction, ms: int)
      requires Valid()
      modifies this`calls, breaks
      ensures Valid() && breaks.Grows() && Pinned(line, action, ms)
    {
      if line == Unknown {
        return;
      }
      if action.Pulse? && line != Break {
        var _ := PulseLine(line, ms);
      } else if line == Break {
        Strike(ms, [], 0);
      } else {
        SetLine(line, action.action);
      }
    }

    method SetLine(line: Line, action: Action)
      requires Valid()
      modifies this`calls
      ensures Valid() && Calls(Drove(line, action, true))
    {
      var ok, call := SetParam(Live(), line, action);
      calls := calls + [call];
    }

    method SetBaud(rate: int)
      requires Valid()
      modifies this`calls, this`baud
      ensures Valid() && Rerated(rate)
    {
      if rate > 0 {
        var ok, call := SetRate(Live(), rate);
        calls := calls + [call];
        if ok {
          baud := rate;
        }
      }
    }

    method AddRule(r: RuleRequest)
      requires Valid()
      modifies rules
      ensures Valid() && RuleAdded(r)
    {
      var _, _ := rules.Add(r.name, r.pattern, r.compiled, r.response, r.once, r.cooldownMs);
    }

    method RemoveRule(name: string)
      requires Valid()
      modifies rules
      ensures Valid() && RuleRemoved(name)
      ensures (!Autoresponder.Stored(rules.rules, name) <==> Autoresponder.AtMostOne(old(rules.rules), name))
    {
      var _, _ := rules.Remove(name);
    }

    /** Requests that drive the link. */
    method Drive(r: Request)
      requires Valid() && (r.Send? || r.Pin? || r.SetBaud?)
      modifies this`calls, this`baud, breaks
      ensures Valid() && breaks.Grows() && Did(r) && (!r.Pin? ==> unchanged(breaks)) && (!r.SetBaud? ==> baud == old(baud))
    {
      match r {
        case Send(data) => var _ := Write(data);
        case Pin(line, action, ms) => Pin(line, action, ms);
        case SetBaud(rate) => SetBaud(rate);
      }
    }

    /** Carries out a permitted request. */
    method Perform(r: Request)
      requires Valid()
      modifies this, control, control.port, breaks, flood, rules, rules.window
      ensures Valid() && Grows() && StaysAway(r.Resume?) && Did(r) && Leaves(r)
    {
      match r {
        case Send(_) => Drive(r);
        case Pin(_, _, _) => Drive(r);
        case SetBaud(_) => Drive(r);
        case Resume(blocked, now, answer) => Resume(blocked, now, answer);
        case Interrupt(q, now, answers) => var _ := StartFlood(q, now, answers);
        case AddRule(rule) => AddRule(rule);
        case RemoveRule(name) => RemoveRule(name);
      }
    }

    // ----- Output and timers -----

    /** Device output goes to the flood, and rules that fire answer it. */
    method Hear(data: seq<Byte>, ts: real) returns (ghost fired: seq<Autoresponder.Fire>, ghost start: nat)
      requires Valid() && ts > 0.0
      modifies this`calls, this`heard, flood, rules, rules.window, rules.window.buf
      ensures Valid() && flood.Grows() && flood.Fed(data) && heard == old(heard) + data
      ensures Answers(old(calls), calls, fired)
      ensures Autoresponder.Scanned(old(rules.Now()), rules.Now(), data, ts, 8, fired, start)
    {
      Listen(data);
      fired, start := Respond(data, ts);
    }

    method Listen(data: seq<Byte>)
      requires Valid()
      modifies this`heard, flood
      ensures Valid() && flood.Grows() && flood.Fed(data) && heard == old(heard) + data
    {
      flood.Feed(data);
      heard := heard + data;
    }

    /** The rules that fire have their responses written. */
    method Respond(data: seq<Byte>, ts: real) returns (ghost fired: seq<Autoresponder.Fire>, ghost start: nat)
      requires Valid() && ts > 0.0
      modifies this`calls, rules, rules.window, rules.window.buf
      ensures Valid() && Answers(old(calls), calls, fired)
      ensures Autoresponder.Scanned(old(rules.Now()), rules.Now(), data, ts, 8, fired, start)
    {
      var out, from := rules.Feed(data, ts, FIRED_PER_FEED);
      fired, start := out, from;
      Answer(out);
    }

    method Answer(fired: seq<Autoresponder.Fire>)
      requires Valid()
      modifies this`calls
      ensures Valid() && Answers(old(calls), calls, fired)
    {
      for i := 0 to |fired|
        invariant Valid() && Answers(old(calls), calls, fired[..i])
      {
        ghost var before := calls;
        var ok := Write(fired[i].response);
        AnsweredMore(old(calls), before, fired, i, ok);
      }
      assert fired[..|fired|] == fired;
    }

    method OnBreakTimer()
      requires Valid()
      modifies breaks
      ensures Valid() && breaks.Grows() && breaks.Ticked()
    {
      breaks.OnTimer(control.IsUp());
    }

    /** A flood that lost its port ends with the next tick. */
    method OnFloodTimer(now: real, later: real)
      requires Valid()
      modifies flood
      ensures Valid() && flood.Grows() && flood.Ticked(control.IsUp(), now, later)
    {
      flood.OnTimer(control.IsUp(), now, later);
    }

    /** Looks at the port between two events. */
    ghost method Observe()
      requires Valid()
      modifies this`exposed
      ensures Valid() && exposed == (old(exposed) || control.port.phase != Up)
    {
      exposed := exposed || control.port.phase != Up;
    }
  }

  /** A broker that resumes over a link that connects slowly. */
  method SlowResume() returns (d: Device)
    ensures d.Valid() && fresh(d) && fresh(d.control) && fresh(d.control.port) && fresh(d.flood) && fresh(d.rules.window)
    ensures d.control.Now() == PortControl.Flags(false, false, true, true) && d.control.deadline == PortControl.CONNECT_TIMEOUT
    ensures !d.flood.active
  {
    var port := new Port(true);
    port.ConnectBegin(Connected);
    d := new Device(port, true, 115200);
    d.Suspend();
    d.Resume(false, 0.0, InProgress);
  }

  /** A flood can outlive its port: it is accepted while the port is connecting, and
      the connect then times out. */
  method FloodOutlivesPort() returns (d: Device)
    ensures d.Valid() && d.flood.active && d.control.port.phase == Closed && d.early
  {
    d := SlowResume();
    var ok := d.StartFlood(Flood.Request([32], 0, false, None, None), 1.0, Flood.Answers(true, true, true));
    d.Reconnect(6.0, false, Denied);
  }
}
