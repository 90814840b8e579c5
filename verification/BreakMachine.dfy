/** The deferred BREAK and line-reset machine (src/broker.c: schedule, timer, cancel).

    A line is set, held, and cleared by a timer; a BREAK may be followed by bytes
    for the device. The machine keeps a record of what it did to the link for each
    request, and what a completion reports is judged on that record. */
module BreakMachine {
  import opened Bytes
  import opened Link

  const DEFAULT_BREAK_MS := 250
  const MAX_BREAK_MS := 2000
  const DEFAULT_HOLD_MS := 100
  const MAX_HOLD_MS := 2000
  const MAX_DELAY_MS := 500
  const MAX_FOLLOWUP := 8

  datatype Op = SetLine(pin: Line, ok: bool) | ClearLine(pin: Line, ok: bool) | Signal(ms: nat, ok: bool) | Write(data: seq<Byte>, ok: bool)

  /** A call to the link as the machine makes them: lines are only ever set or cleared. */
  ghost function Noted(c: Call): Op
    requires !c.Rated? && (c.Drove? ==> !c.action.Other?)
  {
    match c
    case Drove(line, action, ok) => if action == Set then SetLine(line, ok) else ClearLine(line, ok)
    case Signalled(ms, ok) => Signal(ms, ok)
    case Wrote(data, ok) => Write(data, ok)
  }

  datatype Pulse = Pulse(pin: Line, followup: seq<Byte>, ms: nat, delay: nat)

  /** How a request ended: rc 0, rc -1, or rc -1 because it was cancelled. */
  datatype Ending = Done | Failed | Cancelled

  /** A fired completion with everything done to the link on its behalf. */
  datatype Completion = Completion(ending: Ending, immediate: bool, ops: seq<Op>)

  datatype State = Idle | Asserted | Delay

  /** Since the first `n` calls the timer has not failed. */
  ghost predicate Reliable(timers: seq<TimerCall>, n: nat) {
    forall k :: n <= k < |timers| ==> timers[k].ok
  }

  lemma {:induction false} ReliableMore(timers: seq<TimerCall>, n: nat, c: TimerCall)
    requires n <= |timers|
    ensures Reliable(timers + [c], n) <==> Reliable(timers, n) && c.ok
  {
    var more := timers + [c];
    assert more[|timers|] == c;
    assert forall k :: n <= k < |timers| ==> more[k] == timers[k];
  }

  /** The link has done all it was asked. */
  ghost predicate Willing(ops: seq<Op>) {
    forall i :: 0 <= i < |ops| ==> ops[i].ok
  }

  /** From the n-th call on: the line is cleared, and once more if that fails. */
  ghost predicate Retries(ops: seq<Op>, n: nat, pin: Line) {
    && n < |ops| && ops[n].ClearLine? && ops[n].pin == pin
    && (!ops[n].ok ==> n + 1 < |ops| && ops[n + 1].ClearLine? && ops[n + 1].pin == pin)
  }

  // ----- What a completion means -----

  /** The line was set, and cleared after that. */
  ghost predicate SetThenCleared(ops: seq<Op>, pin: Line) {
    exists j :: 0 <= j < |ops| && ops[j] == ClearLine(pin, true) && SetLine(pin, true) in ops[..j]
  }

  /** The pulse was given, and then the link took all follow-up bytes. */
  ghost predicate Pulsed(ops: seq<Op>, p: Pulse) {
    if p.followup == [] then SetThenCleared(ops, p.pin)
    else exists k :: 0 <= k < |ops| && ops[k] == Write(p.followup, true) && SetThenCleared(ops[..k], p.pin)
  }

  /** The same for a link that signals a BREAK in one call. */
  ghost predicate Signalled(ops: seq<Op>, p: Pulse) {
    if p.followup == [] then Signal(p.ms, true) in ops
    else exists k :: 0 <= k < |ops| && ops[k] == Write(p.followup, true) && Signal(p.ms, true) in ops[..k]
  }

  /** A line that was set had a clear issued after it. */
  ghost predicate Released(ops: seq<Op>) {
    forall i :: 0 <= i < |ops| && ops[i].SetLine? && ops[i].ok ==>
      exists j :: i < j < |ops| && ops[j].ClearLine? && ops[j].pin == ops[i].pin
  }

  /** Nothing is written before the pulse is over. */
  ghost predicate Quiet(ops: seq<Op>, p: Pulse) {
    forall k :: 0 <= k < |ops| && ops[k].Write? ==> SetThenCleared(ops[..k], p.pin) || Signal(p.ms, true) in ops[..k]
  }

  ghost predicate Sound(p: Pulse, c: Completion) {
    && Released(c.ops) && Quiet(c.ops, p)
    && (!c.ending.Cancelled? ==> (c.ending.Done? <==> if c.immediate then Signalled(c.ops, p) else Pulsed(c.ops, p)))
    && (c.ending.Cancelled? ==> !c.immediate)
  }

  ghost predicate AllSound(accepted: seq<Pulse>, fired: seq<Completion>)
    requires |fired| <= |accepted|
  {
    forall i {:trigger Sound(accepted[i], fired[i])} :: 0 <= i < |fired| ==> Sound(accepted[i], fired[i])
  }

  /** While the line is held: it was set last, and nothing was set before it. */
  ghost predicate Held(ops: seq<Op>, pin: Line) {
    && ops != [] && ops[|ops| - 1] == SetLine(pin, true)
    && forall i :: 0 <= i < |ops| - 1 ==> ops[i].ClearLine?
  }

  /** After a successful clear: nothing has been written yet. */
  ghost predicate Waiting(ops: seq<Op>, pin: Line) {
    && SetThenCleared(ops, pin) && Released(ops)
    && forall i :: 0 <= i < |ops| ==> ops[i].SetLine? || ops[i].ClearLine?
  }

  /** After a clear that failed twice. */
  ghost predicate Stuck(ops: seq<Op>, pin: Line) {
    && Released(ops) && !SetThenCleared(ops, pin)
    && forall i :: 0 <= i < |ops| ==> ops[i].SetLine? || ops[i].ClearLine?
  }

  lemma {:induction false} ClearHeld(ops: seq<Op>, pin: Line, ok: bool)
    requires Held(ops, pin)
    ensures var ops' := ops + [ClearLine(pin, ok)]; if ok then Waiting(ops', pin) else Stuck(ops', pin)
  {
    var n := |ops|;
    var ops' := ops + [ClearLine(pin, ok)];
    assert ops'[n] == ClearLine(pin, ok) && ops'[..n] == ops && ops[n - 1] in ops;
    assert forall j :: 0 <= j < n ==> SetLine(pin, true) !in ops'[..j];
  }

  lemma {:induction false} ClearStuck(ops: seq<Op>, pin: Line, ok: bool)
    requires Stuck(ops, pin) && SetLine(pin, true) in ops
    ensures var ops' := ops + [ClearLine(pin, ok)]; if ok then Waiting(ops', pin) else Stuck(ops', pin)
  {
    var n := |ops|;
    var ops' := ops + [ClearLine(pin, ok)];
    assert ops'[n] == ClearLine(pin, ok) && ops'[..n] == ops;
    if !ok {
      assert forall j :: 0 <= j < n ==> ops'[..j] == ops[..j];
    }
    ReleasedGrows(ops, ClearLine(pin, ok));
  }

  lemma {:induction false} ReleasedGrows(ops: seq<Op>, op: Op)
    requires Released(ops) && !op.SetLine?
    ensures Released(ops + [op])
  {
    var ops' := ops + [op];
    forall i | 0 <= i < |ops'| && ops'[i].SetLine? && ops'[i].ok
      ensures exists j :: i < j < |ops'| && ops'[j].ClearLine? && ops'[j].pin == ops'[i].pin
    {
      var j :| i < j < |ops| && ops[j].ClearLine? && ops[j].pin == ops[i].pin;
      assert ops'[j] == ops[j];
    }
  }

  lemma {:induction false} StillCleared(ops: seq<Op>, pin: Line, op: Op)
    requires SetThenCleared(ops, pin)
    ensures SetThenCleared(ops + [op], pin)
  {
    var j :| 0 <= j < |ops| && ops[j] == ClearLine(pin, true) && SetLine(pin, true) in ops[..j];
    assert (ops + [op])[..j] == ops[..j] && (ops + [op])[j] == ops[j];
  }

  /** Ending a pulse that needs nothing more, or whose line is stuck, or cancelling. */
  lemma {:induction false} EndPulse(ops: seq<Op>, p: Pulse, ending: Ending)
    requires Waiting(ops, p.pin) || Stuck(ops, p.pin)
    requires ending == Cancelled || (ending == Done && Waiting(ops, p.pin) && p.followup == []) || (ending == Failed && Stuck(ops, p.pin))
    ensures Sound(p, Completion(ending, false, ops))
  {
  }

  lemma {:induction false} EndFollowup(ops: seq<Op>, p: Pulse, ok: bool)
    requires Waiting(ops, p.pin) && p.followup != []
    ensures Sound(p, Completion(if ok then Done else Failed, false, ops + [Write(p.followup, ok)]))
  {
    var n := |ops|;
    var ops' := ops + [Write(p.followup, ok)];
    assert ops'[n] == Write(p.followup, ok) && ops'[..n] == ops;
    ReleasedGrows(ops, Write(p.followup, ok));
  }

  /** A link without BREAK control: the set failed, the signal is sent in one call. */
  lemma {:induction false} EndSignal(p: Pulse, sent: bool, ops: seq<Op>)
    requires ops == [SetLine(Break, false), Signal(p.ms, sent)] && (sent ==> p.followup == [])
    ensures Sound(p, Completion(if sent then Done else Failed, true, ops))
  {
    assert ops[1] == Signal(p.ms, sent);
  }

  lemma {:induction false} EndSignalWrite(p: Pulse, ok: bool, ops: seq<Op>)
    requires ops == [SetLine(Break, false), Signal(p.ms, true), Write(p.followup, ok)] && p.followup != []
    ensures Sound(p, Completion(if ok then Done else Failed, true, ops))
  {
    assert ops[2] == Write(p.followup, ok) && ops[..2] == [SetLine(Break, false), Signal(p.ms, true)];
    assert ops[..2][1] == Signal(p.ms, true);
  }

  function Clamp(ms: int, whenUnset: nat, most: nat): (r: nat)
    requires 0 < whenUnset <= most
    ensures 0 < r <= most && (0 < ms <= most ==> r == ms)
    ensures (ms <= 0 ==> r == whenUnset) && (ms > most ==> r == most)
  {
    if ms <= 0 then whenUnset else if ms > most then most else ms
  }

  /** A BREAK as requested, with its times brought into range. */
  function BreakPulse(duration: int, bytes: seq<Byte>, wait: int): (p: Pulse)
    ensures p.pin == Break && p.followup == bytes
    ensures 0 < p.ms <= 2000 && (0 < duration <= 2000 ==> p.ms == duration)
    ensures (duration <= 0 ==> p.ms == 250) && (duration > 2000 ==> p.ms == 2000)
    ensures p.delay <= 500 && (0 <= wait <= 500 ==> p.delay == wait)
    ensures (wait < 0 ==> p.delay == 0) && (wait > 500 ==> p.delay == 500)
  {
    Pulse(Break, bytes, Clamp(duration, DEFAULT_BREAK_MS, MAX_BREAK_MS), if wait < 0 then 0 else Min(wait, MAX_DELAY_MS))
  }

  /** The follow-up of a pulse that is over has to wait. */
  ghost predicate Waits(followup: seq<Byte>, delay: nat, ops: seq<Op>, pin: Line) {
    followup != [] && delay > 0 && SetThenCleared(ops, pin)
  }

  // ----- The machine -----

  class Machine {
    var state: State
    var pin: Line
    var followup: seq<Byte>
    var delay: nat
    var hasTimer: bool
    ghost var accepted: seq<Pulse>      // requests that were answered with success
    ghost var fired: seq<Completion>    // completions, in the order of their requests
    ghost var refused: seq<seq<Op>>     // what was done for requests that were rejected
    ghost var ops: seq<Op>              // what was done for the request in progress
    ghost var timers: seq<TimerCall>    // what was asked of the timer

    ghost function Current(): Pulse
      requires accepted != []
      reads this
    {
      accepted[|accepted| - 1]
    }

    /** Every accepted request completes exactly once, and rejected ones never do. */
    ghost predicate Conserved()
      reads this
    {
      && |accepted| == |fired| + (if state.Idle? then 0 else 1)
      && AllSound(accepted, fired)
      && forall i :: 0 <= i < |refused| ==> Released(refused[i])
    }

    ghost predicate InProgress()
      reads this
    {
      && |followup| <= MAX_FOLLOWUP
      && (state.Idle? ==> followup == [])
      && (!state.Idle? ==> hasTimer && accepted != [] && Current().pin == pin && Current().followup == followup)
      && (state.Asserted? ==> Held(ops, pin))
      && (state.Delay? ==> Waiting(ops, pin) && followup != [])
    }

    ghost predicate Valid()
      reads this
    {
      Conserved() && InProgress()
    }

    /** Requests and completions are only ever added. */
    twostate predicate Grows()
      reads this
    {
      old(accepted) <= accepted && old(fired) <= fired
    }

    /** A BREAK was asked for. It is taken iff the port is up, no pulse is under way, the
        follow-up fits, and the timer does not fail. */
    twostate predicate Struck(up: bool, duration: int, bytes: seq<Byte>, wait: int)
      reads this
    {
      if up && old(state).Idle? && |bytes| <= 8 && Reliable(timers, |old(timers)|)
      then accepted == old(accepted) + [BreakPulse(duration, bytes, wait)]
      else accepted == old(accepted)
    }

    /** A modem line was asked to be held. That is taken iff the port is up, no pulse is
        under way, and neither the link nor the timer fails. */
    twostate predicate Grasped(up: bool, line: Line, hold: int)
      reads this
    {
      if up && old(state).Idle? && (line.Rts? || line.Dtr?) && Reliable(timers, |old(timers)|) && Willing(ops)
      then
        && |accepted| == |old(accepted)| + 1 && accepted[..|old(accepted)|] == old(accepted)
        && accepted[|old(accepted)|].pin == line && |accepted[|old(accepted)|].followup| == 0
        && accepted[|old(accepted)|].ms == Clamp(hold, 100, 2000)
      else accepted == old(accepted)
    }

    /** What the timer does: a held line is cleared, with one retry; then a follow-up waits
        if it should, and otherwise the request is over. */
    twostate predicate Ticked()
      reads this
    {
      && accepted == old(accepted) && refused == old(refused)
      && (old(state).Idle? ==> state == Idle && fired == old(fired))
      && (old(state).Delay? ==> state == Idle)
      && (old(state).Asserted? ==> state != Asserted && Retries(ops, |old(ops)|, old(pin)))
      && |fired| == |old(fired)| + (if state == old(state) || state.Delay? then 0 else 1)
      && timers == old(timers) + (if old(state).Asserted? && Waits(old(followup), old(delay), ops, old(pin))
                                  then [Arm(old(delay), state.Delay?)] else [])
      && (state.Delay? ==> Waits(old(followup), old(delay), ops, old(pin)))
    }

    constructor ()
      ensures Valid() && state == Idle && accepted == [] && fired == [] && refused == []
    {
      state, pin, followup, delay, hasTimer := Idle, Break, [], 0, false;
      accepted, fired, refused, ops, timers := [], [], [], [], [];
    }

    /** Goes idle, then reports. */
    method Complete(ghost ending: Ending)
      requires Conserved() && !state.Idle? && Sound(Current(), Completion(ending, false, ops))
      modifies this`state, this`followup, this`fired
      ensures Valid() && state == Idle
      ensures fired == old(fired) + [Completion(ending, false, ops)]
    {
      fired := fired + [Completion(ending, false, ops)];
      state := Idle;
      followup := [];
    }

    // Every call into the link is made and recorded here. Pulses are under way only on a
    // port that is live, so only a new one has to ask.

    method Drive(live: bool, line: Line, high: bool) returns (ok: bool)
      modifies this`ops
      ensures ok ==> live
      ensures ops == old(ops) + [if high then SetLine(line, ok) else ClearLine(line, ok)]
    {
      ghost var call;
      ok, call := SetParam(live, line, if high then Set else Clear);
      ops := ops + [Noted(call)];
    }

    method Strike(live: bool, ms: nat) returns (ok: bool)
      modifies this`ops
      ensures ops == old(ops) + [Signal(ms, ok)] && (ok ==> live)
    {
      ghost var call;
      ok, call := SendBreak(live, ms);
      ops := ops + [Noted(call)];
    }

    method Send(up: bool, data: seq<Byte>) returns (ok: bool)
      modifies this`ops
      ensures ops == old(ops) + [Write(data, ok)] && (ok ==> up)
    {
      ghost var call;
      ok, call := Transmit(up, data);
      ops := ops + [Noted(call)];
    }

    /** Ends whatever is in progress, releasing the line if it is held. */
    method Cancel()
      requires Valid()
      modifies this
      ensures Valid() && state == Idle && accepted == old(accepted) && refused == old(refused) && Grows()
      ensures if old(state).Idle? then fired == old(fired)
              else |fired| == |old(fired)| + 1 && fired[..|old(fired)|] == old(fired) && fired[|old(fired)|].ending == Cancelled
    {
      if state.Idle? {
        return;
      }
      if state.Asserted? {
        ghost var before := ops;
        var cleared := Drive(true, pin, false);
        ClearHeld(before, pin, cleared);
      }
      EndPulse(ops, Current(), Cancelled);
      Complete(Cancelled);
    }

    method EnsureTimer() returns (ok: bool)
      modifies this`hasTimer, this`timers
      ensures hasTimer == ok && (old(hasTimer) ==> ok)
      ensures timers == old(timers) + if old(hasTimer) then [] else [Create(ok)]
      ensures ok <==> Reliable(timers, |old(timers)|)
    {
      if !hasTimer {
        ghost var call;
        hasTimer, call := CreateTimer();
        timers := timers + [call];
        assert timers[|timers| - 1].ok == hasTimer;
      }
      return hasTimer;
    }

    method ArmFor(ms: nat) returns (ok: bool)
      modifies this`timers
      ensures timers == old(timers) + [Arm(ms, ok)]
    {
      ghost var call;
      ok, call := ArmTimer(ms);
      timers := timers + [call];
    }

    /** Notes what was done for a request that is turned down after all. */
    ghost method Refuse()
      requires Valid() && state.Idle? && Released(ops)
      modifies this`refused
      ensures Valid() && refused == old(refused) + [ops]
    {
      refused := refused + [ops];
    }

    /** Clears a line that was set for a request, and turns the request down. */
    method BackOut(line: Line)
      requires Valid() && state.Idle? && Held(ops, line)
      modifies this`ops, this`refused
      ensures Valid() && refused == old(refused) + [ops] && |ops| == |old(ops)| + 1
    {
      ghost var before := ops;
      var cleared := Drive(true, line, false);
      ClearHeld(before, line, cleared);
      Refuse();
    }

    /** Takes a request whose line has just been set. */
    method Start(p: Pulse) returns (ok: bool)
      requires Valid() && state.Idle? && hasTimer && |p.followup| <= MAX_FOLLOWUP && Held(ops, p.pin)
      modifies this
      ensures Valid() && fired == old(fired) && timers == old(timers) + [Arm(p.ms, ok)]
      ensures ok ==> state == Asserted && accepted == old(accepted) + [p] && refused == old(refused) && delay == p.delay && ops == old(ops)
      ensures !ok ==> state == Idle && accepted == old(accepted) && refused == old(refused) + [ops] && |ops| == |old(ops)| + 1
    {
      ok := ArmFor(p.ms);
      if ok {
        accepted := accepted + [p];
        state, pin, followup, delay := Asserted, p.pin, p.followup, p.delay;
      } else {
        BackOut(p.pin);
      }
    }

    /** Reports a request that was carried out on the spot. */
    ghost method Immediate(p: Pulse, ending: Ending)
      requires Valid() && state.Idle? && Sound(p, Completion(ending, true, ops))
      modifies this`accepted, this`fired
      ensures Valid() && accepted == old(accepted) + [p] && fired == old(fired) + [Completion(ending, true, ops)]
    {
      accepted := accepted + [p];
      fired := fired + [Completion(ending, true, ops)];
    }

    /** A link without BREAK control carries out the whole request at once. */
    method SignalNow(up: bool, live: bool, p: Pulse)
      requires Valid() && state.Idle? && p.pin == Break && ops == [SetLine(Break, false)]
      modifies this`ops, this`accepted, this`fired
      ensures Valid() && accepted == old(accepted) + [p]
      ensures |fired| == |old(fired)| + 1 && fired[..|old(fired)|] == old(fired) && fired[|old(fired)|].immediate
      ensures !live ==> fired[|old(fired)|].ending == Failed
      ensures [SetLine(Break, false), Signal(p.ms, true)] <= fired[|old(fired)|].ops || [SetLine(Break, false), Signal(p.ms, false)] == fired[|old(fired)|].ops
    {
      var sent := Strike(live, p.ms);
      if sent && p.followup != [] {
        var wrote := Send(up, p.followup);
        EndSignalWrite(p, wrote, ops);
        Immediate(p, if wrote then Done else Failed);
      } else {
        EndSignal(p, sent, ops);
        Immediate(p, if sent then Done else Failed);
      }
    }

    method ScheduleBreak(up: bool, live: bool, duration: int, bytes: seq<Byte>, wait: int) returns (ok: bool)
      requires Valid()
      modifies this
      ensures Valid()
      ensures !up || !old(state).Idle? || |bytes| > MAX_FOLLOWUP ==> !ok && state == old(state) && refused == old(refused)
      ensures !ok ==> state == old(state) && accepted == old(accepted) && fired == old(fired)
      ensures ok ==> accepted == old(accepted) + [BreakPulse(duration, bytes, wait)]
      ensures Grows() && (old(state).Idle? && !live ==> state == Idle)
      ensures ok ==> if state.Idle? then |fired| == |old(fired)| + 1 && fired[|old(fired)|].immediate
                     else state == Asserted && fired == old(fired)
      ensures ok && !live ==> fired[|old(fired)|].ending == Failed
      ensures up && old(state).Idle? && |bytes| <= 8 ==> (ok <==> Reliable(timers, |old(timers)|))
      ensures Struck(up, duration, bytes, wait)
      ensures up && old(state).Idle? && |bytes| <= 8 && !ok ==> refused == old(refused) + [ops] && |ops| == 2
      ensures old(timers) <= timers && (ok && state.Asserted? ==> timers != [] && timers[|timers| - 1] == Arm(accepted[|old(accepted)|].ms, true))
      ensures ok && state.Asserted? ==> ops == [SetLine(Break, true)]
      ensures ok && state.Idle? ==> fired[|old(fired)|].ops != [] && fired[|old(fired)|].ops[0] == SetLine(Break, false)
    {
      if !up || !state.Idle? || |bytes| > MAX_FOLLOWUP {
        return false;
      }
      var p := BreakPulse(duration, bytes, wait);
      ops := [];
      var held := Drive(live, Break, true);
      if !held {
        SignalNow(up, live, p);
        return true;
      }
      var timer := EnsureTimer();
      if !timer {
        BackOut(Break);
        return false;
      }
      ReliableMore(timers, |old(timers)|, Arm(p.ms, true));
      ReliableMore(timers, |old(timers)|, Arm(p.ms, false));
      ok := Start(p);
    }

    /** Clears the other modem line, then holds this one. */
    method ScheduleReset(up: bool, live: bool, line: Line, hold: int) returns (ok: bool)
      requires Valid()
      modifies this
      ensures Valid() && Grows() && fired == old(fired) && (ok ==> live)
      ensures !up || !old(state).Idle? || (line != Rts && line != Dtr) ==> !ok && state == old(state) && refused == old(refused)
      ensures !ok ==> state == old(state) && accepted == old(accepted)
      ensures ok ==> state == Asserted && |accepted| == |old(accepted)| + 1 && accepted[..|old(accepted)|] == old(accepted)
      ensures ok ==> accepted[|old(accepted)|].pin == line && accepted[|old(accepted)|].followup == []
      ensures ok ==> accepted[|old(accepted)|].ms == Clamp(hold, DEFAULT_HOLD_MS, MAX_HOLD_MS)
      ensures ok ==> ops == [ClearLine(if line.Rts? then Dtr else Rts, true), SetLine(line, true)]
      ensures up && old(state).Idle? && (line.Rts? || line.Dtr?) ==> (ok <==> Reliable(timers, |old(timers)|) && Willing(ops))
      ensures Grasped(up, line, hold)
      ensures up && old(state).Idle? && (line.Rts? || line.Dtr?) && !ok ==> refused == old(refused) + [ops]
      ensures old(timers) <= timers && (ok ==> timers != [] && timers[|timers| - 1] == Arm(accepted[|old(accepted)|].ms, true))
    {
      if !up || !state.Idle? || (line != Rts && line != Dtr) {
        return false;
      }
      ok := Hold(live, line);
      if ok {
        ReliableMore(timers, |old(timers)|, Arm(Clamp(hold, DEFAULT_HOLD_MS, MAX_HOLD_MS), true));
        ReliableMore(timers, |old(timers)|, Arm(Clamp(hold, DEFAULT_HOLD_MS, MAX_HOLD_MS), false));
        ok := Start(Pulse(line, [], Clamp(hold, DEFAULT_HOLD_MS, MAX_HOLD_MS), delay));
      }
    }

    /** Clears the other modem line and sets this one; a failure turns the request down. */
    method Hold(live: bool, line: Line) returns (ok: bool)
      requires Valid() && state.Idle? && (line == Rts || line == Dtr)
      modifies this`ops, this`hasTimer, this`timers, this`refused
      ensures Valid() && old(timers) <= timers && (ok ==> live && hasTimer)
      ensures ok ==> ops == [ClearLine(if line.Rts? then Dtr else Rts, true), SetLine(line, true)]
      ensures ok <==> Reliable(timers, |old(timers)|) && Willing(ops)
      ensures refused == if ok then old(refused) else old(refused) + [ops]
    {
      ops := [];
      ok := Drive(live, if line.Rts? then Dtr else Rts, false);
      assert ops[0].ok == ok;
      if ok {
        ok := EnsureTimer();
        if ok {
          ok := Drive(live, line, true);
          assert ops[1].ok == ok;
        }
      }
      if !ok {
        Refuse();
      }
    }

    /** Writes the follow-up and reports. */
    method Follow(up: bool)
      requires Conserved() && !state.Idle? && Current().pin == pin && Current().followup == followup
      requires followup != [] && Waiting(ops, pin)
      modifies this
      ensures Valid() && state == Idle && accepted == old(accepted) && refused == old(refused)
      ensures |fired| == |old(fired)| + 1 && fired[..|old(fired)|] == old(fired) && !fired[|old(fired)|].ending.Cancelled?
      ensures timers == old(timers) && |ops| == |old(ops)| + 1 && ops[..|old(ops)|] == old(ops)
    {
      ghost var before := ops;
      var wrote := Send(up, followup);
      EndFollowup(before, Current(), wrote);
      Complete(if wrote then Done else Failed);
    }

    /** Clears the line, retrying once. */
    method Release() returns (ok: bool)
      requires state.Asserted? && Held(ops, pin)
      modifies this`ops
      ensures if ok then Waiting(ops, pin) else Stuck(ops, pin)
      ensures Retries(ops, |old(ops)|, pin)
    {
      ghost var before := ops;
      assert before[|before| - 1] == SetLine(pin, true);
      ok := Drive(true, pin, false);
      ClearHeld(before, pin, ok);
      if !ok {
        ghost var once := ops;
        assert once[|before| - 1] == SetLine(pin, true);
        ok := Drive(true, pin, false);
        ClearStuck(once, pin, ok);
      }
    }

    /** After the pulse: waits before the follow-up if that is asked for and the timer can
        be armed. */
    method Proceed(up: bool)
      requires Conserved() && state.Asserted? && hasTimer && |followup| <= MAX_FOLLOWUP
      requires Current().pin == pin && Current().followup == followup && followup != [] && Waiting(ops, pin)
      modifies this
      ensures Valid() && state != Asserted && accepted == old(accepted) && refused == old(refused) && Grows()
      ensures |fired| == |old(fired)| + (if state.Delay? then 0 else 1)
      ensures SetThenCleared(ops, old(pin)) && old(ops) <= ops
      ensures timers == old(timers) + if old(delay) > 0 then [Arm(old(delay), state.Delay?)] else []
      ensures state.Delay? ==> old(delay) > 0
    {
      var waits := delay > 0;
      if waits {
        waits := ArmFor(delay);
      }
      if waits {
        state := Delay;
      } else {
        ghost var line, before := pin, ops;
        Follow(up);
        assert ops == before + [ops[|before|]];
        StillCleared(before, line, ops[|before|]);
      }
    }

    /** The timer expired; in the idle state that is left over from a cancelled pulse. */
    method OnTimer(up: bool)
      requires Valid()
      modifies this
      ensures Valid() && Ticked() && Grows()
    {
      if state.Asserted? {
        var cleared := Release();
        if cleared && followup != [] {
          Proceed(up);
        } else {
          EndPulse(ops, Current(), if cleared then Done else Failed);
          Complete(if cleared then Done else Failed);
        }
      } else if state.Delay? {
        Follow(up);
      }
    }
  }
}
