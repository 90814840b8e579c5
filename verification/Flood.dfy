/** The autoboot flood (src/broker.c: start, timer, feed, finish): a key is streamed
    at the device until a stop pattern shows up, optionally while a modem line holds
    the device in reset. */
module Flood {
  import opened Bytes
  import opened Patterns
  import opened Link

  const KEY_MAX := 8
  const TAIL := 256
  const DEFAULT_DURATION_MS := 2000
  const MAX_DURATION_MS := 15000
  const DEFAULT_HOLD_MS := 100
  const MAX_HOLD_MS := 2000

  // ----- Requests and results -----

  /** A modem line that holds the device in reset while the flood starts. */
  datatype Reset = Reset(pin: Line, action: Option<Action>, hold: int) {
    /** How the line is driven to hold the device in reset. */
    function Drives(): Action { if action.Some? then action.value else Clear }
  }

  /** `compiled` is the outcome of compiling the stop pattern, if there is one. */
  datatype Request = Request(key: seq<Byte>, duration: int, hasStop: bool, compiled: Option<Pattern>, reset: Option<Reset>) {
    /** The pattern that ends the flood, if one is asked for. */
    function Stop(): (s: Option<Pattern>)
      ensures (hasStop ==> s == compiled) && (!hasStop ==> s.None?)
    {
      if hasStop then compiled else None
    }
  }

  /** What the timer and the link answer while a flood starts. */
  datatype Answers = Answers(created: bool, held: bool, armed: bool)

  datatype Reason = Matched | Timeout | Aborted | Cancelled

  /** What was done to the reset line. */
  datatype LineOp = Assert(pin: Line, action: Action) | Release(pin: Line, action: Action)

  /** A broadcast result, with what had been done to the reset line by then, what the
      device had sent since the start, and the longest chunk it came in. */
  datatype Result = Result(reason: Reason, sent: nat, lines: seq<LineOp>, heard: seq<Byte>, largest: nat)

  /** A reset line is driven as asked for, or cleared when nothing was asked for, and then
      driven the other way; without a reset no line is driven. */
  predicate Pulses(reset: Option<Reset>, lines: seq<LineOp>) {
    match reset
    case None => |lines| == 0
    case Some(Reset(pin, action, _)) =>
      && |lines| == 2
      && lines[0] == Assert(pin, if action.None? then Clear else action.value)
      && lines[1] == Release(pin, if lines[0].action == Set then Clear else Set)
  }

  function Opposite(a: Action): Action { if a == Set then Clear else Set }

  /** The line is driven one way. */
  function Holding(r: Reset): seq<LineOp> { [Assert(r.pin, r.Drives())] }

  /** The line is driven one way once, and then the other way once. */
  function Pulse(r: Reset): seq<LineOp> { Holding(r) + [Release(r.pin, Opposite(r.Drives()))] }

  /** What a flood does to the reset line from start to end. */
  function Driving(reset: Option<Reset>): (lines: seq<LineOp>)
    ensures Pulses(reset, lines)
  {
    if reset.Some? then Pulse(reset.value) else []
  }

  function Duration(ms: int): (d: nat)
    ensures 0 < d <= 15000 && (0 < ms <= 15000 ==> d == ms)
    ensures (ms <= 0 ==> d == 2000) && (ms > 15000 ==> d == 15000)
  {
    if ms <= 0 then DEFAULT_DURATION_MS else Min(ms, MAX_DURATION_MS)
  }

  function HoldTime(r: Reset): (h: nat)
    ensures 0 < h <= 2000 && (0 < r.hold <= 2000 ==> h == r.hold)
    ensures (r.hold <= 0 ==> h == 100) && (r.hold > 2000 ==> h == 2000)
  {
    if r.hold <= 0 then DEFAULT_HOLD_MS else Min(r.hold, MAX_HOLD_MS)
  }

  function After(now: real, ms: nat): real { now + ms as real / 1000.0 }

  lemma {:induction false} AfterGrows(now: real, a: nat, b: nat)
    requires a < b
    ensures After(now, a) < After(now, b)
  {
  }

  /** A reset that a flood can start with: of a modem line, and over before the flood is. */
  predicate Brief(r: Reset, duration: int) { (r.pin.Dtr? || r.pin.Rts?) && HoldTime(r) < Duration(duration) }

  /** What a flood is turned down for before anything is done. */
  predicate Rejected(up: bool, active: bool, q: Request): (r: bool)
    ensures !r <==> && up && !active && 1 <= |q.key| <= 8 && (q.hasStop ==> q.compiled.Some?)
                    && (q.reset.Some? ==> Brief(q.reset.value, q.duration))
  {
    || !up || active || |q.key| == 0 || |q.key| > KEY_MAX
    || (q.reset.Some? && ((q.reset.value.pin != Dtr && q.reset.value.pin != Rts) || HoldTime(q.reset.value) >= Duration(q.duration)))
    || (q.hasStop && q.compiled.None?)
  }

  // ----- The stop pattern -----

  /** The tail is enough: when no chunk is longer than what a word leaves of 257
      bytes, looking at the last 256 bytes finds what looking at everything would. */
  lemma {:induction false} TailSeesStop(p: Pattern, received: seq<Byte>, data: seq<Byte>)
    requires !Matches(p, received)
    requires forall w :: w in p ==> 1 <= |w| && |w| + |data| <= TAIL + 1
    ensures Matches(p, Suffix(received + data, TAIL)) <==> Matches(p, received + data)
  {
    var all := received + data;
    var region := Suffix(all, TAIL);
    var head := all[..|all| - |region|];
    assert all == head + region;
    if Matches(p, region) {
      MatchesSuffix(p, head, region);
    }
    if Matches(p, all) {
      var i: nat :| i <= |all| && OccursAt(p, all, i);
      var w :| w in p && WordAt(w, all, i);
      WordWithin(w, received, data, i);
      assert !OccursAt(p, received, i);
      WordBeyond(w, head, region, i);
      assert OccursAt(p, region, i - |head|);
    }
  }

  lemma {:induction false} NoOnesLeft(w: seq<Byte>, all: seq<Byte>)
    requires w != [] && w[|w| - 1] == 1 && |all| > TAIL
    requires forall i :: |w| <= i < |all| ==> all[i] == 0
    ensures !Matches({w}, Suffix(all, TAIL))
  {
    var region := Suffix(all, TAIL);
    var m := |w|;
    forall i: nat ensures !WordAt(w, region, i) {
      if i + m <= |region| {
        assert region[i..i + m][m - 1] == region[i + m - 1] == all[|all| - |region| + i + m - 1] == 0;
      }
    }
  }

  /** A word and a chunk that together exceed 257 bytes can be missed. */
  lemma {:induction false} TailMissesStop(m: nat, n: nat)
    requires m >= 1 && n >= 1 && m + n > TAIL + 1
    ensures exists w: seq<Byte>, received: seq<Byte>, data: seq<Byte> ::
              && |w| == m && |data| == n && !Matches({w}, received)
              && Matches({w}, received + data) && !Matches({w}, Suffix(received + data, TAIL))
  {
    var w: seq<Byte> := seq(m, i => 1);
    var received: seq<Byte> := w[..m - 1];
    var data: seq<Byte> := [1] + seq(n - 1, i => 0);
    var all := received + data;
    assert all == w + data[1..];
    assert all[0..m] == w;
    assert WordAt(w, all, 0) && OccursAt({w}, all, 0);
    assert !Matches({w}, Suffix(all, TAIL)) by {
      NoOnesLeft(w, all);
    }
    TooShort({w}, received);
  }

  /** For words of `m` bytes and chunks of `n`, the tail shows a new occurrence
      whenever the stream has one. */
  ghost predicate TailExact(m: nat, n: nat) {
    forall w: seq<Byte>, received: seq<Byte>, data: seq<Byte> ::
      |w| == m && |data| == n && !Matches({w}, received) ==>
        (Matches({w}, Suffix(received + data, TAIL)) <==> Matches({w}, received + data))
  }

  lemma {:induction false} TailIsTight(m: nat, n: nat)
    requires m >= 1 && n >= 1
    ensures TailExact(m, n) <==> m + n <= TAIL + 1
  {
    if m + n <= TAIL + 1 {
      forall w: seq<Byte>, received: seq<Byte>, data: seq<Byte> | |w| == m && |data| == n && !Matches({w}, received)
        ensures Matches({w}, Suffix(received + data, TAIL)) <==> Matches({w}, received + data)
      {
        TailSeesStop({w}, received, data);
      }
    } else {
      TailMissesStop(m, n);
    }
  }

  /** A window of a window is a window. */
  lemma {:induction false} SuffixThen(s: seq<Byte>, more: seq<Byte>, cap: nat)
    ensures Suffix(Suffix(s, cap) + more, cap) == Suffix(s + more, cap)
  {
  }

  // ----- What a flood has seen and done -----

  /** Every word of the pattern is short enough for chunks of up to `n` bytes. */
  ghost predicate Fits(p: Pattern, n: nat) {
    forall w :: w in p ==> 1 <= |w| && |w| + n <= TAIL + 1
  }

  /** A flood ends as matched only if the device has sent a stop word since the start,
      and whenever it has, as far as chunks were short enough to tell. */
  ghost predicate Justified(stop: Option<Pattern>, reason: Reason, heard: seq<Byte>, largest: nat) {
    && (reason.Matched? ==> stop.Some? && Matches(stop.value, heard))
    && (stop.Some? && Fits(stop.value, largest) && Matches(stop.value, heard) ==> reason.Matched?)
  }

  ghost predicate Sound(q: Request, r: Result) {
    Pulses(q.reset, r.lines) && Justified(q.Stop(), r.reason, r.heard, r.largest)
  }

  /** One result per accepted flood, none for rejected ones, and a reset line is let go
      exactly once, before the result, whoever turns the flood down or ends it. */
  ghost predicate Conserved(accepted: seq<Request>, results: seq<Result>, refused: seq<Refusal>, active: bool) {
    && |accepted| == |results| + (if active then 1 else 0)
    && (forall i {:trigger Sound(accepted[i], results[i])} :: 0 <= i < |results| ==> Sound(accepted[i], results[i]))
    && (forall i :: 0 <= i < |refused| ==> |refused[i].lines| == 0 || Pulses(refused[i].request.reset, refused[i].lines))
  }

  datatype Refusal = Refusal(request: Request, lines: seq<LineOp>)

  ghost predicate LineState(reset: Option<Reset>, pending: bool, pin: Line, release: Action, lines: seq<LineOp>) {
    if pending then
      reset.Some? && pin == reset.value.pin && release == Opposite(reset.value.Drives()) && lines == Holding(reset.value)
    else lines == Driving(reset)
  }

  /** The window for the stop pattern is the last 256 bytes since the start, and no
      stop word that the chunks let it see has come by. */
  ghost predicate Listening(stop: Option<Pattern>, tail: seq<Byte>, received: seq<Byte>, largest: nat) {
    stop.Some? ==>
      && tail == Suffix(received, TAIL)
      && (Fits(stop.value, largest) ==> !Matches(stop.value, received))
  }

  lemma {:induction false} ListeningStarts(stop: Option<Pattern>, tail: seq<Byte>, received: seq<Byte>, largest: nat)
    requires |tail| == |received| == 0
    ensures Listening(stop, tail, received, largest)
  {
    if stop.Some? && Fits(stop.value, largest) {
      TooShort(stop.value, received);
    }
  }

  lemma {:induction false} FitsLess(p: Pattern, m: nat, n: nat)
    requires Fits(p, n) && m <= n
    ensures Fits(p, m)
  {
  }

  /** One chunk without a stop word in the new window. */
  lemma {:induction false} ListeningOn(p: Pattern, tail: seq<Byte>, received: seq<Byte>, largest: nat, data: seq<Byte>, tail': seq<Byte>)
    requires Listening(Some(p), tail, received, largest)
    requires tail' == Suffix(tail + data, TAIL) && !Matches(p, tail')
    ensures Listening(Some(p), tail', received + data, Max(largest, |data|))
  {
    SuffixThen(received, data, TAIL);
    if Fits(p, Max(largest, |data|)) {
      FitsLess(p, largest, Max(largest, |data|));
      FitsLess(p, |data|, Max(largest, |data|));
      TailSeesStop(p, received, data);
    }
  }

  /** One chunk with a stop word in the new window. */
  lemma {:induction false} StopHeard(p: Pattern, tail: seq<Byte>, received: seq<Byte>, data: seq<Byte>, tail': seq<Byte>)
    requires tail == Suffix(received, TAIL) && tail' == Suffix(tail + data, TAIL) && Matches(p, tail')
    ensures Matches(p, received + data)
  {
    SuffixThen(received, data, TAIL);
    var all := received + data;
    var head := all[..|all| - |tail'|];
    assert all == head + tail';
    MatchesSuffix(p, head, tail');
  }

  method Empty() returns (none: seq<Byte>)
    ensures |none| == 0
  {
    none := [];
  }

  // ----- The machine -----

  class Machine {
    var active: bool
    var key: seq<Byte>
    var stop: Option<Pattern>
    var tail: seq<Byte>
    var sent: nat
    var deadline: real
    var resetPending: bool
    var resetPin: Line
    var release: Action
    var releaseTime: real
    var hasTimer: bool
    ghost var accepted: seq<Request>   // floods answered with success
    ghost var results: seq<Result>     // results broadcast, in the order of their requests
    ghost var refused: seq<Refusal>    // floods turned down after the line was touched
    ghost var lines: seq<LineOp>       // what was done to the line by this flood
    ghost var received: seq<Byte>      // device output since this flood began
    ghost var largest: nat             // the longest chunk of it
    ghost var offered: seq<Call>      // keys offered to the link by all floods

    ghost function Current(): Request
      requires |accepted| > 0
      reads this
    {
      accepted[|accepted| - 1]
    }

    /** What the running flood has done to the line. */
    ghost predicate LineOk()
      requires |accepted| > 0
      reads this
    {
      LineState(Current().reset, resetPending, resetPin, release, lines)
    }

    ghost predicate Valid()
      reads this
    {
      && Conserved(accepted, results, refused, active)
      && (resetPending ==> active)
      && (active ==> LineOk() && stop == Current().Stop() && Listening(stop, tail, received, largest))
    }

    /** Requests and results are only ever added. */
    twostate predicate Grows()
      reads this
    {
      old(accepted) <= accepted && old(results) <= results
    }

    /** Device output came in: a flood ends as matched iff the stop pattern occurs in the last
        256 bytes since its start. */
    twostate predicate Fed(data: seq<Byte>)
      reads this
    {
      && accepted == old(accepted) && refused == old(refused) && offered == old(offered)
      && received == (if old(active) then old(received) + data else old(received))
      && active == (old(active) && !(old(stop).Some? && data != [] && Matches(old(stop).value, Suffix(received, TAIL))))
      && (active ==> lines == old(lines) && resetPending == old(resetPending) && sent == old(sent))
      && if old(active) && !active
         then |accepted| > 0 && results == old(results) + [Result(Matched, old(sent), Driving(Current().reset), received, Max(old(largest), |data|))]
         else results == old(results)
    }

    /** The timer expired: a reset line is let go of when its time has come, and then the
        flood has timed out, or goes on iff the link takes the key. */
    twostate predicate Ticked(up: bool, now: real, later: real)
      reads this
    {
      && accepted == old(accepted) && refused == old(refused)
      && (active ==> old(active) && later < old(deadline) && up && sent == old(sent) + 1 && received == old(received))
      && offered == (if old(active) && later < old(deadline) then old(offered) + [Wrote(old(key), active)] else old(offered))
      && (active ==> resetPending == (old(resetPending) && now < old(releaseTime)))
      && (active && |accepted| > 0 ==> lines == if resetPending then old(lines) else Driving(Current().reset))
      && if old(active) && !active
         then |accepted| > 0 && results == old(results) + [Result(if later >= old(deadline) then Timeout else Aborted, old(sent),
                                                                  Driving(Current().reset), old(received), old(largest))]
         else results == old(results)
    }

    constructor ()
      ensures Valid() && !active && accepted == [] && results == [] && refused == []
    {
      active, key, stop, tail, sent, deadline := false, [], None, [], 0, 0.0;
      resetPending, resetPin, release, releaseTime, hasTimer := false, Unknown, Clear, 0.0, false;
      accepted, results, refused, lines, received, largest, offered := [], [], [], [], [], 0, [];
    }

    // Every call that drives the reset line is made and recorded here.

    /** Holds the device in reset on behalf of a request, until `until`. */
    method Hold(live: bool, held: bool, r: Reset, until: real) returns (ok: bool)
      requires Valid() && !active
      modifies this`lines, this`resetPin, this`release, this`releaseTime
      ensures Valid() && ok == (live && held)
      ensures ok ==> lines == Holding(r) && resetPin == r.pin && release == Opposite(r.Drives()) && releaseTime == until
      ensures !ok ==> |lines| == 0
    {
      ghost var call: Call;
      ok, call := SetParamTo(live, r.pin, r.Drives(), held);
      lines := if ok then [Assert(call.line, call.action)] else [];
      if ok {
        resetPin, release, releaseTime := r.pin, Opposite(r.Drives()), until;
      }
    }

    method LetGo()
      requires |accepted| > 0 && resetPending && LineOk()
      modifies this`lines, this`resetPending
      ensures !resetPending && LineOk() && lines == Driving(Current().reset)
    {
      var _, call := SetParam(true, resetPin, release);
      lines := lines + [Release(call.line, call.action)];
      resetPending := false;
    }

    /** Lets go of the line if it is still held. */
    method LetGoIfHeld()
      requires |accepted| > 0 && LineOk()
      modifies this`lines, this`resetPending
      ensures !resetPending && LineOk() && lines == Driving(Current().reset)
    {
      if resetPending {
        LetGo();
      }
    }

    /** Broadcasts the result of the running flood. */
    method Report(reason: Reason)
      requires active && !resetPending && Conserved(accepted, results, refused, active) && lines == Driving(Current().reset)
      requires Justified(Current().Stop(), reason, received, largest)
      modifies this`active, this`stop, this`results
      ensures Valid() && !active && results == old(results) + [Result(reason, sent, lines, received, largest)]
    {
      results := results + [Result(reason, sent, lines, received, largest)];
      active, stop := false, None;
    }

    method Finish(reason: Reason)
      requires active && Conserved(accepted, results, refused, active) && LineOk()
      requires Justified(Current().Stop(), reason, received, largest)
      modifies this
      ensures Valid() && !active && accepted == old(accepted) && refused == old(refused) && received == old(received)
      ensures results == old(results) + [Result(reason, old(sent), Driving(Current().reset), received, old(largest))]
      ensures Pulses(Current().reset, results[|old(results)|].lines) && offered == old(offered)
    {
      LetGoIfHeld();
      Report(reason);
    }

    method Cancel()
      requires Valid()
      modifies this
      ensures Valid() && !active && accepted == old(accepted) && refused == old(refused) && offered == old(offered)
      ensures if old(active)
              then results == old(results) + [Result(Cancelled, old(sent), Driving(Current().reset), old(received), old(largest))]
              else results == old(results)
    {
      if active {
        Finish(Cancelled);
      }
    }

    /** Slides the window over new device output. */
    method Slide(data: seq<Byte>)
      modifies this`tail
      ensures tail == Suffix(old(tail) + data, TAIL)
    {
      var n := |data|;
      if n >= TAIL {
        tail := data[n - TAIL..];
      } else {
        var keep := |tail|;
        if keep + n > TAIL {
          keep := TAIL - n;
        }
        tail := tail[|tail| - keep..] + data;
      }
    }

    /** Notes device output that has not been looked at yet. */
    ghost method Hear(data: seq<Byte>)
      modifies this`received, this`largest
      ensures received == old(received) + data && largest == Max(old(largest), |data|)
    {
      received, largest := received + data, Max(largest, |data|);
    }

    /** Device output while a flood runs: it ends as matched iff the stop pattern occurs
        in the last 256 bytes since its start. */
    method Feed(data: seq<Byte>)
      requires Valid()
      modifies this
      ensures Valid() && Fed(data) && Grows()
    {
      if !active || |data| == 0 {
        assert received + data == received || !active;
        return;
      }
      Hear(data);
      if stop.Some? {
        SuffixThen(received[..|received| - |data|], data, TAIL);
        assert old(received) == received[..|received| - |data|];
        Watch(data, old(received), old(largest));
      }
    }

    /** Looks for the stop pattern in the window moved over `data`. */
    method Watch(data: seq<Byte>, ghost was: seq<Byte>, ghost longest: nat)
      requires active && stop.Some? && Conserved(accepted, results, refused, active) && LineOk() && stop == Current().Stop()
      requires Listening(stop, tail, was, longest) && received == was + data && largest == Max(longest, |data|)
      modifies this
      ensures Valid() && accepted == old(accepted) && refused == old(refused) && received == old(received) && offered == old(offered)
      ensures active == !Matches(old(stop).value, Suffix(old(tail) + data, TAIL))
      ensures active ==> lines == old(lines) && resetPending == old(resetPending) && sent == old(sent) && results == old(results)
      ensures !active ==> results == old(results) + [Result(Matched, old(sent), Driving(Current().reset), received, old(largest))]
    {
      ghost var before := tail;
      Slide(data);
      if Exec(stop.value, tail).Some? {
        StopHeard(stop.value, before, was, data, tail);
        Finish(Matched);
      } else {
        ListeningOn(stop.value, before, was, longest, data, tail);
      }
    }

    /** Lets go of the reset line when its time has come, then ends the flood or
        sends the key once more; it goes on iff the link takes the key. */
    method OnTimer(up: bool, now: real, later: real)
      requires Valid()
      modifies this
      ensures Valid() && Ticked(up, now, later) && Grows()
    {
      if !active {
        return;
      }
      ReleaseIfDue(now);
      if later >= deadline {
        Finish(Timeout);
        return;
      }
      var ok := SendKey(up);
      if !ok {
        Finish(Aborted);
      }
    }

    method ReleaseIfDue(now: real)
      requires Valid() && active
      modifies this`lines, this`resetPending
      ensures Valid() && resetPending == (old(resetPending) && now < releaseTime)
      ensures lines == if resetPending then old(lines) else Driving(Current().reset)
    {
      if resetPending && now >= releaseTime {
        LetGo();
      }
    }

    /** Offers the key to the link, and counts it if the link takes it. */
    method SendKey(up: bool) returns (ok: bool)
      requires Valid()
      modifies this`sent, this`offered
      ensures Valid() && (ok ==> up) && sent == old(sent) + (if ok then 1 else 0)
      ensures offered == old(offered) + [Wrote(key, ok)]
    {
      ghost var call: Call;
      ok, call := Transmit(up, key);
      offered := offered + [call];
      if ok {
        sent := sent + 1;
      }
    }

    // ----- Starting -----

    method ForgetOutput(ghost awaited: Option<Pattern>)
      modifies this`tail, this`received, this`largest
      ensures Listening(awaited, tail, received, largest) && |received| == 0
    {
      var none := Empty();
      tail, received, largest := none, none, 0;
      ListeningStarts(awaited, tail, received, largest);
    }

    /** Sets up what a new flood listens for and how long it lasts. */
    method Prepare(q: Request, until: real)
      requires Valid() && !active
      modifies this`key, this`stop, this`tail, this`sent, this`deadline, this`received, this`largest
      ensures Valid() && key == q.key && stop == q.Stop() && sent == 0 && deadline == until
      ensures Listening(stop, tail, received, largest) && |received| == 0
    {
      ForgetOutput(q.Stop());
      key, stop, sent, deadline := q.key, q.Stop(), 0, until;
    }

    /** From here on the flood runs, and holds the line if it asked for that. */
    method Activate(q: Request)
      requires Valid() && !active && stop == q.Stop() && Listening(stop, tail, received, largest)
      requires LineState(q.reset, q.reset.Some?, resetPin, release, lines)
      modifies this`active, this`resetPending, this`accepted
      ensures Valid() && active && resetPending == q.reset.Some? && accepted == old(accepted) + [q]
    {
      accepted := accepted + [q];
      active, resetPending := true, q.reset.Some?;
    }

    /** Turns a flood down after all; a line it drove is let go. */
    method BackOut()
      requires Valid() && active
      modifies this
      ensures Valid() && !active && accepted == old(accepted)[..|old(accepted)| - 1] && results == old(results)
      ensures refused == old(refused) + [Refusal(old(Current()), Driving(old(Current()).reset))] && offered == old(offered)
    {
      LetGoIfHeld();
      ghost var q := Current();
      active, stop := false, None;
      accepted := accepted[..|accepted| - 1];
      Refuse(q, lines);
    }

    ghost method Refuse(q: Request, done: seq<LineOp>)
      requires Valid() && !active && (|done| == 0 || Pulses(q.reset, done))
      modifies this`refused
      ensures Valid() && refused == old(refused) + [Refusal(q, done)]
    {
      refused := refused + [Refusal(q, done)];
    }

    method EnsureTimer(created: bool) returns (ok: bool)
      modifies this`hasTimer
      ensures ok == hasTimer == (old(hasTimer) || created)
    {
      if !hasTimer {
        hasTimer := created;
      }
      return hasTimer;
    }

    /** Starts a flood at `now`. It is accepted iff nothing speaks against it, the port
        can drive the line it asks for, and its timer can be created and armed. */
    method Start(up: bool, live: bool, q: Request, now: real, answers: Answers) returns (ok: bool)
      requires Valid()
      modifies this
      ensures Valid() && results == old(results)
      ensures ok == (&& !Rejected(up, old(active), q) && (old(hasTimer) || answers.created)
                     && (q.reset.Some? ==> live && answers.held) && answers.armed)
      ensures Rejected(up, old(active), q) ==> refused == old(refused)
      ensures !ok ==> accepted == old(accepted) && active == old(active)
      ensures ok ==> && !old(active) && active && accepted == old(accepted) + [q] && |received| == 0 && key == q.key
                     && deadline == now + Duration(q.duration) as real / 1000.0
      ensures ok ==> resetPending == q.reset.Some? && stop == (if q.hasStop then q.compiled else None)
      ensures ok && q.reset.Some? ==> lines == Holding(q.reset.value)
                                      && releaseTime == now + HoldTime(q.reset.value) as real / 1000.0 < deadline
      ensures if ok then sent <= 1 && offered == old(offered) + [Wrote(q.key, sent == 1)] else offered == old(offered)
    {
      if Rejected(up, active, q) {
        return false;
      }
      var timer := EnsureTimer(answers.created);
      if !timer {
        return false;
      }
      if q.reset.Some? {
        AfterGrows(now, HoldTime(q.reset.value), Duration(q.duration));
      }
      ok := Engage(up, live, q, now, answers);
    }

    /** Holds the line, then lets the flood run; the program marks it as running first,
        which nothing can observe in between. */
    method Engage(up: bool, live: bool, q: Request, now: real, answers: Answers) returns (ok: bool)
      requires Valid() && !active
      modifies this
      ensures Valid() && results == old(results) && active == ok
      ensures ok == ((q.reset.Some? ==> live && answers.held) && answers.armed)
      ensures accepted == if ok then old(accepted) + [q] else old(accepted)
      ensures ok ==> |received| == 0 && key == q.key && deadline == After(now, Duration(q.duration)) && resetPending == q.reset.Some?
      ensures ok && q.reset.Some? ==> lines == Holding(q.reset.value) && releaseTime == After(now, HoldTime(q.reset.value))
      ensures if ok then sent <= 1 && offered == old(offered) + [Wrote(q.key, sent == 1)] else offered == old(offered)
    {
      Prepare(q, After(now, Duration(q.duration)));
      var held := TakeLine(live, answers.held, q.reset, now);
      if !held {
        Refuse(q, lines);
        return false;
      }
      Activate(q);
      ok := Launch(up, answers.armed);
    }

    /** Holds the device in reset, if that is asked for. */
    method TakeLine(live: bool, held: bool, reset: Option<Reset>, now: real) returns (ok: bool)
      requires Valid() && !active
      modifies this`lines, this`resetPin, this`release, this`releaseTime
      ensures Valid() && ok == (reset.Some? ==> live && held)
      ensures ok ==> LineState(reset, reset.Some?, resetPin, release, lines)
      ensures ok && reset.Some? ==> lines == Holding(reset.value) && releaseTime == After(now, HoldTime(reset.value))
      ensures !ok ==> |lines| == 0
    {
      if reset.Some? {
        ok := Hold(live, held, reset.value, After(now, HoldTime(reset.value)));
      } else {
        lines := [];
        ok := true;
      }
    }

    /** Arms the timer and sends the first key at once. */
    method Launch(up: bool, armed: bool) returns (ok: bool)
      requires Valid() && active && sent == 0
      modifies this
      ensures Valid() && results == old(results) && active == ok == armed
      ensures if ok then sent <= 1 && offered == old(offered) + [Wrote(old(key), sent == 1)] else offered == old(offered)
      ensures !ok ==> accepted == old(accepted)[..|old(accepted)| - 1]
      ensures ok ==> && accepted == old(accepted) && received == old(received) && key == old(key)
                     && deadline == old(deadline) && releaseTime == old(releaseTime)
                     && resetPending == old(resetPending) && lines == old(lines)
    {
      if !armed {
        BackOut();
        return false;
      }
      var _ := SendKey(up);
      return true;
    }
  }
}
