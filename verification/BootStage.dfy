/** Boot progress (src/boot_stage.c, and the announcing loop of src/broker.c):
    ordered markers are looked for in device output through an 8 KiB window.

    The specification keeps the whole current boot in memory: `boot` is every byte
    since the last restart, or since the stage-0 marker that was taken for a
    reboot. A stage counts as reached iff one of its words occurs in it. */
module BootStage {
  import opened Bytes
  import opened Patterns
  import opened Window

  datatype Stage = Stage(name: string, words: Pattern, reached: bool, announced: bool, reachedTs: real)

  ghost predicate Configured(stages: seq<Stage>) {
    forall i :: 0 <= i < |stages| ==> Short(stages[i].words)
  }

  ghost predicate SameMarkers(a: seq<Stage>, b: seq<Stage>) {
    |a| == |b| && forall i :: 0 <= i < |a| ==> a[i].words == b[i].words && a[i].name == b[i].name
  }

  // ----- Specification -----

  /** The boot has got past its first stage. */
  ghost predicate Advanced(stages: seq<Stage>, boot: seq<Byte>) {
    exists i :: 1 <= i < |stages| && Matches(stages[i].words, boot)
  }

  /** A stage-0 marker in new output, once past it, starts a new boot. */
  ghost predicate Reboots(stages: seq<Stage>, boot: seq<Byte>, data: seq<Byte>)
    requires stages != []
  {
    Advanced(stages, boot) && Matches(stages[0].words, data)
  }

  /** The current boot after one more chunk: from the new marker on, or simply longer. */
  ghost function NextBoot(stages: seq<Stage>, boot: seq<Byte>, data: seq<Byte>): seq<Byte>
    requires stages != []
  {
    if Reboots(stages, boot, data) then data[Exec(stages[0].words, data).value..] else boot + data
  }

  /** Reached exactly when found in the current boot. */
  ghost predicate Exact(stages: seq<Stage>, boot: seq<Byte>) {
    forall i :: 0 <= i < |stages| ==> (stages[i].reached <==> Matches(stages[i].words, boot))
  }

  ghost predicate Blank(stages: seq<Stage>) {
    forall i :: 0 <= i < |stages| ==> !stages[i].reached && !stages[i].announced && stages[i].reachedTs == 0.0
  }

  /** `f` is the largest reached index, or -1. */
  ghost predicate Furthest(stages: seq<Stage>, f: int) {
    && -1 <= f < |stages|
    && (f >= 0 ==> stages[f].reached)
    && forall i :: f < i < |stages| ==> !stages[i].reached
  }

  /** Nothing from before a reboot is in the new boot: it begins with the first
      stage-0 marker of the new chunk and holds nothing older. */
  lemma {:induction false} RebootForgets(stages: seq<Stage>, boot: seq<Byte>, data: seq<Byte>)
    requires stages != [] && Reboots(stages, boot, data)
    ensures var b := NextBoot(stages, boot, data);
            && |b| <= |data| && b == Suffix(data, |b|)
            && OccursAt(stages[0].words, b, 0)
            && forall i: nat :: i < |data| - |b| ==> !OccursAt(stages[0].words, data, i)
  {
    var at := Exec(stages[0].words, data).value;
    var w :| w in stages[0].words && WordAt(w, data, at);
    assert WordAt(w, data[at..], 0) by {
      assert data[at..][0..|w|] == data[at..at + |w|];
    }
  }

  // ----- Reboots and chunking -----

  /** Somewhere in these chunks a new boot starts. */
  ghost predicate SomeReboot(stages: seq<Stage>, boot: seq<Byte>, chunks: seq<seq<Byte>>)
    requires stages != []
    decreases |chunks|
  {
    chunks != [] && (Reboots(stages, boot, chunks[0]) || SomeReboot(stages, NextBoot(stages, boot, chunks[0]), chunks[1..]))
  }

  ghost predicate SomeMatch(p: Pattern, chunks: seq<seq<Byte>>) {
    exists i :: 0 <= i < |chunks| && Matches(p, chunks[i])
  }

  lemma {:induction false} SomeMatchSplit(p: Pattern, chunks: seq<seq<Byte>>)
    requires chunks != []
    ensures SomeMatch(p, chunks) <==> Matches(p, chunks[0]) || SomeMatch(p, chunks[1..])
  {
    if i :| 0 <= i < |chunks| && Matches(p, chunks[i]) {
      assert i > 0 ==> chunks[1..][i - 1] == chunks[i];
    }
    if i :| 0 <= i < |chunks| - 1 && Matches(p, chunks[1..][i]) {
      assert chunks[i + 1] == chunks[1..][i];
    }
  }

  lemma {:induction false} StillAdvanced(stages: seq<Stage>, boot: seq<Byte>, data: seq<Byte>)
    requires Advanced(stages, boot)
    ensures Advanced(stages, boot + data)
  {
    var i :| 1 <= i < |stages| && Matches(stages[i].words, boot);
    MatchesPrefix(stages[i].words, boot, data);
  }

  /** Past the first stage, a new boot starts exactly with a chunk that has a stage-0
      marker all to itself. */
  lemma {:induction false} RebootNeedsWholeMarker(stages: seq<Stage>, boot: seq<Byte>, chunks: seq<seq<Byte>>)
    requires stages != [] && Advanced(stages, boot)
    ensures SomeReboot(stages, boot, chunks) <==> SomeMatch(stages[0].words, chunks)
    decreases |chunks|
  {
    if chunks != [] {
      SomeMatchSplit(stages[0].words, chunks);
      if !Matches(stages[0].words, chunks[0]) {
        StillAdvanced(stages, boot, chunks[0]);
        RebootNeedsWholeMarker(stages, boot + chunks[0], chunks[1..]);
      }
    }
  }

  lemma {:induction false} MatchInConcat(p: Pattern, chunks: seq<seq<Byte>>)
    ensures SomeMatch(p, chunks) ==> Matches(p, Concat(chunks))
    decreases |chunks|
  {
    if chunks != [] {
      SomeMatchSplit(p, chunks);
      MatchInConcat(p, chunks[1..]);
      if Matches(p, chunks[0]) {
        MatchesPrefix(p, chunks[0], Concat(chunks[1..]));
      } else if SomeMatch(p, chunks[1..]) {
        MatchesSuffix(p, chunks[0], Concat(chunks[1..]));
      }
    }
  }

  /** Chunking decides whether a reboot is noticed in one case only: every stage-0
      marker in the output is split between chunks. */
  lemma {:induction false} ChunkingHidesReboot(stages: seq<Stage>, boot: seq<Byte>, chunks: seq<seq<Byte>>)
    requires stages != [] && Advanced(stages, boot)
    ensures (SomeReboot(stages, boot, chunks) <==> Reboots(stages, boot, Concat(chunks)))
       <==> !(Matches(stages[0].words, Concat(chunks)) && !SomeMatch(stages[0].words, chunks))
  {
    RebootNeedsWholeMarker(stages, boot, chunks);
    MatchInConcat(stages[0].words, chunks);
  }

  /** A two-byte marker read one byte at a time. */
  lemma {:induction false} SplitMarkerMissed()
    ensures exists stages: seq<Stage>, boot: seq<Byte>, a: seq<Byte>, b: seq<Byte> ::
              stages != [] && Advanced(stages, boot) && Reboots(stages, boot, a + b) && !SomeReboot(stages, boot, [a, b])
  {
    var w: seq<Byte> := [1, 2];
    var late: seq<Byte> := [9];
    var stages := [Stage("start", {w}, false, false, 0.0), Stage("later", {late}, false, false, 0.0)];
    var a: seq<Byte>, b: seq<Byte> := [1], [2];
    assert WordAt(late, late, 0) && OccursAt({late}, late, 0) && Matches(stages[1].words, late);
    assert a + b == w && WordAt(w, w, 0) && OccursAt({w}, w, 0);
    TooShort({w}, a);
    TooShort({w}, b);
    RebootNeedsWholeMarker(stages, late, [a, b]);
    assert !SomeMatch({w}, [a, b]);
    assert Reboots(stages, late, a + b) && !SomeReboot(stages, late, [a, b]);
  }

  lemma {:induction false} NothingReached(stages: seq<Stage>)
    requires Configured(stages) && Blank(stages)
    ensures Exact(stages, [])
  {
    forall i | 0 <= i < |stages| ensures !Matches(stages[i].words, []) {
      TooShort(stages[i].words, []);
    }
  }

  lemma {:induction false} KeepsConfigured(a: seq<Stage>, b: seq<Stage>)
    requires Configured(a) && SameMarkers(a, b)
    ensures Configured(b)
  {
    forall i | 0 <= i < |b| ensures Short(b[i].words) {
      assert a[i].words == b[i].words;
    }
  }

  /** Only reached stages have been announced. */
  ghost predicate Sober(stages: seq<Stage>) {
    forall i :: 0 <= i < |stages| ==> stages[i].announced ==> stages[i].reached
  }

  /** Announcements carry over one chunk unless it starts a new boot, and `newly`
      tells whether any stage was reached by this chunk. */
  ghost predicate Carried(was: seq<Stage>, now: seq<Stage>, newly: nat, rebooted: bool)
    requires |was| == |now|
  {
    && (forall i :: 0 <= i < |now| ==> now[i].announced == (was[i].announced && !rebooted))
    && (newly == 0 <==> forall i :: 0 <= i < |now| ==> now[i].reached ==> was[i].reached && !rebooted)
  }

  /** Stages reached by a chunk carry its time; a new boot forgets the earlier times. */
  ghost predicate Timed(was: seq<Stage>, now: seq<Stage>, ts: real, rebooted: bool)
    requires |was| == |now|
  {
    forall i :: 0 <= i < |now| ==>
      now[i].reachedTs == if now[i].reached && (rebooted || !was[i].reached) then ts else if rebooted then 0.0 else was[i].reachedTs
  }

  /** One scan's effect on the flags. */
  ghost predicate Scanned(mid: seq<Stage>, now: seq<Stage>, region: seq<Byte>) {
    && SameMarkers(mid, now)
    && forall i :: 0 <= i < |now| ==>
         && now[i].announced == mid[i].announced
         && (now[i].reached <==> mid[i].reached || Matches(mid[i].words, region))
  }

  lemma {:induction false} ScannedExact(mid: seq<Stage>, now: seq<Stage>, region: seq<Byte>, boot: seq<Byte>)
    requires Scanned(mid, now, region)
    requires forall i :: 0 <= i < |mid| ==>
               (Matches(mid[i].words, boot) <==> mid[i].reached || Matches(mid[i].words, region))
    ensures Exact(now, boot)
  {
    forall i | 0 <= i < |now| ensures now[i].reached <==> Matches(now[i].words, boot) {
      assert mid[i].words == now[i].words;
    }
  }

  /** A chunk that leaves at least a look-back of old text in the window. */
  ghost predicate Fits(data: seq<Byte>) { |data| + LOOKBACK <= WINDOW_MAX }

  /** Scanning the look-back and the chunk makes the flags exact for the longer boot. */
  lemma {:induction false} ScanExtends(stages: seq<Stage>, boot: seq<Byte>, data: seq<Byte>, back: nat)
    requires Configured(stages) && Exact(stages, boot)
    requires back <= |boot| && (back == |boot| || back >= LOOKBACK)
    ensures forall i :: 0 <= i < |stages| ==>
              (Matches(stages[i].words, boot + data) <==>
               stages[i].reached || Matches(stages[i].words, boot[|boot| - back..] + data))
  {
    forall i | 0 <= i < |stages|
      ensures Matches(stages[i].words, boot + data) <==>
              stages[i].reached || Matches(stages[i].words, boot[|boot| - back..] + data)
    {
      if stages[i].reached {
        MatchesPrefix(stages[i].words, boot, data);
      } else {
        Lookback(stages[i].words, boot, data, back);
      }
    }
  }

  /** The window shows the newest bytes of the boot. */
  ghost predicate Shows(text: seq<Byte>, boot: seq<Byte>) { text == Suffix(boot, WINDOW_MAX) }

  // ----- Tracker -----

  class Tracker {
    const window: Window
    var stages: seq<Stage>
    var furthest: int
    var lastAdvanceTs: real
    ghost var boot: seq<Byte>

    ghost predicate Valid()
      reads this, window, window.buf
    {
      && window.Valid()
      && Shows(window.Text(), boot)
      && window.searchOffset == window.len
      && Configured(stages)
      && Exact(stages, boot)
      && Furthest(stages, furthest)
      && Sober(stages)
    }

    /** Between chunks, every reached stage and no other has been announced. */
    ghost predicate AllAnnounced()
      reads this
    {
      forall i :: 0 <= i < |stages| ==> stages[i].announced == stages[i].reached
    }

    constructor (markers: seq<(string, Pattern)>)
      requires forall i :: 0 <= i < |markers| ==> Short(markers[i].1)
      ensures Valid() && AllAnnounced() && boot == [] && |stages| == |markers|
      ensures forall i :: 0 <= i < |markers| ==> stages[i].name == markers[i].0 && stages[i].words == markers[i].1
      ensures fresh(window) && fresh(window.buf)
    {
      window := new Window();
      stages := seq(|markers|, i requires 0 <= i < |markers| => Stage(markers[i].0, markers[i].1, false, false, 0.0));
      furthest, lastAdvanceTs := -1, 0.0;
      new;
      NothingReached(stages);
      Clear();
    }

    /** Forgets which stages were reached. */
    method ResetStages()
      requires Configured(stages)
      modifies this`stages, this`furthest, this`lastAdvanceTs
      ensures SameMarkers(old(stages), stages) && Configured(stages)
      ensures Blank(stages) && Exact(stages, []) && Furthest(stages, furthest) && lastAdvanceTs == 0.0
    {
      ghost var before := stages;
      for i := 0 to |stages|
        invariant SameMarkers(before, stages)
        invariant forall k :: 0 <= k < i ==> !stages[k].reached && !stages[k].announced && stages[k].reachedTs == 0.0
      {
        stages := stages[i := stages[i].(reached := false, announced := false, reachedTs := 0.0)];
      }
      furthest := -1;
      lastAdvanceTs := 0.0;
      KeepsConfigured(before, stages);
      NothingReached(stages);
    }

    /** A reconnect: the next boot starts from nothing. */
    method Restart()
      requires Valid()
      modifies this, window
      ensures Valid() && AllAnnounced() && boot == [] && SameMarkers(old(stages), stages)
    {
      ResetStages();
      Clear();
    }

    method Clear()
      requires window.Valid() && Configured(stages) && Exact(stages, []) && Furthest(stages, furthest) && Blank(stages)
      modifies this`boot, window
      ensures Valid() && boot == []
    {
      window.Reset();
      boot := [];
    }

    /** Discards everything before a new stage-0 marker when the boot had already
        got further; otherwise leaves the window to be rescanned from the look-back. */
    method CheckReboot(data: seq<Byte>, ghost before: seq<Byte>)
      requires window.Valid() && stages != [] && Configured(stages) && Fits(data)
      requires Shows(window.Text(), before + data)
      requires window.searchOffset == Min(|before|, WINDOW_MAX - |data|)
      requires Exact(stages, before) && Furthest(stages, furthest) && Sober(stages)
      modifies this`stages, this`furthest, this`lastAdvanceTs, window, window.buf
      ensures window.Valid() && Furthest(stages, furthest)
      ensures Pending(old(stages), stages, window.Text(), window.searchOffset, before, data)
      ensures lastAdvanceTs == if Reboots(old(stages), before, data) then 0.0 else old(lastAdvanceTs)
    {
      assert furthest >= 1 <==> Advanced(stages, before);
      if furthest >= 1 {
        var off := window.searchOffset;
        ghost var text := window.Text();
        assert window.buf[off..window.len] == text[off..];
        TextTail(before, data, off);
        var found := Exec(stages[0].words, window.buf[off..window.len]);
        if found.Some? {
          var abs := off + found.value;
          window.searchOffset := 0;
          window.DropFront(abs);
          assert window.Text() == data[found.value..];
          ResetStages();
        }
      }
    }

    /** One chunk of device output: the flags are exact for the current boot again,
        and a new boot forgets what was announced. */
    method Feed(data: seq<Byte>, ts: real) returns (newly: nat)
      requires Valid() && Fits(data)
      modifies this, window, window.buf
      ensures Valid() && SameMarkers(old(stages), stages)
      ensures boot == if data == [] || stages == [] then old(boot) else NextBoot(old(stages), old(boot), data)
      ensures Carried(old(stages), stages, newly, data != [] && stages != [] && Reboots(old(stages), old(boot), data))
      ensures Timed(old(stages), stages, ts, data != [] && stages != [] && Reboots(old(stages), old(boot), data))
      ensures lastAdvanceTs == if newly > 0 then ts
                               else if data != [] && stages != [] && Reboots(old(stages), old(boot), data) then 0.0
                               else old(lastAdvanceTs)
    {
      newly := 0;
      if |data| == 0 || |stages| == 0 {
        return;
      }
      WindowFollows(boot, data);
      window.Append(data);
      CheckReboot(data, boot);
      newly := ScanNew(data, ts, boot, old(stages));
    }

    /** One chunk through the broker: new progress is announced, once per boot. */
    method Process(data: seq<Byte>, ts: real) returns (news: seq<nat>)
      requires Valid() && AllAnnounced() && Fits(data)
      modifies this, window, window.buf
      ensures Valid() && AllAnnounced() && SameMarkers(old(stages), stages)
      ensures boot == if data == [] || stages == [] then old(boot) else NextBoot(old(stages), old(boot), data)
      ensures var rebooted := data != [] && stages != [] && Reboots(old(stages), old(boot), data);
              && (forall i :: i in news <==>
                    0 <= i < |stages| && stages[i].reached && (rebooted || !old(stages)[i].reached))
              && Timed(old(stages), stages, ts, rebooted)
    {
      news := [];
      var newly := Feed(data, ts);
      if newly > 0 {
        ghost var fed := stages;
        news := Announce();
        OnlyAnnounced(fed, stages, boot, furthest);
      }
    }

    /** Scans the window from the look-back on, and has then seen all of it. */
    method ScanNew(data: seq<Byte>, ts: real, ghost before: seq<Byte>, ghost was: seq<Stage>) returns (newly: nat)
      requires window.Valid() && was != [] && Furthest(stages, furthest)
      requires Pending(was, stages, window.Text(), window.searchOffset, before, data)
      modifies this, window`searchOffset
      ensures Valid() && SameMarkers(was, stages)
      ensures boot == NextBoot(was, before, data)
      ensures Carried(was, stages, newly, Reboots(was, before, data)) && Timed(was, stages, ts, Reboots(was, before, data))
      ensures lastAdvanceTs == if newly > 0 then ts else old(lastAdvanceTs)
    {
      var region := Region();
      newly := Scan(region, ts);
      Settle(data, ts, before, was, old(stages), newly, region);
    }

    /** The flags are those of the boot as it now stands. */
    method Settle(data: seq<Byte>, ts: real, ghost before: seq<Byte>, ghost was: seq<Stage>, ghost mid: seq<Stage>,
                  ghost newly: nat, ghost region: seq<Byte>)
      requires window.Valid() && was != [] && Furthest(stages, furthest)
      requires Pending(was, mid, window.Text(), window.searchOffset, before, data)
      requires region == window.Text()[window.searchOffset - Min(LOOKBACK, window.searchOffset)..]
      requires Scanned(mid, stages, region) && Timed(mid, stages, ts, false)
      requires newly == 0 <==> forall i :: 0 <= i < |stages| ==> stages[i].reached ==> mid[i].reached
      modifies this`boot, window`searchOffset
      ensures Valid() && SameMarkers(was, stages) && boot == NextBoot(was, before, data)
      ensures Carried(was, stages, newly, Reboots(was, before, data)) && Timed(was, stages, ts, Reboots(was, before, data))
    {
      ghost var text := window.Text();
      NewTimes(was, mid, stages, text, window.searchOffset, before, data, ts);
      NewFlags(was, mid, stages, text, window.searchOffset, before, data, newly);
      ghost var next := NextBoot(was, before, data);
      assert Shows(text, next) && Exact(stages, next);
      Finish(next);
    }

    /** What the scan looks at: the new text and up to 256 bytes before it. */
    method Region() returns (region: seq<Byte>)
      requires window.Valid()
      ensures region == window.Text()[window.searchOffset - Min(LOOKBACK, window.searchOffset)..]
    {
      var off := window.searchOffset;
      var start := if off > LOOKBACK then off - LOOKBACK else 0;
      region := window.buf[start..window.len];
    }

    /** Everything in the window has been scanned. */
    method Finish(ghost boot': seq<Byte>)
      requires window.Valid() && Shows(window.Text(), boot')
      requires Configured(stages) && Exact(stages, boot') && Furthest(stages, furthest) && Sober(stages)
      modifies this`boot, window`searchOffset
      ensures Valid() && boot == boot'
    {
      window.searchOffset := window.len;
      boot := boot';
    }

    /** Marks every unreached stage with a word in `region`. */
    method Scan(region: seq<Byte>, ts: real) returns (newly: nat)
      requires Furthest(stages, furthest)
      modifies this`stages, this`furthest, this`lastAdvanceTs
      ensures Scanned(old(stages), stages, region) && Furthest(stages, furthest)
      ensures Timed(old(stages), stages, ts, false)
      ensures newly == 0 <==> forall i :: 0 <= i < |stages| ==> stages[i].reached ==> old(stages)[i].reached
      ensures lastAdvanceTs == if newly > 0 then ts else old(lastAdvanceTs)
    {
      newly := 0;
      ghost var was := stages;
      for i := 0 to |stages|
        invariant |stages| == |was|
        invariant forall k :: 0 <= k < i ==> stages[k] == Mark(was[k], region, ts)
        invariant forall k :: i <= k < |stages| ==> stages[k] == was[k]
        invariant Furthest(stages, furthest)
        invariant newly == 0 <==> stages == was
        invariant lastAdvanceTs == if newly > 0 then ts else old(lastAdvanceTs)
      {
        var s := stages[i];
        if !s.reached && Exec(s.words, region).Some? {
          stages := stages[i := s.(reached := true, reachedTs := ts)];
          if i > furthest {
            furthest := i;
          }
          lastAdvanceTs := ts;
          newly := newly + 1;
          assert stages[i] != was[i];
        }
      }
      if newly > 0 {
        ghost var k :| 0 <= k < |was| && stages[k] != was[k];
      }
    }

    /** Broadcasts each reached stage that has not been announced yet. */
    method Announce() returns (news: seq<nat>)
      modifies this`stages
      ensures SameMarkers(old(stages), stages) && |news| <= |stages|
      ensures forall i :: 0 <= i < |stages| ==>
                stages[i] == old(stages)[i].(announced := old(stages)[i].announced || old(stages)[i].reached)
      ensures forall i :: i in news <==> 0 <= i < |stages| && old(stages)[i].reached && !old(stages)[i].announced
      ensures forall i, j :: 0 <= i < j < |news| ==> news[i] < news[j]
    {
      news := [];
      ghost var was := stages;
      for i := 0 to |stages|
        invariant |stages| == |was| && |news| <= i
        invariant forall k :: 0 <= k < i ==> stages[k] == was[k].(announced := was[k].announced || was[k].reached)
        invariant forall k :: i <= k < |stages| ==> stages[k] == was[k]
        invariant forall k :: k in news <==> 0 <= k < i && was[k].reached && !was[k].announced
        invariant forall a, b :: 0 <= a < b < |news| ==> news[a] < news[b]
      {
        if stages[i].reached && !stages[i].announced {
          stages := stages[i := stages[i].(announced := true)];
          assert forall a :: 0 <= a < |news| ==> news[a] in news;
          news := news + [i];
        }
      }
    }
  }

  lemma {:induction false} OnlyAnnounced(a: seq<Stage>, b: seq<Stage>, boot: seq<Byte>, f: int)
    requires SameMarkers(a, b) && Configured(a) && Exact(a, boot) && Furthest(a, f)
    requires forall i :: 0 <= i < |a| ==> b[i].reached == a[i].reached
    ensures Configured(b) && Exact(b, boot) && Furthest(b, f)
  {
    KeepsConfigured(a, b);
    forall i | 0 <= i < |b| ensures b[i].reached <==> Matches(b[i].words, boot) {
      assert a[i].words == b[i].words;
    }
  }

  /** A stage after scanning `region`. */
  ghost function Mark(s: Stage, region: seq<Byte>, ts: real): Stage {
    if !s.reached && Matches(s.words, region) then s.(reached := true, reachedTs := ts) else s
  }

  /** The window and the flags as a chunk leaves them for the scan: of a new boot
      with nothing reached, or of the old one with the chunk unscanned. */
  ghost predicate Pending(was: seq<Stage>, mid: seq<Stage>, text: seq<Byte>, off: nat, before: seq<Byte>, data: seq<Byte>)
    requires was != []
  {
    && Fits(data) && SameMarkers(was, mid) && Configured(mid) && off <= |text|
    && if Reboots(was, before, data) then
         Blank(mid) && text == NextBoot(was, before, data) && off == 0
       else
         && mid == was && Exact(was, before) && Sober(was)
         && Shows(text, before + data) && off == Min(|before|, WINDOW_MAX - |data|)
  }

  /** After the scan the flags are exact for the boot as it now stands. */
  lemma {:induction false} NewFlags(was: seq<Stage>, mid: seq<Stage>, now: seq<Stage>, text: seq<Byte>, off: nat,
                 before: seq<Byte>, data: seq<Byte>, newly: nat)
    requires was != [] && Pending(was, mid, text, off, before, data)
    requires Scanned(mid, now, text[off - Min(LOOKBACK, off)..])
    requires newly == 0 <==> forall i :: 0 <= i < |now| ==> now[i].reached ==> mid[i].reached
    ensures Exact(now, NextBoot(was, before, data)) && Shows(text, NextBoot(was, before, data))
    ensures SameMarkers(was, now) && Configured(now) && Sober(now)
    ensures Carried(was, now, newly, Reboots(was, before, data))
  {
    FlagsExact(was, mid, now, text, off, before, data);
    KeepsConfigured(mid, now);
  }

  lemma {:induction false} NewTimes(was: seq<Stage>, mid: seq<Stage>, now: seq<Stage>, text: seq<Byte>, off: nat,
                 before: seq<Byte>, data: seq<Byte>, ts: real)
    requires was != [] && Pending(was, mid, text, off, before, data)
    requires |now| == |mid| && Timed(mid, now, ts, false)
    requires forall i :: 0 <= i < |now| ==> mid[i].reached ==> now[i].reached
    ensures Timed(was, now, ts, Reboots(was, before, data))
  {
  }

  lemma {:induction false} FlagsExact(was: seq<Stage>, mid: seq<Stage>, now: seq<Stage>, text: seq<Byte>, off: nat,
                   before: seq<Byte>, data: seq<Byte>)
    requires was != [] && Pending(was, mid, text, off, before, data)
    requires Scanned(mid, now, text[off - Min(LOOKBACK, off)..])
    ensures Exact(now, NextBoot(was, before, data)) && Shows(text, NextBoot(was, before, data))
  {
    var region := text[off - Min(LOOKBACK, off)..];
    if Reboots(was, before, data) {
      assert region == text;
      FreshBoot(mid, now, text, data);
    } else {
      LongerBoot(mid, now, region, text, off, before, data);
    }
  }

  /** A new boot lies in the window as a whole. */
  lemma {:induction false} FreshBoot(mid: seq<Stage>, now: seq<Stage>, boot: seq<Byte>, data: seq<Byte>)
    requires Blank(mid) && Scanned(mid, now, boot) && |boot| <= |data| && Fits(data)
    ensures Exact(now, boot) && Shows(boot, boot)
  {
    ScannedExact(mid, now, boot, boot);
  }

  lemma {:induction false} LongerBoot(mid: seq<Stage>, now: seq<Stage>, region: seq<Byte>, text: seq<Byte>, off: nat,
                                      before: seq<Byte>, data: seq<Byte>)
    requires Configured(mid) && Exact(mid, before) && Fits(data)
    requires Shows(text, before + data) && off == Min(|before|, WINDOW_MAX - |data|) <= |text|
    requires region == text[off - Min(LOOKBACK, off)..] && Scanned(mid, now, region)
    ensures Exact(now, before + data)
  {
    var back := Min(LOOKBACK, off);
    RegionIn(before, data, off, WINDOW_MAX, back);
    ScanExtends(mid, before, data, back);
    ScannedExact(mid, now, region, before + data);
  }

  /** What the scan rescans of a window of `cap` bytes is the look-back and the chunk. */
  lemma {:induction false} RegionIn(boot: seq<Byte>, data: seq<Byte>, off: nat, cap: nat, back: nat)
    requires |data| <= cap && off == Min(|boot|, cap - |data|) && back <= off
    ensures off <= |Suffix(boot + data, cap)|
    ensures Suffix(boot + data, cap)[off - back..] == boot[|boot| - back..] + data
  {
    SuffixSlides(boot, data, cap);
    assert |Suffix(boot, cap - |data|)| == off;
    SuffixTail(boot, data, off, back);
  }


  lemma {:induction false} WindowFollows(boot: seq<Byte>, data: seq<Byte>)
    requires |data| <= WINDOW_MAX
    ensures Suffix(Suffix(boot, WINDOW_MAX) + data, WINDOW_MAX) == Suffix(boot + data, WINDOW_MAX)
  {
    SuffixSlides(boot, data, WINDOW_MAX);
    SuffixSlides(Suffix(boot, WINDOW_MAX), data, WINDOW_MAX);
    SuffixOfSuffix(boot, WINDOW_MAX - |data|, WINDOW_MAX);
  }

  /** The unscanned part of the window is the new chunk. */
  lemma {:induction false} TextTail(before: seq<Byte>, data: seq<Byte>, off: nat)
    requires |data| <= WINDOW_MAX && off == |Suffix(before + data, WINDOW_MAX)| - |data|
    ensures Suffix(before + data, WINDOW_MAX)[off..] == data
  {
  }

  datatype Event = Chunk(data: seq<Byte>, ts: real) | Reconnect

  ghost function BootStep(stages: seq<Stage>, boot: seq<Byte>, e: Event): seq<Byte> {
    match e
    case Chunk(data, _) => if data == [] || stages == [] then boot else NextBoot(stages, boot, data)
    case Reconnect => []
  }

  /** The current boot after a whole history of output and reconnects. */
  ghost function BootAfter(stages: seq<Stage>, script: seq<Event>): seq<Byte> {
    if script == [] then [] else BootStep(stages, BootAfter(stages, script[..|script| - 1]), script[|script| - 1])
  }

  lemma {:induction false} SameBoot(a: seq<Stage>, b: seq<Stage>, boot: seq<Byte>, data: seq<Byte>)
    requires a != [] && SameMarkers(a, b)
    ensures NextBoot(a, boot, data) == NextBoot(b, boot, data)
  {
    assert Advanced(a, boot) <==> Advanced(b, boot) by {
      if i :| 1 <= i < |a| && Matches(a[i].words, boot) {
        assert Matches(b[i].words, boot);
      }
      if i :| 1 <= i < |b| && Matches(b[i].words, boot) {
        assert Matches(a[i].words, boot);
      }
    }
  }

  lemma {:induction false} BootAfterMore(stages: seq<Stage>, script: seq<Event>, i: nat)
    requires i < |script|
    ensures BootAfter(stages, script[..i + 1]) == BootStep(stages, BootAfter(stages, script[..i]), script[i])
  {
    assert script[..i + 1][..i] == script[..i];
  }

  method Step(t: Tracker, e: Event, ghost markers: seq<Stage>)
    requires t.Valid() && t.AllAnnounced() && SameMarkers(markers, t.stages) && (e.Chunk? ==> Fits(e.data))
    modifies t, t.window, t.window.buf
    ensures t.Valid() && t.AllAnnounced() && SameMarkers(markers, t.stages)
    ensures t.boot == BootStep(markers, old(t.boot), e)
  {
    match e
    case Chunk(data, ts) =>
      if markers != [] {
        SameBoot(markers, t.stages, t.boot, data);
      }
      var _ := t.Process(data, ts);
    case Reconnect =>
      t.Restart();
  }

  /** Over any history, progress is exact for the current boot: a stage is reached,
      and announced, iff one of its words occurs wholly in it. */
  method Run(t: Tracker, script: seq<Event>)
    requires t.Valid() && t.AllAnnounced() && t.boot == []
    requires forall i :: 0 <= i < |script| && script[i].Chunk? ==> Fits(script[i].data)
    modifies t, t.window, t.window.buf
    ensures SameMarkers(old(t.stages), t.stages) && Furthest(t.stages, t.furthest)
    ensures Exact(t.stages, BootAfter(old(t.stages), script)) && t.AllAnnounced()
  {
    ghost var markers := t.stages;
    for i := 0 to |script|
      invariant t.Valid() && t.AllAnnounced() && SameMarkers(markers, t.stages)
      invariant t.boot == BootAfter(markers, script[..i])
    {
      BootAfterMore(markers, script, i);
      Step(t, script[i], markers);
    }
    assert script[..|script|] == script;
  }
}
