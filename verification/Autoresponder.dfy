/** Standing expect-and-send rules matched in the read path (src/autoresponder.c).

    `fires` records, for every installed rule, the times it fired since it was
    added. In every state a once-rule has fired at most once and consecutive fires of a
    rule are at least its cooldown apart. Names are stored cut to 63 bytes but looked up
    uncut, so they are unique only as long as no longer name gets in the way. */
module Autoresponder {
  import opened Bytes
  import opened Patterns
  import opened Window

  const MAX_RULES := 32
  const RESPONSE_MAX := 256
  const DEFAULT_COOLDOWN_MS := 1000
  const MATCHED_TEXT_MAX := 127

  datatype Rule = Rule(
    name: string, words: Pattern, response: seq<Byte>,
    once: bool, enabled: bool, cooldown: real, lastFire: real)
  {
    /** The re-fire guard has run out. */
    predicate Ready(ts: real) { enabled && !(lastFire > 0.0 && ts - lastFire < cooldown) }

    function Fired(ts: real): Rule { this.(lastFire := ts, enabled := enabled && !once) }
  }

  datatype Fire = Fire(index: nat, name: string, response: seq<Byte>, text: seq<Byte>)

  // ----- Fire histories -----

  ghost predicate Spaced(times: seq<real>, cooldown: real) {
    forall i :: 0 <= i < |times| - 1 ==> times[i + 1] - times[i] >= cooldown
  }

  /** A rule's state is the outcome of the fires on record for it. */
  ghost predicate Recorded(r: Rule, times: seq<real>) {
    && r.cooldown > 0.0
    && Spaced(times, r.cooldown)
    && (forall i :: 0 <= i < |times| ==> times[i] > 0.0)
    && r.lastFire == (if times == [] then 0.0 else times[|times| - 1])
    && r.enabled == !(r.once && times != [])
    && (r.once ==> |times| <= 1)
  }

  lemma {:induction false} FireRecorded(r: Rule, times: seq<real>, ts: real)
    requires Recorded(r, times) && r.Ready(ts) && ts > 0.0
    ensures Recorded(r.Fired(ts), times + [ts])
  {
    var t := times + [ts];
    forall i | 0 <= i < |t| - 1 ensures t[i + 1] - t[i] >= r.cooldown {
      if i < |times| - 1 {
        assert times[i + 1] - times[i] >= r.cooldown;
      } else {
        assert t[i] == r.lastFire;
      }
    }
  }

  /** A rule is ready before its first fire, and again once its cooldown has passed since the
      last one, unless it fires only once. */
  lemma {:induction false} ReadyAgain(r: Rule, times: seq<real>, ts: real)
    requires Recorded(r, times)
    ensures r.Ready(ts) <==> |times| == 0 || (!r.once && ts >= times[|times| - 1] + r.cooldown)
  {
    if |times| > 0 {
      assert times[|times| - 1] > 0.0;
    }
  }

  /** n fires take at least n - 1 cooldowns. */
  lemma {:induction false} FireRate(times: seq<real>, cooldown: real, i: nat, j: nat)
    requires Spaced(times, cooldown) && cooldown > 0.0 && i <= j < |times|
    ensures (j - i) as real * cooldown <= times[j] - times[i]
    decreases j - i
  {
    if i < j {
      FireRate(times, cooldown, i, j - 1);
      assert times[j - 1 + 1] - times[j - 1] >= cooldown;
      assert (j - i) as real * cooldown == (j - 1 - i) as real * cooldown + cooldown;
    }
  }

  /** A span of length T holds at most T / cooldown + 1 fires of a rule. */
  lemma {:induction false} FiresInSpan(times: seq<real>, cooldown: real, i: nat, j: nat, span: real)
    requires Spaced(times, cooldown) && cooldown > 0.0 && i <= j < |times| && times[j] - times[i] <= span
    ensures (j - i + 1) as real <= span / cooldown + 1.0
  {
    FireRate(times, cooldown, i, j);
    var q := span / cooldown;
    assert q * cooldown == span;
    assert (j - i) as real <= q;
  }

  ghost predicate UniqueNames(rules: seq<Rule>) {
    forall i, j :: 0 <= i < j < |rules| ==> rules[i].name != rules[j].name
  }

  predicate Stored(rules: seq<Rule>, name: string) { exists i :: 0 <= i < |rules| && rules[i].name == name }

  ghost predicate AtMostOne(rules: seq<Rule>, name: string) {
    forall i, j :: 0 <= i < j < |rules| ==> !(rules[i].name == name && rules[j].name == name)
  }

  ghost predicate NamesFit(rules: seq<Rule>) {
    forall i :: 0 <= i < |rules| ==> |rules[i].name| <= FIELD_MAX
  }

  ghost predicate FirstNamed(rules: seq<Rule>, i: nat, name: string)
    requires i < |rules|
  {
    rules[i].name == name && forall k :: 0 <= k < i ==> rules[k].name != name
  }

  /** Adding under this name cannot make two stored names equal: it is stored whole, or
      its cut form is not taken. */
  predicate Clear(rules: seq<Rule>, name: string) { |name| <= FIELD_MAX || !Stored(rules, Cut(name)) }

  ghost predicate AllRecorded(rules: seq<Rule>, fires: seq<seq<real>>) {
    |rules| == |fires| && forall i :: 0 <= i < |rules| ==> Recorded(rules[i], fires[i])
  }

  // ----- Which rules a chunk fires -----

  ghost predicate Triggered(r: Rule, region: seq<Byte>, ts: real) {
    r.Ready(ts) && Matches(r.words, region)
  }

  /** How many of the first `n` rules the region triggers. */
  ghost function Triggers(rules: seq<Rule>, region: seq<Byte>, ts: real, n: nat): nat
    requires n <= |rules|
  {
    if n == 0 then 0
    else Triggers(rules, region, ts, n - 1) + if Triggered(rules[n - 1], region, ts) then 1 else 0
  }

  /** Rule i fires: it is triggered and the output still has room. */
  ghost predicate Selected(rules: seq<Rule>, region: seq<Byte>, ts: real, maxOut: nat, i: nat)
    requires i < |rules|
  {
    Triggered(rules[i], region, ts) && Triggers(rules, region, ts, i) < maxOut
  }

  ghost function After(rules: seq<Rule>, region: seq<Byte>, ts: real, maxOut: nat, i: nat): Rule
    requires i < |rules|
  {
    if Selected(rules, region, ts, maxOut, i) then rules[i].Fired(ts) else rules[i]
  }

  ghost function Record(rules: seq<Rule>, fires: seq<seq<real>>, region: seq<Byte>, ts: real, maxOut: nat): (f: seq<seq<real>>)
    requires |fires| == |rules|
    ensures |f| == |fires|
    ensures forall i :: 0 <= i < |f| ==>
              f[i] == if Selected(rules, region, ts, maxOut, i) then fires[i] + [ts] else fires[i]
  {
    seq(|fires|, i requires 0 <= i < |fires| == |rules| =>
          if Selected(rules, region, ts, maxOut, i) then fires[i] + [ts] else fires[i])
  }

  lemma {:induction false} AfterRecorded(rules: seq<Rule>, rules': seq<Rule>, fires: seq<seq<real>>, region: seq<Byte>, ts: real, maxOut: nat)
    requires AllRecorded(rules, fires) && ts > 0.0 && |rules'| == |rules|
    requires forall i :: 0 <= i < |rules| ==> rules'[i] == After(rules, region, ts, maxOut, i)
    ensures AllRecorded(rules', Record(rules, fires, region, ts, maxOut))
  {
    forall i | 0 <= i < |rules'| ensures Recorded(rules'[i], Record(rules, fires, region, ts, maxOut)[i]) {
      if Selected(rules, region, ts, maxOut, i) {
        FireRecorded(rules[i], fires[i], ts);
      }
    }
  }

  // ----- Scanning -----

  /** `start` begins the line that position `at` is on. */
  ghost predicate BeginsLine(text: seq<Byte>, start: nat, at: nat)
    requires at <= |text|
  {
    && start <= at
    && (start > 0 ==> text[start - 1] == NEWLINE)
    && forall k :: start <= k < at ==> text[k] != NEWLINE
  }

  method LineStart(text: seq<Byte>, at: nat) returns (start: nat)
    requires at <= |text|
    ensures BeginsLine(text, start, at)
  {
    start := at;
    while start > 0 && text[start - 1] != NEWLINE
      invariant start <= at
      invariant forall k :: start <= k < at ==> text[k] != NEWLINE
    {
      start := start - 1;
    }
  }

  /** The line the match is on, cut to the report size. */
  ghost predicate Reports(line: seq<Byte>, text: seq<Byte>, at: nat)
    requires at <= |text|
  {
    exists start: nat :: BeginsLine(text, start, at) && line == text[start..start + Min(MATCHED_TEXT_MAX, |text| - start)]
  }

  method MatchedText(text: seq<Byte>, at: nat) returns (line: seq<Byte>)
    requires at <= |text|
    ensures |line| <= MATCHED_TEXT_MAX && Reports(line, text, at)
  {
    var start := LineStart(text, at);
    line := text[start..start + Min(MATCHED_TEXT_MAX, |text| - start)];
  }

  /** A fire names a selected rule, carries its response and quotes its match. */
  ghost predicate FireOf(f: Fire, rules: seq<Rule>, text: seq<Byte>, start: nat, ts: real, maxOut: nat)
    requires start <= |text|
  {
    && f.index < |rules| && Selected(rules, text[start..], ts, maxOut, f.index)
    && f.name == rules[f.index].name && f.response == rules[f.index].response
    && exists at :: start <= at <= |text| && OccursAt(rules[f.index].words, text[start..], at - start) && Reports(f.text, text, at)
  }

  ghost predicate Listed(out: seq<Fire>, i: nat) { exists k :: 0 <= k < |out| && out[k].index == i }

  /** What the first `n` rules have come to. */
  ghost predicate Progress(rules: seq<Rule>, rules': seq<Rule>, text: seq<Byte>, start: nat, ts: real, maxOut: nat,
                           n: nat, out: seq<Fire>)
    requires start <= |text|
  {
    && n <= |rules| == |rules'| && |out| == Min(maxOut, Triggers(rules, text[start..], ts, n))
    && (forall k :: 0 <= k < n ==> rules'[k] == After(rules, text[start..], ts, maxOut, k))
    && (forall k :: n <= k < |rules| ==> rules'[k] == rules[k])
    && (forall k :: 0 <= k < |out| ==> out[k].index < n && FireOf(out[k], rules, text, start, ts, maxOut))
    && (forall k, l :: 0 <= k < l < |out| ==> out[k].index < out[l].index)
    && (forall k :: 0 <= k < n && Selected(rules, text[start..], ts, maxOut, k) ==> Listed(out, k))
  }

  lemma {:induction false} SkipRule(rules: seq<Rule>, rules': seq<Rule>, text: seq<Byte>, start: nat, ts: real, maxOut: nat,
                                    n: nat, out: seq<Fire>)
    requires start <= |text| && Progress(rules, rules', text, start, ts, maxOut, n, out)
    requires n < |rules| && !Triggered(rules[n], text[start..], ts)
    ensures Progress(rules, rules', text, start, ts, maxOut, n + 1, out)
  {
  }

  lemma {:induction false} FireRule(rules: seq<Rule>, rules': seq<Rule>, text: seq<Byte>, start: nat, ts: real, maxOut: nat,
                                    n: nat, out: seq<Fire>, f: Fire)
    requires start <= |text| && Progress(rules, rules', text, start, ts, maxOut, n, out)
    requires n < |rules| && |out| < maxOut && Triggered(rules[n], text[start..], ts)
    requires f.index == n && FireOf(f, rules, text, start, ts, maxOut)
    ensures Progress(rules, rules'[n := rules[n].Fired(ts)], text, start, ts, maxOut, n + 1, out + [f])
  {
    var out' := out + [f];
    assert out'[|out|].index == n;
    forall k | 0 <= k < n + 1 && Selected(rules, text[start..], ts, maxOut, k) ensures Listed(out', k) {
      if k < n {
        var m :| 0 <= m < |out| && out[m].index == k;
        assert out'[m].index == k;
      }
    }
  }

  /** Once the output is full, or all rules have been looked at, nothing more fires. */
  lemma {:induction false} Stopped(rules: seq<Rule>, rules': seq<Rule>, text: seq<Byte>, start: nat, ts: real, maxOut: nat,
                                   n: nat, out: seq<Fire>)
    requires start <= |text| && Progress(rules, rules', text, start, ts, maxOut, n, out)
    requires n == |rules| || |out| >= maxOut
    ensures Progress(rules, rules', text, start, ts, maxOut, |rules|, out)
  {
    forall k | n <= k < |rules| ensures !Selected(rules, text[start..], ts, maxOut, k) {
      TriggersMonotone(rules, text[start..], ts, n, k);
    }
    TriggersMonotone(rules, text[start..], ts, n, |rules|);
  }

  /** Fires, in order, the rules that the text from `start` on triggers. */
  method FireRules(rules: seq<Rule>, text: seq<Byte>, start: nat, ts: real, maxOut: nat)
    returns (rules': seq<Rule>, out: seq<Fire>)
    requires start <= |text|
    ensures Progress(rules, rules', text, start, ts, maxOut, |rules|, out)
  {
    var region := text[start..];
    rules', out := rules, [];
    var i := 0;
    while i < |rules| && |out| < maxOut
      invariant i <= |rules| && Progress(rules, rules', text, start, ts, maxOut, i, out)
    {
      var r := rules[i];
      var found := Exec(r.words, region);
      if r.Ready(ts) && found.Some? {
        var line := MatchedText(text, start + found.value);
        var f := Fire(i, r.name, r.response, line);
        Quoted(rules, text, start, ts, maxOut, f, found.value);
        FireRule(rules, rules', text, start, ts, maxOut, i, out, f);
        rules' := rules'[i := r.Fired(ts)];
        out := out + [f];
      } else {
        SkipRule(rules, rules', text, start, ts, maxOut, i, out);
      }
      i := i + 1;
    }
    Stopped(rules, rules', text, start, ts, maxOut, i, out);
  }

  lemma {:induction false} Quoted(rules: seq<Rule>, text: seq<Byte>, start: nat, ts: real, maxOut: nat, f: Fire, found: nat)
    requires start <= |text| && f.index < |rules| && Selected(rules, text[start..], ts, maxOut, f.index)
    requires f.name == rules[f.index].name && f.response == rules[f.index].response
    requires start + found <= |text| && OccursAt(rules[f.index].words, text[start..], found) && Reports(f.text, text, start + found)
    ensures FireOf(f, rules, text, start, ts, maxOut)
  {
    var at := start + found;
    assert start <= at <= |text| && OccursAt(rules[f.index].words, text[start..], at - start);
  }

  lemma {:induction false} TriggersMonotone(rules: seq<Rule>, region: seq<Byte>, ts: real, m: nat, n: nat)
    requires m <= n <= |rules|
    ensures Triggers(rules, region, ts, m) <= Triggers(rules, region, ts, n)
    decreases n
  {
    if m < n {
      TriggersMonotone(rules, region, ts, m, n - 1);
    }
  }

  // ----- The rule table -----

  function NewRule(name: string, words: Pattern, response: seq<Byte>, once: bool, cooldownMs: int): (r: Rule)
    ensures Recorded(r, []) && r.name == Cut(name)
    ensures r.words == words && r.response == response && r.once == once && r.enabled
    ensures if cooldownMs > 0 then r.cooldown * 1000.0 == cooldownMs as real else r.cooldown == 1.0
  {
    var ms := if cooldownMs > 0 then cooldownMs else DEFAULT_COOLDOWN_MS;
    Rule(Cut(name), words, response, once, true, ms as real / 1000.0, 0.0)
  }

  /** What one chunk does to the table, given the text and where its scan starts. */
  ghost predicate Fed(rules: seq<Rule>, fires: seq<seq<real>>, rules': seq<Rule>, fires': seq<seq<real>>,
                      text: seq<Byte>, start: nat, ts: real, maxOut: nat, out: seq<Fire>)
    requires start <= |text| && |fires| == |rules|
  {
    && Progress(rules, rules', text, start, ts, maxOut, |rules|, out)
    && fires' == Record(rules, fires, text[start..], ts, maxOut)
  }

  lemma {:induction false} FedKeeps(rules: seq<Rule>, fires: seq<seq<real>>, rules': seq<Rule>, fires': seq<seq<real>>,
                 text: seq<Byte>, start: nat, ts: real, maxOut: nat, out: seq<Fire>)
    requires start <= |text| && ts > 0.0 && AllRecorded(rules, fires)
    requires Fed(rules, fires, rules', fires', text, start, ts, maxOut, out)
    ensures AllRecorded(rules', fires')
  {
    AfterRecorded(rules, rules', fires, text[start..], ts, maxOut);
  }

  ghost predicate SameNames(rules: seq<Rule>, rules': seq<Rule>) {
    |rules| == |rules'| && forall i :: 0 <= i < |rules| ==> rules'[i].name == rules[i].name
  }

  lemma {:induction false} FedNames(rules: seq<Rule>, fires: seq<seq<real>>, rules': seq<Rule>, fires': seq<seq<real>>,
                                    text: seq<Byte>, start: nat, ts: real, maxOut: nat, out: seq<Fire>)
    requires start <= |text| && |fires| == |rules| && Fed(rules, fires, rules', fires', text, start, ts, maxOut, out)
    ensures SameNames(rules, rules')
  {
    forall i | 0 <= i < |rules| ensures rules'[i].name == rules[i].name {
      assert rules'[i] == After(rules, text[start..], ts, maxOut, i);
    }
  }

  datatype Snapshot = Snapshot(rules: seq<Rule>, fires: seq<seq<real>>, text: seq<Byte>)

  /** What one chunk of output does. Only text on the unfinished last line and in the chunk
      can fire a rule: `start` follows the last newline before the chunk. */
  ghost predicate Scanned(a: Snapshot, b: Snapshot, data: seq<Byte>, ts: real, maxOut: nat, out: seq<Fire>, start: nat) {
    if |data| == 0 || |a.rules| == 0 || maxOut == 0 then
      |out| == 0 && b.rules == a.rules && b.fires == a.fires
    else
      && b.text == Suffix(a.text + data, WINDOW_MAX) && (|data| < WINDOW_CAP ==> |data| <= |b.text|)
      && BeginsLine(b.text, start, if |data| >= WINDOW_CAP then 0 else |b.text| - |data|)
      && |a.fires| == |a.rules| && Fed(a.rules, a.fires, b.rules, b.fires, b.text, start, ts, maxOut, out)
  }

  class Autoresponder {
    const window: Window
    var rules: seq<Rule>
    ghost var fires: seq<seq<real>>  // when each rule fired since it was added

    ghost predicate Valid()
      reads this, window
    {
      && window.Valid() && window.searchOffset == window.len
      && |rules| <= MAX_RULES && NamesFit(rules)
      && AllRecorded(rules, fires)
    }

    constructor ()
      ensures Valid() && rules == [] && fires == [] && window.len == 0 && fresh(window) && fresh(window.buf)
    {
      window := new Window();
      rules, fires := [], [];
    }

    ghost function Now(): Snapshot
      requires window.Valid()
      reads this, window, window.buf
    {
      Snapshot(rules, fires, window.Text())
    }

    /** Index of the rule of that name, or the rule count. */
    method Find(name: string) returns (i: nat)
      ensures i <= |rules| && (i < |rules| ==> rules[i].name == name)
      ensures forall k :: 0 <= k < i ==> rules[k].name != name
    {
      i := 0;
      while i < |rules| && rules[i].name != name
        invariant i <= |rules|
        invariant forall k :: 0 <= k < i ==> rules[k].name != name
      {
        i := i + 1;
      }
    }

    /** Adds a rule, or replaces the one stored under that very name; either way its fire
        history starts over. A longer name is stored cut, and never found again. */
    method Add(name: string, pattern: string, compiled: Option<Pattern>, response: seq<Byte>, once: bool, cooldownMs: int)
      returns (ok: bool, i: nat)
      requires Valid()
      modifies this
      ensures Valid()
      ensures ok <==> && name != "" && pattern != "" && |response| <= RESPONSE_MAX && compiled.Some?
                      && (|old(rules)| < MAX_RULES || Stored(old(rules), name))
      ensures !ok ==> rules == old(rules) && fires == old(fires)
      ensures ok ==> Installed(old(rules), old(fires), rules, fires, i, name,
                               NewRule(name, compiled.value, response, once, cooldownMs))
      ensures ok ==> Adds(old(rules), old(fires), rules, fires, name, NewRule(name, compiled.value, response, once, cooldownMs))
      ensures ok && UniqueNames(old(rules)) ==> (UniqueNames(rules) <==> Clear(old(rules), name))
    {
      if name == "" || pattern == "" || |response| > RESPONSE_MAX || compiled.None? {
        return false, 0;
      }
      i := Find(name);
      if i == |rules| && |rules| >= MAX_RULES {
        return false, i;
      }
      Install(i, name, NewRule(name, compiled.value, response, once, cooldownMs));
      ok := true;
    }

    method Install(i: nat, name: string, r: Rule)
      requires Valid() && i <= |rules| && (i < |rules| ==> rules[i].name == name) && (i == |rules| ==> !Stored(rules, name))
      requires r.name == Cut(name) && Recorded(r, []) && (i == |rules| ==> |rules| < MAX_RULES)
      modifies this`rules, this`fires
      ensures Valid() && Installed(old(rules), old(fires), rules, fires, i, name, r)
      ensures UniqueNames(old(rules)) ==> (UniqueNames(rules) <==> Clear(old(rules), name))
    {
      if i == |rules| {
        AppendedNames(rules, name, r);
        rules, fires := rules + [r], fires + [[]];
      } else {
        ReplacedNames(rules, i, name, r);
        rules, fires := rules[i := r], fires[i := []];
      }
    }

    /** Removes the first rule stored under that name, keeping the order of the others.
        None of that name is left iff there was at most one. */
    method Remove(name: string) returns (removed: bool, i: nat)
      requires Valid()
      modifies this`rules, this`fires
      ensures Valid() && removed == Stored(old(rules), name) && (|name| > FIELD_MAX ==> !removed)
      ensures !removed ==> rules == old(rules) && fires == old(fires)
      ensures removed ==> && i < |old(rules)| && FirstNamed(old(rules), i, name)
                          && rules == old(rules)[..i] + old(rules)[i + 1..]
                          && fires == old(fires)[..i] + old(fires)[i + 1..]
      ensures removed ==> Removes(old(rules), rules, name)
      ensures !Stored(rules, name) <==> AtMostOne(old(rules), name)
      ensures UniqueNames(old(rules)) ==> UniqueNames(rules)
    {
      i := Find(name);
      if i == |rules| {
        return false, i;
      }
      RemovedNames(rules, i, name);
      rules, fires := rules[..i] + rules[i + 1..], fires[..i] + fires[i + 1..];
      removed := true;
    }

    /** A new link session starts with an empty window. */
    method ResetWindow()
      requires Valid()
      modifies window
      ensures Valid() && window.len == 0
    {
      window.Reset();
    }

    /** One chunk of output. Only text on the unfinished last line and in the new
        chunk can fire a rule: `start` follows the last newline before the chunk. */
    method Feed(data: seq<Byte>, ts: real, maxOut: nat) returns (out: seq<Fire>, start: nat)
      requires Valid() && ts > 0.0
      modifies this, window, window.buf
      ensures Valid()
      ensures Scanned(old(Now()), Now(), data, ts, maxOut, out, start)
    {
      out, start := [], 0;
      if |data| == 0 || |rules| == 0 || maxOut == 0 {
        return;
      }
      window.Append(data);
      start := LineStart(window.buf[..window.len], window.searchOffset);
      window.searchOffset := window.len;
      out := Apply(window.buf[..window.len], start, ts, maxOut);
    }

    method Apply(text: seq<Byte>, start: nat, ts: real, maxOut: nat) returns (out: seq<Fire>)
      requires start <= |text| && ts > 0.0 && AllRecorded(rules, fires)
      modifies this
      ensures AllRecorded(rules, fires) && SameNames(old(rules), rules)
      ensures Fed(old(rules), old(fires), rules, fires, text, start, ts, maxOut, out)
    {
      var rules';
      rules', out := FireRules(rules, text, start, ts, maxOut);
      ghost var fires' := Record(rules, fires, text[start..], ts, maxOut);
      FedKeeps(rules, fires, rules', fires', text, start, ts, maxOut, out);
      FedNames(rules, fires, rules', fires', text, start, ts, maxOut, out);
      rules, fires := rules', fires';
    }
  }

  /** The table after rule r went in under `name` at index i, in place of the rule
      stored under that very name, or at the end if there is none. */
  ghost predicate Installed(rules: seq<Rule>, fires: seq<seq<real>>, rules': seq<Rule>, fires': seq<seq<real>>,
                            i: nat, name: string, r: Rule)
  {
    if i < |rules| then
      |fires| == |rules| && rules[i].name == name == r.name && rules' == rules[i := r] && fires' == fires[i := []]
    else
      i == |rules| && !Stored(rules, name) && rules' == rules + [r] && fires' == fires + [[]]
  }

  ghost predicate Adds(rules: seq<Rule>, fires: seq<seq<real>>, rules': seq<Rule>, fires': seq<seq<real>>, name: string, r: Rule) {
    exists i: nat :: Installed(rules, fires, rules', fires', i, name, r)
  }

  /** The first rule of that name is gone. */
  ghost predicate Removes(rules: seq<Rule>, rules': seq<Rule>, name: string) {
    exists i: nat :: i < |rules| && FirstNamed(rules, i, name) && rules' == rules[..i] + rules[i + 1..]
  }

  lemma {:induction false} AppendedNames(rules: seq<Rule>, name: string, r: Rule)
    requires !Stored(rules, name) && r.name == Cut(name)
    ensures UniqueNames(rules) ==> (UniqueNames(rules + [r]) <==> Clear(rules, name))
  {
    var rules' := rules + [r];
    if UniqueNames(rules) {
      if Stored(rules, r.name) {
        var k :| 0 <= k < |rules| && rules[k].name == r.name;
        assert rules'[k].name == rules'[|rules|].name;
      } else {
        forall i, j | 0 <= i < j < |rules'| ensures rules'[i].name != rules'[j].name {
          assert rules'[i] == rules[i];
        }
      }
    }
  }

  lemma {:induction false} ReplacedNames(rules: seq<Rule>, i: nat, name: string, r: Rule)
    requires i < |rules| && rules[i].name == name && r.name == Cut(name) && NamesFit(rules)
    ensures r.name == name && Clear(rules, name)
    ensures UniqueNames(rules) ==> UniqueNames(rules[i := r])
  {
    assert |rules[i].name| <= FIELD_MAX;
  }

  lemma {:induction false} RemovedNames(rules: seq<Rule>, i: nat, name: string)
    requires i < |rules| && rules[i].name == name && forall k :: 0 <= k < i ==> rules[k].name != name
    ensures var rest := rules[..i] + rules[i + 1..];
            && (!Stored(rest, name) <==> AtMostOne(rules, name))
            && (UniqueNames(rules) ==> UniqueNames(rest))
  {
    var rest := rules[..i] + rules[i + 1..];
    assert forall k :: 0 <= k < |rest| ==> rest[k] == rules[if k < i then k else k + 1];
    if k :| 0 <= k < |rest| && rest[k].name == name {
      assert i < k + 1 && rules[i].name == rules[k + 1].name == name;
    }
    if j :| i < j < |rules| && rules[j].name == name {
      assert rest[j - 1].name == name;
    }
  }
}
