/** The static check that keeps patterns with a risk of exponential backtracking
    away from the POSIX matcher (src/regex_engine.c): a single left-to-right scan
    with two flags per nesting level. */
module RegexRisk {
  import opened Bytes

  const MAX_DEPTH := 32
  const MAX_QUANTIFIERS := 20
  const MAX_WILDCARDS := 3

  /** `PastEnd`: an unterminated class makes the scan walk over the terminator. */
  datatype Outcome = Accept | Reject | PastEnd

  /** What has been seen at one nesting level: a quantifier, an alternation. */
  datatype Flags = Flags(quantifier: bool, alternation: bool)

  predicate IsQuantifier(c: char) { c == '+' || c == '*' || c == '?' || c == '{' }

  /** The quantifiers that are counted. */
  predicate IsRepeat(c: char) { c == '+' || c == '*' || c == '{' }

  // ----- The scan as a function -----

  /** Index of the bracket closing a class, scanning its body from `i`; the length
      when there is none. */
  function BodyEnd(s: string, i: nat): (k: nat)
    requires i <= |s|
    ensures i <= k <= |s| && (k < |s| ==> s[k] == ']')
    decreases |s| - i
  {
    if i == |s| || s[i] == ']' then i
    else if s[i] == '\\' && i + 1 < |s| then BodyEnd(s, i + 2)
    else BodyEnd(s, i + 1)
  }

  function Eat(s: string, i: nat, c: char): (j: nat)
    requires i <= |s|
    ensures i <= j <= |s|
  {
    if i < |s| && s[i] == c then i + 1 else i
  }

  /** Index of the bracket closing the class that `s` begins with. */
  function ClassEnd(s: string): (k: nat)
    requires s != []
    ensures 1 <= k <= |s|
  {
    BodyEnd(s, Eat(s, Eat(s, 1, '^'), ']'))
  }

  /** Scan state: flags of the enclosing groups, outermost first; length of the
      current run of repeated wildcards; repeats so far. */
  datatype State = State(groups: seq<Flags>, wild: nat, total: nat)

  function Mark(groups: seq<Flags>, q: bool, a: bool): seq<Flags> {
    if groups == [] then []
    else
      var top := groups[|groups| - 1];
      groups[|groups| - 1 := Flags(top.quantifier || q, top.alternation || a)]
  }

  /** One step of the scan: a verdict, or how much was consumed, whether its last
      character was a dot, and the new state. */
  datatype Next = Stop(outcome: Outcome) | Go(n: nat, dot: bool, st: State)

  function Step(dot: bool, s: string, st: State): (r: Next)
    requires s != ""
    ensures r.Go? ==> 1 <= r.n <= |s|
  {
    var c := s[0];
    if c == '\\' && |s| > 1 then Go(2, s[1] == '.', st.(wild := 0))
    else if c == '[' then
      var k := ClassEnd(s);
      if k == |s| then Stop(PastEnd) else Go(k + 1, false, st.(wild := 0))
    else if c == '(' then
      if |st.groups| + 1 >= MAX_DEPTH then Stop(Reject)
      else Go(1, false, st.(groups := st.groups + [Flags(false, false)], wild := 0))
    else if c == ')' then Close(|s| > 1 && IsQuantifier(s[1]), st)
    else if c == '|' then Go(1, false, st.(groups := Mark(st.groups, false, true), wild := 0))
    else if IsRepeat(c) then
      var wild := if dot then st.wild + 1 else 0;
      if wild >= MAX_WILDCARDS then Stop(Reject)
      else Go(1, false, State(Mark(st.groups, true, false), wild, st.total + 1))
    else Go(1, c == '.', if c == '.' then st else st.(wild := 0))
  }

  /** A closing parenthesis: a quantified group must be free of risk, and what it
      contains counts for the group around it. */
  function Close(quantified: bool, st: State): (r: Next)
    ensures r.Go? ==> r.n == 1
  {
    if st.groups == [] then Go(1, false, st.(wild := 0))
    else
      var top := st.groups[|st.groups| - 1];
      if quantified && (top.quantifier || top.alternation) then Stop(Reject)
      else Go(1, false, st.(groups := Mark(st.groups[..|st.groups| - 1], top.quantifier || quantified, top.alternation),
                            wild := 0))
  }

  function Scan(dot: bool, s: string, st: State): Outcome
    decreases |s|
  {
    if s == "" then (if st.total > MAX_QUANTIFIERS then Reject else Accept)
    else
      match Step(dot, s, st)
      case Stop(o) => o
      case Go(n, dot', st') => Scan(dot', s[n..], st')
  }

  const INITIAL := State([], 0, 0)

  // ----- The scan as the program runs it -----

  /** The flag arrays hold the flags of the open groups; level 0 is never read. */
  ghost predicate Level(q: array<bool>, a: array<bool>, depth: nat, groups: seq<Flags>)
    reads q, a
  {
    && q.Length == a.Length == MAX_DEPTH && q != a
    && depth == |groups| < MAX_DEPTH
    && forall i :: 0 <= i < depth ==> groups[i] == Flags(q[i + 1], a[i + 1])
  }

  method SkipCharClass(pattern: string, start: nat) returns (p: nat)
    requires start < |pattern| && pattern[start] == '['
    ensures start < p <= |pattern| && p - start == ClassEnd(pattern[start..])
  {
    var s := pattern[start..];
    p := start + 1;
    if p < |pattern| && pattern[p] == '^' {
      p := p + 1;
    }
    if p < |pattern| && pattern[p] == ']' {
      p := p + 1;
    }
    while p < |pattern| && pattern[p] != ']'
      invariant start < p <= |pattern|
      invariant BodyEnd(s, p - start) == ClassEnd(s)
    {
      if pattern[p] == '\\' && p + 1 < |pattern| {
        p := p + 1;
      }
      p := p + 1;
    }
  }

  /** Sets flags of the innermost open group, if there is one. */
  method SetTop(q: array<bool>, a: array<bool>, depth: nat, hasQ: bool, hasA: bool, ghost groups: seq<Flags>)
    requires Level(q, a, depth, groups)
    modifies q, a
    ensures Level(q, a, depth, Mark(groups, hasQ, hasA))
  {
    if depth > 0 {
      q[depth] := q[depth] || hasQ;
      a[depth] := a[depth] || hasA;
    }
  }

  /** Folds a closed group's flags into its parent. */
  method CloseGroup(q: array<bool>, a: array<bool>, depth: nat, quantified: bool, ghost groups: seq<Flags>)
    requires Level(q, a, depth, groups) && depth > 0
    modifies q, a
    ensures var top := groups[depth - 1];
            Level(q, a, depth - 1, Mark(groups[..depth - 1], top.quantifier || quantified, top.alternation))
  {
    var childQ := q[depth] || quantified;
    var childA := a[depth];
    q[depth - 1] := q[depth - 1] || childQ;
    a[depth - 1] := a[depth - 1] || childA;
  }

  /** One iteration of the scanning loop. */
  method ScanOne(pattern: string, p: nat, q: array<bool>, a: array<bool>, depth: nat, wild: nat, total: nat,
                 ghost groups: seq<Flags>)
    returns (stop: Option<Outcome>, p': nat, depth': nat, wild': nat, total': nat, ghost groups': seq<Flags>)
    requires p < |pattern| && Level(q, a, depth, groups)
    modifies q, a
    ensures match Step(p > 0 && pattern[p - 1] == '.', pattern[p..], State(groups, wild, total))
            case Stop(o) => stop == Some(o)
            case Go(n, dot, st) =>
              && stop == None && p' == p + n <= |pattern| && dot == (pattern[p' - 1] == '.')
              && st == State(groups', wild', total') && Level(q, a, depth', groups')
  {
    var c := pattern[p];
    stop, p', depth', wild', total', groups' := None, p + 1, depth, 0, total, groups;
    if c == '\\' && p + 1 < |pattern| {
      p' := p + 2;
    } else if c == '[' {
      var k := SkipCharClass(pattern, p);
      if k == |pattern| {
        stop := Some(PastEnd);
      }
      p' := k + 1;
    } else if c == '(' {
      if depth + 1 >= MAX_DEPTH {
        stop := Some(Reject);
        return;
      }
      depth' := depth + 1;
      q[depth'], a[depth'] := false, false;
      groups' := groups + [Flags(false, false)];
    } else if c == ')' {
      if depth > 0 {
        var quantified := p + 1 < |pattern| && IsQuantifier(pattern[p + 1]);
        if quantified && (q[depth] || a[depth]) {
          stop := Some(Reject);
          return;
        }
        CloseGroup(q, a, depth, quantified, groups);
        groups' := Mark(groups[..depth - 1], groups[depth - 1].quantifier || quantified, groups[depth - 1].alternation);
        depth' := depth - 1;
      }
    } else if c == '|' {
      SetTop(q, a, depth, false, true, groups);
      groups' := Mark(groups, false, true);
    } else if IsRepeat(c) {
      total' := total + 1;
      SetTop(q, a, depth, true, false, groups);
      groups' := Mark(groups, true, false);
      if p > 0 && pattern[p - 1] == '.' {
        wild' := wild + 1;
        if wild' >= MAX_WILDCARDS {
          stop := Some(Reject);
        }
      }
    } else if c == '.' {
      wild' := wild;
    }
  }

  /** The whole scan, as the program runs it. */
  method CheckRedosRisk(pattern: string) returns (r: Outcome)
    ensures r == Scan(false, pattern, INITIAL)
  {
    var q := new bool[MAX_DEPTH](_ => false);
    var a := new bool[MAX_DEPTH](_ => false);
    var depth: nat, wild: nat, total: nat, p: nat := 0, 0, 0, 0;
    ghost var groups: seq<Flags> := [];
    assert pattern[0..] == pattern;
    while p < |pattern|
      invariant p <= |pattern| && Level(q, a, depth, groups)
      invariant Scan(p > 0 && pattern[p - 1] == '.', pattern[p..], State(groups, wild, total)) == Scan(false, pattern, INITIAL)
    {
      ghost var was := p;
      var stop;
      stop, p, depth, wild, total, groups := ScanOne(pattern, p, q, a, depth, wild, total, groups);
      if stop.Some? {
        return stop.value;
      }
      assert pattern[was..][p - was..] == pattern[p..];
    }
    r := if total > MAX_QUANTIFIERS then Reject else Accept;
  }
}
