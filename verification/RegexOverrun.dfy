/** When the risk scan steps over the end of a pattern, for every string.

    The text alone decides how it falls into tokens: an escape, a closed class, or one
    character. The scan overruns exactly when a token turns out to be a class that is
    never closed and nothing in front of it makes the scan stop. */
module RegexOverrun {
  import opened Bytes
  import opened RegexRisk

  /** The length of the token `s` begins with; none if that is an unclosed class. */
  function Token(s: string): (n: Option<nat>)
    requires s != ""
    ensures n.Some? ==> 1 <= n.value <= |s|
  {
    if s[0] == '\\' && |s| > 1 then Some(2)
    else if s[0] == '[' then (if ClassEnd(s) == |s| then None else Some(ClassEnd(s) + 1))
    else Some(1)
  }

  /** Where the walk over the tokens meets an unclosed class. */
  function Unclosed(s: string): (k: Option<nat>)
    ensures k.Some? ==> k.value < |s| && s[k.value] == '['
    decreases |s|
  {
    if s == "" then None
    else if Token(s).None? then Some(0)
    else
      var n := Token(s).value;
      match Unclosed(s[n..])
      case None => None
      case Some(k) => Some(n + k)
  }

  /** Some step within `s` ends the scan. */
  predicate Stops(dot: bool, s: string, st: State)
    decreases |s|
  {
    s != "" &&
    match Step(dot, s, st)
    case Stop(_) => true
    case Go(n, dot', st') => Stops(dot', s[n..], st')
  }

  lemma {:induction false} StepTakesToken(dot: bool, s: string, st: State)
    requires s != ""
    ensures Token(s).None? ==> Step(dot, s, st) == Stop(PastEnd)
    ensures Token(s).Some? ==> match Step(dot, s, st) { case Stop(o) => o == Reject case Go(n, _, _) => n == Token(s).value }
  {
  }

  lemma {:induction false} BodyEndWithin(s: string, i: nat, k: nat)
    requires i <= k <= |s| && BodyEnd(s, i) < k
    ensures BodyEnd(s[..k], i) == BodyEnd(s, i)
    decreases |s| - i
  {
    if s[i] != ']' {
      BodyEndWithin(s, if s[i] == '\\' && i + 1 < |s| then i + 2 else i + 1, k);
    }
  }

  lemma {:induction false} ClassEndWithin(s: string, k: nat)
    requires s != "" && ClassEnd(s) < k <= |s|
    ensures ClassEnd(s[..k]) == ClassEnd(s)
  {
    var a := Eat(s, 1, '^');
    var b := Eat(s, a, ']');
    assert b <= ClassEnd(s);
    assert Eat(s[..k], 1, '^') == a && Eat(s[..k], a, ']') == b;
    BodyEndWithin(s, b, k);
  }

  /** A step sees no difference when the text is cut at a bracket behind its token. */
  lemma {:induction false} StepWithin(dot: bool, s: string, st: State, k: nat)
    requires s != "" && Token(s).Some? && Token(s).value <= k < |s| && s[k] == '['
    ensures Step(dot, s[..k], st) == Step(dot, s, st)
  {
    var cut := s[..k];
    assert cut[0] == s[0] && (k > 1 ==> cut[1] == s[1]);
    if s[0] == '[' {
      ClassEndWithin(s, k);
    }
  }

  /** Nothing in front of an unclosed class depends on what follows it. */
  lemma {:induction false} StopsWithin(dot: bool, s: string, st: State, k: nat)
    requires s != "" && Token(s).Some? && Unclosed(s) == Some(k)
    ensures Token(s).value <= k
    ensures Stops(dot, s[..k], st) ==
              match Step(dot, s, st) { case Stop(_) => true case Go(n, dot', st') => Stops(dot', s[n..][..k - n], st') }
  {
    StepTakesToken(dot, s, st);
    StepWithin(dot, s, st, k);
    var r := Step(dot, s, st);
    if r.Go? {
      assert s[..k][r.n..] == s[r.n..][..k - r.n];
    }
  }

  ghost predicate Exact(dot: bool, s: string, st: State) {
    && (Scan(dot, s, st) == PastEnd <==> Unclosed(s).Some? && !Stops(dot, s[..Unclosed(s).value], st))
    && (Unclosed(s).Some? ==> Scan(dot, s, st) != Accept)
  }

  /** One step further on, the same question. */
  lemma {:induction false} ExactStep(dot: bool, s: string, st: State)
    requires s != "" && Token(s).Some?
    requires match Step(dot, s, st) { case Stop(_) => true case Go(n, dot', st') => Exact(dot', s[n..], st') }
    ensures Exact(dot, s, st)
  {
    StepTakesToken(dot, s, st);
    if Unclosed(s).Some? {
      StopsWithin(dot, s, st, Unclosed(s).value);
    }
  }

  lemma {:induction false} OverrunIff(dot: bool, s: string, st: State)
    ensures Exact(dot, s, st)
    decreases |s|
  {
    if s != "" {
      StepTakesToken(dot, s, st);
      if Token(s).Some? {
        var r := Step(dot, s, st);
        if r.Go? {
          OverrunIff(r.dot, s[r.n..], r.st);
        }
        ExactStep(dot, s, st);
      } else {
        assert s[..0] == "";
      }
    }
  }

  /** For every pattern: the check overruns iff the walk over its tokens meets an unclosed
      class and no step in front of that class stops the scan; and it accepts no such
      pattern. */
  lemma {:induction false} Overruns(pattern: string)
    ensures Scan(false, pattern, INITIAL) == PastEnd <==>
              Unclosed(pattern).Some? && !Stops(false, pattern[..Unclosed(pattern).value], INITIAL)
    ensures Unclosed(pattern).Some? ==> Scan(false, pattern, INITIAL) != Accept
  {
    OverrunIff(false, pattern, INITIAL);
  }
}
