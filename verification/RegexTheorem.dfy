/** The risk scan agrees with the recursive check of the syntax tree. */
module RegexTheorem {
  import opened Bytes
  import opened RegexRisk
  import opened RegexSyntax

  predicate StartsQuantified(s: string) { s != "" && IsQuantifier(s[0]) }

  /** What the recursive check finds in a piece of a pattern. */
  datatype Facts = Facts(risky: bool, depth: nat, quantifier: bool, alternation: bool, total: nat, wild: Wild)

  /** The scan after a stretch with these facts, with `tail` still to come. */
  ghost function Verdict(f: Facts, tail: string, st: State): Outcome {
    if f.risky || |st.groups| + f.depth >= MAX_DEPTH || f.wild.Exceeded? then Reject
    else Scan(f.wild.dot, tail, State(Mark(st.groups, f.quantifier, f.alternation), f.wild.run, st.total + f.total))
  }

  /** The facts of one stretch followed by another; the second's wildcard run starts
      where the first one's ended. */
  ghost function Both(f: Facts, g: Facts): Facts {
    Facts(f.risky || g.risky, Larger(f.depth, g.depth), f.quantifier || g.quantifier,
          f.alternation || g.alternation, f.total + g.total, if f.wild.Exceeded? then Exceeded else g.wild)
  }

  ghost function StateAfter(f: Facts, st: State): State
    requires f.wild.Wild?
  {
    State(Mark(st.groups, f.quantifier, f.alternation), f.wild.run, st.total + f.total)
  }

  lemma {:induction false} MarkTwice(groups: seq<Flags>, q: bool, a: bool, q': bool, a': bool)
    ensures Mark(Mark(groups, q, a), q', a') == Mark(groups, q || q', a || a')
  {
  }

  /** Verdicts compose. */
  lemma {:induction false} Compose(f: Facts, g: Facts, tail: string, st: State)
    requires f.wild.Wild?
    ensures !f.risky && |st.groups| + f.depth < MAX_DEPTH ==>
              Verdict(g, tail, StateAfter(f, st)) == Verdict(Both(f, g), tail, st)
    ensures f.risky || |st.groups| + f.depth >= MAX_DEPTH ==> Verdict(Both(f, g), tail, st) == Reject
  {
    MarkTwice(st.groups, f.quantifier, f.alternation, g.quantifier, g.alternation);
  }

  /** One step that consumes exactly `tok`. */
  lemma {:induction false} Token(dot: bool, tok: string, tail: string, st: State)
    requires tok != ""
    ensures var r := Step(dot, tok + tail, st);
            && (r.Stop? ==> Scan(dot, tok + tail, st) == r.outcome)
            && (r.Go? && r.n == |tok| ==> Scan(dot, tok + tail, st) == Scan(r.dot, tail, r.st))
  {
    assert (tok + tail)[|tok|..] == tail;
  }

  lemma {:induction false} MarkNothing(groups: seq<Flags>)
    ensures Mark(groups, false, false) == groups
  {
  }

  // ----- Quantifiers -----

  lemma {:induction false} StepRepeat(c: char, tail: string, dot: bool, st: State)
    requires IsRepeat(c)
    ensures var wild := if dot then st.wild + 1 else 0;
            Step(dot, [c] + tail, st) ==
              if wild >= MAX_WILDCARDS then Stop(Reject)
              else Go(1, false, State(Mark(st.groups, true, false), wild, st.total + 1))
  {
    var s := [c] + tail;
    assert s[0] == c;
  }

  lemma {:induction false} ScanRepeat(c: char, tail: string, dot: bool, st: State)
    requires IsRepeat(c)
    ensures var wild := if dot then st.wild + 1 else 0;
            Scan(dot, [c] + tail, st) ==
              if wild >= MAX_WILDCARDS then Reject
              else Scan(false, tail, State(Mark(st.groups, true, false), wild, st.total + 1))
  {
    StepRepeat(c, tail, dot, st);
    Token(dot, [c], tail, st);
  }

  lemma {:induction false} ScanInert(c: char, tail: string, dot: bool, st: State)
    requires Ordinary(c) || c == '?'
    ensures Scan(dot, [c] + tail, st) == Scan(false, tail, st.(wild := 0))
  {
    Token(dot, [c], tail, st);
  }

  lemma {:induction false} OrdinaryRun(dot: bool, t: string, tail: string, st: State)
    requires t != "" && forall i :: 0 <= i < |t| ==> Ordinary(t[i])
    ensures Scan(dot, t + tail, st) == Scan(false, tail, st.(wild := 0))
    decreases |t|
  {
    var rest := t[1..];
    assert t + tail == [t[0]] + (rest + tail);
    ScanInert(t[0], rest + tail, dot, st);
    if rest == "" {
      assert rest + tail == tail;
    } else {
      OrdinaryRun(false, rest, tail, st.(wild := 0));
    }
  }

  ghost function QuantFacts(q: Quant, w: Wild): Facts {
    Facts(false, 0, !q.Opt?, false, if q.Opt? then 0 else 1, WildQuant(q, w))
  }

  lemma {:induction false} ScanQuant(q: Quant, tail: string, dot: bool, st: State)
    requires QuantOk(q)
    requires |st.groups| < MAX_DEPTH
    ensures Scan(dot, PrintQuant(q) + tail, st) == Verdict(QuantFacts(q, Wild(dot, st.wild)), tail, st)
  {
    if q.Count? {
      ScanCount(q.text, tail, dot, st);
    } else {
      ScanSimple(q, tail, dot, st);
    }
  }

  lemma {:induction false} OptVerdict(tail: string, w: Wild, st: State)
    requires |st.groups| < MAX_DEPTH && w.Wild?
    ensures Verdict(QuantFacts(Opt, w), tail, st) == Scan(false, tail, st.(wild := 0))
  {
    MarkNothing(st.groups);
    assert st.(wild := 0) == State(Mark(st.groups, false, false), 0, st.total + 0);
  }

  lemma {:induction false} ScanSimple(q: Quant, tail: string, dot: bool, st: State)
    requires !q.Count? && |st.groups| < MAX_DEPTH
    ensures Scan(dot, [QuantChar(q)] + tail, st) == Verdict(QuantFacts(q, Wild(dot, st.wild)), tail, st)
  {
    var c := QuantChar(q);
    if q.Opt? {
      OptVerdict(tail, Wild(dot, st.wild), st);
      ScanInert(c, tail, dot, st);
    } else {
      RepeatVerdict(q, tail, dot, st);
      ScanRepeat(c, tail, dot, st);
    }
  }

  lemma {:induction false} RepeatVerdict(q: Quant, tail: string, dot: bool, st: State)
    requires q.Plus? || q.Star?
    requires |st.groups| < MAX_DEPTH
    ensures var wild := if dot then st.wild + 1 else 0;
            Verdict(QuantFacts(q, Wild(dot, st.wild)), tail, st) ==
              if wild >= MAX_WILDCARDS then Reject
              else Scan(false, tail, State(Mark(st.groups, true, false), wild, st.total + 1))
  {
  }

  lemma {:induction false} CountText(t: string, tail: string)
    ensures PrintQuant(Count(t)) + tail == ['{'] + ((t + ['}']) + tail)
  {
  }

  lemma {:induction false} CountVerdict(t: string, tail: string, dot: bool, st: State)
    requires |st.groups| < MAX_DEPTH
    ensures var wild := if dot then st.wild + 1 else 0;
            Verdict(QuantFacts(Count(t), Wild(dot, st.wild)), tail, st) ==
              if wild >= MAX_WILDCARDS then Reject
              else Scan(false, tail, State(Mark(st.groups, true, false), 0, st.total + 1))
  {
  }

  lemma {:induction false} ScanCount(t: string, tail: string, dot: bool, st: State)
    requires QuantOk(Count(t)) && |st.groups| < MAX_DEPTH
    ensures Scan(dot, PrintQuant(Count(t)) + tail, st) == Verdict(QuantFacts(Count(t), Wild(dot, st.wild)), tail, st)
  {
    var u := t + ['}'];
    var wild := if dot then st.wild + 1 else 0;
    CountText(t, tail);
    ScanRepeat('{', u + tail, dot, st);
    OrdinaryRun(false, u, tail, State(Mark(st.groups, true, false), wild, st.total + 1));
    CountVerdict(t, tail, dot, st);
  }

  ghost function QuantsFacts(qs: seq<Quant>, w: Wild): Facts {
    Facts(false, 0, HasRepeat(qs), false, TotalQuants(qs), WildQuants(qs, w))
  }

  lemma {:induction false} WildQuantsExceeded(qs: seq<Quant>)
    ensures WildQuants(qs, Exceeded) == Exceeded
    decreases |qs|
  {
    if qs != [] {
      WildQuantsExceeded(qs[1..]);
    }
  }

  lemma {:induction false} QuantsSplit(qs: seq<Quant>, w: Wild)
    requires qs != [] && w.Wild?
    ensures QuantsFacts(qs, w) == Both(QuantFacts(qs[0], w), QuantsFacts(qs[1..], WildQuant(qs[0], w)))
  {
    WildQuantsExceeded(qs[1..]);
    assert HasRepeat(qs) <==> !qs[0].Opt? || HasRepeat(qs[1..]) by {
      if i :| 0 <= i < |qs| && !qs[i].Opt? {
        assert i > 0 ==> qs[1..][i - 1] == qs[i];
      }
      if i :| 0 <= i < |qs[1..]| && !qs[1..][i].Opt? {
        assert qs[i + 1] == qs[1..][i];
      }
    }
  }

  lemma {:induction false} ScanQuants(qs: seq<Quant>, tail: string, dot: bool, st: State)
    requires forall i :: 0 <= i < |qs| ==> QuantOk(qs[i])
    requires |st.groups| < MAX_DEPTH
    ensures Scan(dot, PrintQuants(qs) + tail, st) == Verdict(QuantsFacts(qs, Wild(dot, st.wild)), tail, st)
    decreases |qs|
  {
    if qs == [] {
      assert PrintQuants(qs) + tail == tail;
      MarkNothing(st.groups);
    } else {
      var w := Wild(dot, st.wild);
      var f := QuantFacts(qs[0], w);
      var rest := PrintQuants(qs[1..]) + tail;
      Assoc(PrintQuant(qs[0]), PrintQuants(qs[1..]), tail);
      ScanQuant(qs[0], rest, dot, st);
      QuantsSplit(qs, w);
      if f.wild.Wild? {
        var st' := StateAfter(f, st);
        ScanQuants(qs[1..], tail, f.wild.dot, st');
        Compose(f, QuantsFacts(qs[1..], f.wild), tail, st);
      }
    }
  }

  // ----- Character classes -----

  lemma {:induction false} ItemsEnd(s: string, i: nat, items: seq<ClassItem>, tail: string)
    requires i <= |s| && s[i..] == PrintItems(items) + ("]" + tail)
    requires forall k :: 0 <= k < |items| && items[k].Plain? ==> items[k].c != ']' && items[k].c != '\\'
    ensures BodyEnd(s, i) == i + |PrintItems(items)|
    decreases |items|
  {
    if items == [] {
      assert s[i..][0] == ']';
    } else {
      var rest := PrintItems(items[1..]) + ("]" + tail);
      match items[0] {
        case Plain(c) =>
          assert s[i..] == [c] + rest;
          assert s[i] == s[i..][0] == c;
          assert s[i + 1..] == s[i..][1..] == rest;
          ItemsEnd(s, i + 1, items[1..], tail);
        case Pair(c) =>
          assert s[i..] == ['\\', c] + rest;
          assert s[i] == s[i..][0] == '\\';
          assert s[i + 2..] == s[i..][2..] == rest;
          ItemsEnd(s, i + 2, items[1..], tail);
      }
    }
  }

  /** The optional `^` and the optional leading `]` are stepped over. */
  lemma {:induction false} ClassPrefix(s: string, neg: string, lead: string, body: string)
    requires s == "[" + (neg + (lead + body)) && body != ""
    requires (neg == "" || neg == "^") && (lead == "" || lead == "]")
    requires lead == "" ==> body[0] != ']' && (neg == "" ==> body[0] != '^')
    ensures Eat(s, Eat(s, 1, '^'), ']') == 1 + |neg| + |lead|
    ensures s[1 + |neg| + |lead|..] == body
  {
    var rest := lead + body;
    assert neg == "" ==> s[1] == rest[0];
    assert neg != "" ==> s[1] == '^' && s[2] == rest[0];
  }

  lemma {:induction false} ClassIsSkipped(n: bool, l: bool, items: seq<ClassItem>, tail: string)
    requires ClosedClass(n, l, items)
    ensures ClassEnd(PrintAtom(Class(n, l, items)) + tail) == |PrintAtom(Class(n, l, items))| - 1
  {
    var body := PrintItems(items) + ("]" + tail);
    var s := PrintAtom(Class(n, l, items)) + tail;
    var neg := if n then "^" else "";
    var lead := if l then "]" else "";
    assert s == "[" + (neg + (lead + body));
    assert items != [] ==> body[0] == if items[0].Plain? then items[0].c else '\\';
    ClassPrefix(s, neg, lead, body);
    ItemsEnd(s, 1 + |neg| + |lead|, items, tail);
  }

  // ----- Atoms -----

  ghost function AtomFacts(a: Atom, quantified: bool, w: Wild): Facts {
    Facts(RiskyAtom(a, quantified), DepthAtom(a), HasQuantifierAtom(a, quantified), a.Group? && HasAlt(a.re),
          TotalAtom(a), WildAtom(a, w))
  }

  ghost function ConcatFacts(b: Concat, w: Wild): Facts {
    Facts(RiskyConcat(b), DepthConcat(b), HasQuantifierConcat(b), HasAltConcat(b), TotalConcat(b), WildConcat(b, w))
  }

  ghost function RegexFacts(re: Regex, w: Wild): Facts {
    Facts(Risky(re), Depth(re), HasQuantifier(re), HasAlt(re), Total(re), WildRegex(re, w))
  }

  /** The facts of a stretch with no group and no quantifier. */
  ghost function PlainFacts(w: Wild): Facts { Facts(false, 0, false, false, 0, w) }

  lemma {:induction false} PlainVerdict(w: Wild, tail: string, st: State)
    requires |st.groups| < MAX_DEPTH && w.Wild?
    ensures Verdict(PlainFacts(w), tail, st) == Scan(w.dot, tail, st.(wild := w.run))
  {
    MarkNothing(st.groups);
    assert st.(wild := w.run) == State(Mark(st.groups, false, false), w.run, st.total + 0);
  }

  lemma {:induction false} ScanSimpleAtom(a: Atom, tail: string, dot: bool, st: State)
    requires OkAtom(a) && !a.Group? && |st.groups| < MAX_DEPTH
    ensures var w := WildAtom(a, Wild(dot, st.wild));
            Scan(dot, PrintAtom(a) + tail, st) == Scan(w.dot, tail, st.(wild := w.run))
  {
    match a {
      case Lit(c) => ScanInert(c, tail, dot, st);
      case Any => Token(dot, ['.'], tail, st);
      case Escaped(c) => Token(dot, ['\\', c], tail, st);
      case Class(n, l, items) =>
        ClassIsSkipped(n, l, items, tail);
        Token(dot, PrintAtom(a), tail, st);
    }
  }

  lemma {:induction false} OpenGroup(rest: string, dot: bool, st: State)
    ensures Scan(dot, "(" + rest, st) ==
              if |st.groups| + 1 >= MAX_DEPTH then Reject
              else Scan(false, rest, State(st.groups + [Flags(false, false)], 0, st.total))
  {
    Token(dot, "(", rest, st);
  }

  lemma {:induction false} CloseGroupScan(groups: seq<Flags>, top: Flags, tail: string, dot: bool, wild: nat, total: nat)
    ensures var quantified := StartsQuantified(tail);
            Scan(dot, ")" + tail, State(groups + [top], wild, total)) ==
              if quantified && (top.quantifier || top.alternation) then Reject
              else Scan(false, tail, State(Mark(groups, top.quantifier || quantified, top.alternation), 0, total))
  {
    var st := State(groups + [top], wild, total);
    assert st.groups[..|groups|] == groups && st.groups[|groups|] == top;
    assert tail != "" ==> (")" + tail)[1] == tail[0];
    Token(dot, ")", tail, st);
  }

  /** A group whose contents have facts `f`, closed and perhaps quantified. */
  ghost function GroupFacts(f: Facts, quantified: bool): Facts {
    Facts(f.risky || (quantified && (f.quantifier || f.alternation)), 1 + f.depth, f.quantifier || quantified,
          f.alternation, f.total, if f.wild.Exceeded? then Exceeded else Wild(false, 0))
  }

  /** Closing a group turns the verdict on its contents into the verdict on it. */
  lemma {:induction false} GroupVerdict(f: Facts, tail: string, st: State)
    requires |st.groups| + 1 < MAX_DEPTH
    ensures Verdict(f, ")" + tail, State(st.groups + [Flags(false, false)], 0, st.total))
         == Verdict(GroupFacts(f, StartsQuantified(tail)), tail, st)
  {
    if !f.wild.Exceeded? {
      var top := Flags(f.quantifier, f.alternation);
      assert Mark(st.groups + [Flags(false, false)], f.quantifier, f.alternation) == st.groups + [top];
      CloseGroupScan(st.groups, top, tail, f.wild.dot, f.wild.run, st.total + f.total);
    }
  }

  lemma {:induction false} ScanGroup(re: Regex, tail: string, dot: bool, st: State)
    requires Ok(re) && |st.groups| < MAX_DEPTH
    ensures Scan(dot, "(" + (Print(re) + (")" + tail)), st)
         == Verdict(GroupFacts(RegexFacts(re, Wild(false, 0)), StartsQuantified(tail)), tail, st)
    decreases re, 4
  {
    OpenGroup(Print(re) + (")" + tail), dot, st);
    if |st.groups| + 1 < MAX_DEPTH {
      ScanRegex(re, ")" + tail, false, State(st.groups + [Flags(false, false)], 0, st.total));
      GroupVerdict(RegexFacts(re, Wild(false, 0)), tail, st);
    }
  }

  lemma {:induction false} ScanAtom(a: Atom, tail: string, dot: bool, st: State)
    requires OkAtom(a) && |st.groups| < MAX_DEPTH
    ensures Scan(dot, PrintAtom(a) + tail, st) == Verdict(AtomFacts(a, StartsQuantified(tail), Wild(dot, st.wild)), tail, st)
    decreases a, 0
  {
    var w := Wild(dot, st.wild);
    if a.Group? {
      assert PrintAtom(a) + tail == "(" + (Print(a.re) + (")" + tail));
      ScanGroup(a.re, tail, dot, st);
      assert AtomFacts(a, StartsQuantified(tail), w) == GroupFacts(RegexFacts(a.re, Wild(false, 0)), StartsQuantified(tail));
    } else {
      ScanSimpleAtom(a, tail, dot, st);
      PlainVerdict(WildAtom(a, w), tail, st);
    }
  }

  // ----- Branches and whole patterns -----

  lemma {:induction false} AtomStart(a: Atom, tail: string)
    requires OkAtom(a)
    ensures PrintAtom(a) != "" && !StartsQuantified(PrintAtom(a) + tail)
  {
    match a {
      case Lit(c) =>
      case Any =>
      case Escaped(c) =>
      case Class(n, l, items) => assert PrintAtom(a)[0] == '[';
      case Group(re) => assert PrintAtom(a)[0] == '(';
    }
  }

  lemma {:induction false} ConcatStart(b: Concat, tail: string)
    requires OkConcat(b) && !StartsQuantified(tail)
    ensures !StartsQuantified(PrintConcat(b) + tail)
  {
    if b.Piece? {
      AtomStart(b.atom, PrintQuants(b.quants) + PrintConcat(b.rest) + tail);
      assert PrintConcat(b) + tail == PrintAtom(b.atom) + (PrintQuants(b.quants) + PrintConcat(b.rest) + tail);
    } else {
      assert PrintConcat(b) + tail == tail;
    }
  }

  lemma {:induction false} QuantsStart(qs: seq<Quant>, tail: string)
    requires !StartsQuantified(tail)
    ensures StartsQuantified(PrintQuants(qs) + tail) == (qs != [])
  {
    if qs == [] {
      assert PrintQuants(qs) + tail == tail;
    } else {
      assert (PrintQuants(qs) + tail)[0] == QuantChar(qs[0]);
    }
  }

  lemma {:induction false} WildExceeded(b: Concat)
    ensures WildConcat(b, Exceeded) == Exceeded
  {
    if b.Piece? {
      WildQuantsExceeded(b.quants);
      WildExceeded(b.rest);
    }
  }

  lemma {:induction false} WildExceededRegex(re: Regex)
    ensures WildRegex(re, Exceeded) == Exceeded
  {
    WildExceeded(re.branch);
    if re.Alt? {
      WildExceededRegex(re.rest);
    }
  }

  /** What follows an atom: its quantifiers and the rest of the branch. */
  ghost function AfterAtom(b: Concat, w: Wild): Facts
    requires b.Piece?
  {
    Both(QuantsFacts(b.quants, w), ConcatFacts(b.rest, WildQuants(b.quants, w)))
  }

  lemma {:induction false} WildSplit(b: Concat, w: Wild)
    requires b.Piece?
    ensures var w1 := WildAtom(b.atom, w); var w2 := WildQuants(b.quants, w1);
            WildConcat(b, w) == if w1.Exceeded? || w2.Exceeded? then Exceeded else WildConcat(b.rest, w2)
  {
    WildQuantsExceeded(b.quants);
    WildExceeded(b.rest);
  }

  lemma {:induction false} RiskSplit(b: Concat)
    requires b.Piece?
    ensures RiskyConcat(b) == (RiskyAtom(b.atom, b.quants != []) || RiskyConcat(b.rest))
    ensures DepthConcat(b) == Larger(DepthAtom(b.atom), DepthConcat(b.rest))
    ensures TotalConcat(b) == TotalAtom(b.atom) + (TotalQuants(b.quants) + TotalConcat(b.rest))
  {
  }

  lemma {:induction false} FlagSplit(b: Concat)
    requires b.Piece?
    ensures HasAltConcat(b) == ((b.atom.Group? && HasAlt(b.atom.re)) || HasAltConcat(b.rest))
    ensures HasQuantifierConcat(b) ==
              (HasQuantifierAtom(b.atom, b.quants != []) || (HasRepeat(b.quants) || HasQuantifierConcat(b.rest)))
  {
  }

  lemma {:induction false} ConcatSplit(b: Concat, w: Wild)
    requires b.Piece? && w.Wild?
    ensures ConcatFacts(b, w) == Both(AtomFacts(b.atom, b.quants != [], w), AfterAtom(b, WildAtom(b.atom, w)))
  {
    WildSplit(b, w);
    RiskSplit(b);
    FlagSplit(b);
  }

  /** Two stretches in a row. */
  lemma {:induction false} Sequence(f: Facts, g: Facts, mid: string, tail: string, st: State)
    requires f.wild.Wild? ==> Scan(f.wild.dot, mid, StateAfter(f, st)) == Verdict(g, tail, StateAfter(f, st))
    ensures Verdict(f, mid, st) == Verdict(Both(f, g), tail, st)
  {
    if f.wild.Wild? {
      Compose(f, g, tail, st);
    }
  }

  lemma {:induction false} ScanAfterAtom(b: Concat, tail: string, dot: bool, st: State)
    requires b.Piece? && OkConcat(b) && |st.groups| < MAX_DEPTH && !StartsQuantified(tail)
    ensures Scan(dot, PrintQuants(b.quants) + (PrintConcat(b.rest) + tail), st) ==
              Verdict(AfterAtom(b, Wild(dot, st.wild)), tail, st)
    decreases b, 0
  {
    var g := QuantsFacts(b.quants, Wild(dot, st.wild));
    var rest := PrintConcat(b.rest) + tail;
    ScanQuants(b.quants, rest, dot, st);
    if g.wild.Wild? {
      ScanConcat(b.rest, tail, g.wild.dot, StateAfter(g, st));
    }
    Sequence(g, ConcatFacts(b.rest, g.wild), rest, tail, st);
  }

  lemma {:induction false} PieceText(b: Concat, tail: string)
    requires b.Piece?
    ensures PrintConcat(b) + tail == PrintAtom(b.atom) + (PrintQuants(b.quants) + (PrintConcat(b.rest) + tail))
  {
  }

  /** An atom and what follows it, once the scan of what follows is known. */
  lemma {:induction false} ScanPiece(b: Concat, mid: string, tail: string, dot: bool, st: State)
    requires b.Piece? && OkConcat(b) && |st.groups| < MAX_DEPTH && StartsQuantified(mid) == (b.quants != [])
    requires var f := AtomFacts(b.atom, b.quants != [], Wild(dot, st.wild));
             f.wild.Wild? ==> Scan(f.wild.dot, mid, StateAfter(f, st)) == Verdict(AfterAtom(b, f.wild), tail, StateAfter(f, st))
    ensures Scan(dot, PrintAtom(b.atom) + mid, st) == Verdict(ConcatFacts(b, Wild(dot, st.wild)), tail, st)
    decreases b, 1
  {
    var w := Wild(dot, st.wild);
    var f := AtomFacts(b.atom, b.quants != [], w);
    ScanAtom(b.atom, mid, dot, st);
    Sequence(f, AfterAtom(b, f.wild), mid, tail, st);
    ConcatSplit(b, w);
  }

  lemma {:induction false} ScanConcat(b: Concat, tail: string, dot: bool, st: State)
    requires OkConcat(b) && |st.groups| < MAX_DEPTH && !StartsQuantified(tail)
    ensures Scan(dot, PrintConcat(b) + tail, st) == Verdict(ConcatFacts(b, Wild(dot, st.wild)), tail, st)
    decreases b, 2
  {
    var w := Wild(dot, st.wild);
    if b.Eps? {
      assert PrintConcat(b) + tail == tail;
      PlainVerdict(w, tail, st);
    } else {
      var rest := PrintConcat(b.rest) + tail;
      ConcatStart(b.rest, tail);
      QuantsStart(b.quants, rest);
      var f := AtomFacts(b.atom, b.quants != [], w);
      if f.wild.Wild? {
        ScanAfterAtom(b, tail, f.wild.dot, StateAfter(f, st));
      }
      ScanPiece(b, PrintQuants(b.quants) + rest, tail, dot, st);
      PieceText(b, tail);
    }
  }

  /** A bar between two branches. */
  ghost function BarFacts(): Facts { Facts(false, 0, false, true, 0, Wild(false, 0)) }

  lemma {:induction false} ScanBar(rest: string, dot: bool, st: State)
    requires |st.groups| < MAX_DEPTH
    ensures Scan(dot, "|" + rest, st) == Verdict(BarFacts(), rest, st)
  {
    Token(dot, "|", rest, st);
  }

  lemma {:induction false} RegexSplit(re: Regex, w: Wild)
    requires re.Alt? && w.Wild?
    ensures RegexFacts(re, w) == Both(ConcatFacts(re.branch, w), Both(BarFacts(), RegexFacts(re.rest, Wild(false, 0))))
  {
    WildExceededRegex(re.rest);
  }

  lemma {:induction false} ScanRegex(re: Regex, tail: string, dot: bool, st: State)
    requires Ok(re) && |st.groups| < MAX_DEPTH && !StartsQuantified(tail)
    ensures Scan(dot, Print(re) + tail, st) == Verdict(RegexFacts(re, Wild(dot, st.wild)), tail, st)
    decreases re, 3
  {
    var w := Wild(dot, st.wild);
    match re {
      case Last(b) => ScanConcat(b, tail, dot, st);
      case Alt(b, r) =>
        var rest := Print(r) + tail;
        var mid := "|" + rest;
        assert Print(re) + tail == PrintConcat(b) + mid;
        ScanConcat(b, mid, dot, st);
        var f, g, h := ConcatFacts(b, w), BarFacts(), RegexFacts(r, Wild(false, 0));
        if f.wild.Wild? {
          var st' := StateAfter(f, st);
          ScanBar(rest, f.wild.dot, st');
          ScanRegex(r, tail, false, StateAfter(g, st'));
          Sequence(g, h, rest, tail, st');
        }
        Sequence(f, Both(g, h), mid, tail, st);
        RegexSplit(re, w);
    }
  }

  /** The scan accepts a printed pattern exactly when the tree is free of risk and
      within the limits, and it always ends inside the pattern. */
  lemma {:induction false} ScanIsRecursiveCheck(re: Regex)
    requires Ok(re)
    ensures Scan(false, Print(re), INITIAL) == Accept <==>
              !Risky(re) && Depth(re) < MAX_DEPTH && Total(re) <= MAX_QUANTIFIERS && !WildRegex(re, Wild(false, 0)).Exceeded?
    ensures Scan(false, Print(re), INITIAL) != PastEnd
  {
    ScanRegex(re, "", false, INITIAL);
    assert Print(re) + "" == Print(re);
  }

  // ----- Classes that are never closed -----

  /** A pattern that ends in an unclosed class: `before` are the well-formed parts
      between the groups still open in front of it. */
  function PrintOpen(before: seq<Regex>, body: string): string
    requires before != []
  {
    if |before| == 1 then Print(before[0]) + ("[" + body)
    else Print(before[0]) + ("(" + PrintOpen(before[1..], body))
  }

  /** Nothing in front of the class makes the scan stop early. */
  predicate ReachesClass(before: seq<Regex>, depth: nat, w: Wild)
    requires before != []
  {
    && !Risky(before[0]) && depth + Depth(before[0]) < MAX_DEPTH && !WildRegex(before[0], w).Exceeded?
    && (|before| > 1 ==> depth + 1 < MAX_DEPTH && ReachesClass(before[1..], depth + 1, Wild(false, 0)))
  }

  /** No bracket closes the class that `body` is in. */
  predicate NeverClosed(body: string) { ClassEnd("[" + body) == |body| + 1 }

  lemma {:induction false} ScanOpenClass(body: string, dot: bool, st: State)
    requires NeverClosed(body)
    ensures Scan(dot, "[" + body, st) == PastEnd
  {
    var s := "[" + body;
    assert s[0] == '[' && |s| == |body| + 1;
  }

  predicate Stops(f: Facts, depth: nat) { f.risky || depth + f.depth >= MAX_DEPTH || f.wild.Exceeded? }

  /** The scan of a tree and of what follows it. */
  lemma {:induction false} ScanThen(re: Regex, rest: string, dot: bool, st: State, outcome: Outcome)
    requires Ok(re) && |st.groups| < MAX_DEPTH && !StartsQuantified(rest)
    requires var f := RegexFacts(re, Wild(dot, st.wild));
             f.wild.Wild? ==> Scan(f.wild.dot, rest, StateAfter(f, st)) == outcome
    ensures Scan(dot, Print(re) + rest, st) == if Stops(RegexFacts(re, Wild(dot, st.wild)), |st.groups|) then Reject else outcome
  {
    ScanRegex(re, rest, dot, st);
  }

  lemma {:induction false} ScanOpen(before: seq<Regex>, body: string, dot: bool, st: State)
    requires before != [] && (forall i :: 0 <= i < |before| ==> Ok(before[i])) && NeverClosed(body)
    requires |st.groups| < MAX_DEPTH
    ensures Scan(dot, PrintOpen(before, body), st) ==
              if ReachesClass(before, |st.groups|, Wild(dot, st.wild)) then PastEnd else Reject
    decreases |before|, 0
  {
    var f := RegexFacts(before[0], Wild(dot, st.wild));
    var depth := |st.groups|;
    assert ReachesClass(before, depth, Wild(dot, st.wild)) <==>
             && !Stops(f, depth)
             && (|before| > 1 ==> depth + 1 < MAX_DEPTH && ReachesClass(before[1..], depth + 1, Wild(false, 0)));
    if |before| == 1 {
      if f.wild.Wild? {
        ScanOpenClass(body, f.wild.dot, StateAfter(f, st));
      }
      ScanThen(before[0], "[" + body, dot, st, PastEnd);
    } else {
      var outcome := if depth + 1 < MAX_DEPTH && ReachesClass(before[1..], depth + 1, Wild(false, 0)) then PastEnd else Reject;
      if f.wild.Wild? {
        ScanNested(before[1..], body, f.wild.dot, StateAfter(f, st));
      }
      ScanThen(before[0], "(" + PrintOpen(before[1..], body), dot, st, outcome);
    }
  }

  lemma {:induction false} ScanNested(before: seq<Regex>, body: string, dot: bool, st: State)
    requires before != [] && (forall i :: 0 <= i < |before| ==> Ok(before[i])) && NeverClosed(body)
    requires |st.groups| < MAX_DEPTH
    ensures Scan(dot, "(" + PrintOpen(before, body), st) ==
              if |st.groups| + 1 < MAX_DEPTH && ReachesClass(before, |st.groups| + 1, Wild(false, 0)) then PastEnd else Reject
    decreases |before|, 1
  {
    OpenGroup(PrintOpen(before, body), dot, st);
    if |st.groups| + 1 < MAX_DEPTH {
      ScanOpen(before, body, false, State(st.groups + [Flags(false, false)], 0, st.total));
    }
  }

  /** The scan steps over the end of the pattern exactly when an unclosed class is
      reached, and otherwise it rejects. */
  lemma {:induction false} UnclosedClassOverruns(before: seq<Regex>, body: string)
    requires before != [] && (forall i :: 0 <= i < |before| ==> Ok(before[i])) && NeverClosed(body)
    ensures Scan(false, PrintOpen(before, body), INITIAL) == PastEnd <==> ReachesClass(before, 0, Wild(false, 0))
    ensures Scan(false, PrintOpen(before, body), INITIAL) != Accept
  {
    ScanOpen(before, body, false, INITIAL);
  }

  /** The shortest such patterns: an open bracket at the end, or followed by a letter. */
  lemma {:induction false} OverrunExample()
    ensures Scan(false, "[", INITIAL) == PastEnd && Scan(false, "[a", INITIAL) == PastEnd
  {
    var nothing := Last(Eps);
    assert Print(nothing) + ("[" + "") == "[" && Print(nothing) + ("[" + "a") == "[a";
    assert OkConcat(Eps) && Ok(nothing) && !RiskyConcat(Eps) && !Risky(nothing);
    UnclosedClassOverruns([nothing], "");
    UnclosedClassOverruns([nothing], "a");
  }

  /** `n` redundant pairs of parentheses around a pattern. */
  function Wrapped(re: Regex, n: nat): Regex {
    if n == 0 then re else Last(Piece(Group(Wrapped(re, n - 1)), [], Eps))
  }

  lemma {:induction false} WrappedFacts(re: Regex, n: nat)
    ensures HasAlt(Wrapped(re, n)) == HasAlt(re) && HasQuantifier(Wrapped(re, n)) == HasQuantifier(re)
    ensures Risky(Wrapped(re, n)) == Risky(re) && (Ok(re) ==> Ok(Wrapped(re, n)))
  {
    if n > 0 {
      WrappedFacts(re, n - 1);
      var b := Wrapped(re, n).branch;
      assert !HasAltConcat(b.rest) && !HasQuantifierConcat(b.rest) && !RiskyConcat(b.rest) && OkConcat(b.rest);
      assert RiskyConcat(b) == RiskyAtom(b.atom, false) == Risky(b.atom.re);
      assert HasQuantifierConcat(b) == HasQuantifierAtom(b.atom, false) == HasQuantifier(b.atom.re);
    }
  }

  /** Redundant parentheses never hide a quantified group with an alternation or a
      quantifier inside. */
  lemma {:induction false} ParenthesesHideNothing(re: Regex, n: nat, q: Quant)
    requires Ok(re) && QuantOk(q) && (HasAlt(re) || HasQuantifier(re))
    ensures Scan(false, Print(Last(Piece(Group(Wrapped(re, n)), [q], Eps))), INITIAL) == Reject
  {
    WrappedFacts(re, n);
    var whole := Last(Piece(Group(Wrapped(re, n)), [q], Eps));
    assert RiskyAtom(whole.branch.atom, true);
    assert OkConcat(Eps) && OkConcat(whole.branch);
    ScanIsRecursiveCheck(whole);
  }
}
