/** Searching device output. A compiled pattern is modelled by the words it
    matches; a search reports the leftmost occurrence. */
module Patterns {
  import opened Bytes

  type Pattern = set<seq<Byte>>

  /** How far before new data the incremental matchers look back. */
  const LOOKBACK := 256

  predicate WordAt(w: seq<Byte>, s: seq<Byte>, i: nat) {
    i + |w| <= |s| && s[i..i + |w|] == w
  }

  predicate OccursAt(p: Pattern, s: seq<Byte>, i: nat) {
    exists w :: w in p && WordAt(w, s, i)
  }

  /** Some word of the pattern occurs somewhere in `s`. */
  ghost predicate Matches(p: Pattern, s: seq<Byte>) {
    exists i: nat :: i <= |s| && OccursAt(p, s, i)
  }

  /** Words that a look-back of 256 bytes is enough to complete. */
  ghost predicate Short(p: Pattern) {
    forall w :: w in p ==> 1 <= |w| <= LOOKBACK + 1
  }

  /** The leftmost occurrence at or after `from`. */
  function Search(p: Pattern, s: seq<Byte>, from: nat): (r: Option<nat>)
    ensures r.Some? ==> from <= r.value <= |s| && OccursAt(p, s, r.value)
    ensures r.Some? ==> forall i: nat :: from <= i < r.value ==> !OccursAt(p, s, i)
    ensures r.None? ==> forall i: nat :: from <= i <= |s| ==> !OccursAt(p, s, i)
    decreases |s| + 1 - from
  {
    if from > |s| then None
    else if OccursAt(p, s, from) then Some(from)
    else Search(p, s, from + 1)
  }

  function Exec(p: Pattern, s: seq<Byte>): (r: Option<nat>)
    ensures r.Some? <==> Matches(p, s)
    ensures r.Some? ==> r.value <= |s| && OccursAt(p, s, r.value)
    ensures r.Some? ==> forall i: nat :: i < r.value ==> !OccursAt(p, s, i)
  {
    Search(p, s, 0)
  }

  /** An occurrence stays one when text is put around it. */
  lemma {:induction false} OccursInside(p: Pattern, a: seq<Byte>, s: seq<Byte>, b: seq<Byte>, i: nat)
    requires OccursAt(p, s, i)
    ensures OccursAt(p, a + s + b, |a| + i)
    ensures Matches(p, a + s + b)
  {
    var w :| w in p && WordAt(w, s, i);
    var t := a + s + b;
    assert t[|a| + i..|a| + i + |w|] == s[i..i + |w|];
    assert WordAt(w, t, |a| + i);
  }

  lemma {:induction false} MatchesSuffix(p: Pattern, a: seq<Byte>, s: seq<Byte>)
    requires Matches(p, s)
    ensures Matches(p, a + s)
  {
    var i: nat :| i <= |s| && OccursAt(p, s, i);
    OccursInside(p, a, s, [], i);
    assert a + s + [] == a + s;
  }

  lemma {:induction false} MatchesPrefix(p: Pattern, s: seq<Byte>, b: seq<Byte>)
    requires Matches(p, s)
    ensures Matches(p, s + b)
  {
    var i: nat :| i <= |s| && OccursAt(p, s, i);
    OccursInside(p, [], s, b, i);
    assert [] + s + b == s + b;
  }

  lemma {:induction false} WordWithin(w: seq<Byte>, s: seq<Byte>, more: seq<Byte>, i: nat)
    requires WordAt(w, s + more, i)
    ensures i + |w| <= |s| ==> WordAt(w, s, i)
  {
    if i + |w| <= |s| {
      assert s[i..i + |w|] == (s + more)[i..i + |w|];
    }
  }

  lemma {:induction false} WordBeyond(w: seq<Byte>, a: seq<Byte>, s: seq<Byte>, i: nat)
    requires WordAt(w, a + s, i)
    ensures |a| <= i ==> WordAt(w, s, i - |a|)
  {
    if |a| <= i {
      assert s[i - |a|..i - |a| + |w|] == (a + s)[i..i + |w|];
    }
  }

  /** What is new after an unmatched stream lies within the look-back: rescanning
      `back` old bytes is as good as rescanning everything. */
  lemma {:induction false} Lookback(p: Pattern, s: seq<Byte>, more: seq<Byte>, back: nat)
    requires Short(p) && !Matches(p, s)
    requires back <= |s| && (back == |s| || back >= LOOKBACK)
    ensures Matches(p, s + more) <==> Matches(p, s[|s| - back..] + more)
  {
    var cut := |s| - back;
    var region := s[cut..] + more;
    assert s + more == s[..cut] + region;
    if Matches(p, region) {
      MatchesSuffix(p, s[..cut], region);
    }
    if Matches(p, s + more) {
      var i: nat :| i <= |s + more| && OccursAt(p, s + more, i);
      var w :| w in p && WordAt(w, s + more, i);
      WordWithin(w, s, more, i);
      assert !OccursAt(p, s, i);
      WordBeyond(w, s[..cut], region, i);
      assert OccursAt(p, region, i - cut);
    }
  }

  /** A text shorter than every word cannot match. */
  lemma {:induction false} TooShort(p: Pattern, s: seq<Byte>)
    requires forall w :: w in p ==> |s| < |w|
    ensures !Matches(p, s)
  {
  }
}
