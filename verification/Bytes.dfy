/** Bytes and byte streams shared by every component. */
module Bytes {

  type Byte = b: int | 0 <= b < 256

  const NEWLINE: Byte := 10

  datatype Option<+T> = None | Some(value: T)

  function Min(a: nat, b: nat): (m: nat)
    ensures m <= a && m <= b && (m == a || m == b)
  {
    if a < b then a else b
  }

  function Max(a: nat, b: nat): (m: nat)
    ensures a <= m && b <= m && (m == a || m == b)
  {
    if a < b then b else a
  }

  /** Names and ids are kept in fields of 64 bytes with a terminator. */
  const FIELD_MAX := 63

  /** A name or id that fits its field. */
  type Fitting = s: string | |s| <= FIELD_MAX

  /** A name or id as it is stored: cut to what its field holds. */
  function Cut(text: string): (s: string)
    ensures |s| <= FIELD_MAX && (s == text <==> |text| <= FIELD_MAX)
    ensures s <= text && (|text| > 63 ==> |s| == 63)
  {
    text[..Min(|text|, FIELD_MAX)]
  }

  /** The last `n` elements, or everything when there are fewer. */
  function Suffix<T>(s: seq<T>, n: nat): seq<T> { s[|s| - Min(n, |s|)..] }

  /** Sliding a window of at most `cap` elements over new data. */
  lemma {:induction false} SuffixSlides<T>(s: seq<T>, more: seq<T>, cap: nat)
    requires |more| <= cap
    ensures Suffix(s, cap - |more|) + more == Suffix(s + more, cap)
  {
  }

  lemma {:induction false} SuffixOfSuffix<T>(s: seq<T>, small: nat, big: nat)
    requires small <= big
    ensures Suffix(Suffix(s, big), small) == Suffix(s, small)
  {
  }

  /** Looking back into a window sees the same as looking back into the stream. */
  lemma {:induction false} SuffixTail<T>(s: seq<T>, more: seq<T>, kept: nat, back: nat)
    requires back <= kept <= |s|
    ensures (Suffix(s, kept) + more)[kept - back..] == s[|s| - back..] + more
  {
  }

  function Concat<T>(parts: seq<seq<T>>): seq<T> {
    if parts == [] then [] else parts[0] + Concat(parts[1..])
  }

  lemma {:induction false} Assoc<T>(a: seq<T>, b: seq<T>, c: seq<T>)
    ensures a + (b + c) == (a + b) + c
  {
  }

  lemma {:induction false} ConcatAppend<T>(a: seq<seq<T>>, b: seq<seq<T>>)
    ensures Concat(a + b) == Concat(a) + Concat(b)
  {
    if a == [] {
      assert a + b == b;
    } else {
      calc {
        Concat(a + b);
        { assert (a + b)[1..] == a[1..] + b; }
        a[0] + Concat(a[1..] + b);
        { ConcatAppend(a[1..], b); }
        a[0] + (Concat(a[1..]) + Concat(b));
        { Assoc(a[0], Concat(a[1..]), Concat(b)); }
        Concat(a) + Concat(b);
      }
    }
  }

  lemma {:induction false} ConcatSnoc<T>(parts: seq<seq<T>>, p: seq<T>)
    ensures Concat(parts + [p]) == Concat(parts) + p
  {
    ConcatAppend(parts, [p]);
    assert [p][1..] == [];
  }
}
