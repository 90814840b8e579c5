/** History requests served from the ring (src/broker.c): a cursor read picks a
    page, copies it, and encodes it a few chunks per event-loop turn while device
    output goes on being appended.

    The promise to a client that keeps passing the returned cursor back: what it
    receives is the append log from its start to its last cursor, with exactly
    the reported `dropped` ranges cut out. */
module History {
  import opened Bytes
  import opened RingBuffer

  const MAX_RESPONSE_BYTES := 524288
  const ENCODE_MAX_CHUNKS := 4
  const ENCODE_MAX_BYTES := 32768

  /** One encoded element of a response, labelled with its position. */
  datatype Piece = Piece(data: seq<Byte>, timestamp: real, seqStart: nat) {
    function End(): nat { seqStart + |data| }
  }

  datatype Reply = Reply(pieces: seq<Piece>, cursor: nat, dropped: nat, hasMore: bool) {
    function Metadata(): (nat, nat, bool) { (cursor, dropped, hasMore) }
  }

  function Payload(ps: seq<Piece>): seq<Byte> {
    if ps == [] then [] else ps[0].data + Payload(ps[1..])
  }

  /** Nonempty pieces, labelled with their true log positions, that run from `lo`
      to `hi` without gap or overlap. */
  ghost predicate Spans(ps: seq<Piece>, log: seq<Byte>, lo: nat, hi: nat) {
    if ps == [] then
      lo == hi
    else
      var last := ps[|ps| - 1];
      && last.data != []
      && last.End() == hi <= |log|
      && last.data == log[last.seqStart..hi]
      && Spans(ps[..|ps| - 1], log, lo, last.seqStart)
  }

  lemma {:induction false} PayloadAppend(a: seq<Piece>, b: seq<Piece>)
    ensures Payload(a + b) == Payload(a) + Payload(b)
  {
    if a == [] {
      assert a + b == b;
    } else {
      calc {
        Payload(a + b);
        { assert (a + b)[1..] == a[1..] + b; }
        a[0].data + Payload(a[1..] + b);
        { PayloadAppend(a[1..], b); }
        a[0].data + (Payload(a[1..]) + Payload(b));
        { Assoc(a[0].data, Payload(a[1..]), Payload(b)); }
        Payload(a) + Payload(b);
      }
    }
  }

  lemma {:induction false} SpansPayload(ps: seq<Piece>, log: seq<Byte>, lo: nat, hi: nat)
    requires Spans(ps, log, lo, hi) && hi <= |log|
    ensures lo <= hi && Payload(ps) == log[lo..hi]
    decreases |ps|
  {
    if ps != [] {
      var n := |ps| - 1;
      var last := ps[n];
      SpansPayload(ps[..n], log, lo, last.seqStart);
      PayloadAppend(ps[..n], [last]);
      assert ps == ps[..n] + [last] && Payload([last]) == last.data;
      JoinSlices(log, lo, last.seqStart, hi);
    }
  }

  lemma {:induction false} SpansGrows(ps: seq<Piece>, log: seq<Byte>, more: seq<Byte>, lo: nat, hi: nat)
    requires Spans(ps, log, lo, hi)
    ensures Spans(ps, log + more, lo, hi)
    decreases |ps|
  {
    if ps != [] {
      var last := ps[|ps| - 1];
      SpansGrows(ps[..|ps| - 1], log, more, lo, last.seqStart);
      assert (log + more)[last.seqStart..hi] == log[last.seqStart..hi];
    }
  }

  /** A reply to `since` is faithful to the log when its pieces are the log from
      just after the dropped range up to the cursor. */
  ghost predicate Faithful(r: Reply, log: seq<Byte>, since: nat) {
    && since + r.dropped <= r.cursor <= |log|
    && Spans(r.pieces, log, since + r.dropped, r.cursor)
  }

  /** Replies received in order, each to a request for the previous reply's cursor. */
  ghost predicate Session(rs: seq<Reply>, log: seq<Byte>, start: nat) {
    rs != [] ==> Faithful(rs[0], log, start) && Session(rs[1..], log, rs[0].cursor)
  }

  function LastCursor(rs: seq<Reply>, start: nat): nat {
    if rs == [] then start else LastCursor(rs[1..], rs[0].cursor)
  }

  function Received(rs: seq<Reply>): seq<Byte> {
    if rs == [] then [] else Payload(rs[0].pieces) + Received(rs[1..])
  }

  /** The ranges the replies reported as dropped. */
  function Gaps(rs: seq<Reply>, start: nat): seq<(nat, nat)> {
    if rs == [] then []
    else (if rs[0].dropped > 0 then [(start, start + rs[0].dropped)] else []) + Gaps(rs[1..], rs[0].cursor)
  }

  /** Ranges in increasing order, all within `from..to`. */
  ghost predicate Within(gaps: seq<(nat, nat)>, from: nat, to: nat) {
    if gaps == [] then from <= to
    else from <= gaps[0].0 < gaps[0].1 && Within(gaps[1..], gaps[0].1, to)
  }

  /** The log from `from` to `to` with the given ranges cut out. */
  ghost function Excise(log: seq<Byte>, from: nat, to: nat, gaps: seq<(nat, nat)>): seq<Byte>
    requires to <= |log| && Within(gaps, from, to)
    decreases |gaps|
  {
    if gaps == [] then log[from..to]
    else
      InRange(gaps, from, to);
      log[from..gaps[0].0] + Excise(log, gaps[0].1, to, gaps[1..])
  }

  lemma {:induction false} InRange(gaps: seq<(nat, nat)>, from: nat, to: nat)
    requires Within(gaps, from, to)
    ensures from <= to
    ensures gaps != [] ==> gaps[0].1 <= to
    decreases |gaps|
  {
    if gaps != [] {
      InRange(gaps[1..], gaps[0].1, to);
    }
  }

  /** Undropped bytes in front of the first gap are kept. */
  lemma {:induction false} ExcisePrefix(log: seq<Byte>, from: nat, mid: nat, to: nat, gaps: seq<(nat, nat)>)
    requires to <= |log| && from <= mid && Within(gaps, mid, to)
    ensures Within(gaps, from, to) && mid <= to
    ensures Excise(log, from, to, gaps) == log[from..mid] + Excise(log, mid, to, gaps)
  {
    InRange(gaps, mid, to);
    if gaps == [] {
      JoinSlices(log, from, mid, to);
    } else {
      JoinSlices(log, from, mid, gaps[0].0);
      Assoc(log[from..mid], log[mid..gaps[0].0], Excise(log, gaps[0].1, to, gaps[1..]));
    }
  }

  lemma {:induction false} LeadingGap(log: seq<Byte>, from: nat, upto: nat, to: nat, gaps: seq<(nat, nat)>)
    requires to <= |log| && from < upto && Within(gaps, upto, to)
    ensures Within([(from, upto)] + gaps, from, to)
    ensures Excise(log, from, to, [(from, upto)] + gaps) == Excise(log, upto, to, gaps)
  {
    var all := [(from, upto)] + gaps;
    assert all[1..] == gaps;
    InRange(all, from, to);
    assert log[from..from] == [];
  }

  /** Paging is lossless: a whole session delivers the log from its start to its
      last cursor with precisely the reported ranges missing. */
  lemma {:induction false} LosslessPaging(rs: seq<Reply>, log: seq<Byte>, start: nat)
    requires Session(rs, log, start) && start <= |log|
    ensures LastCursor(rs, start) <= |log|
    ensures Within(Gaps(rs, start), start, LastCursor(rs, start))
    ensures Received(rs) == Excise(log, start, LastCursor(rs, start), Gaps(rs, start))
    decreases |rs|
  {
    if rs != [] {
      var r, rest := rs[0], rs[1..];
      LosslessPaging(rest, log, r.cursor);
      PageThen(r, log, start, LastCursor(rest, r.cursor), Gaps(rest, r.cursor));
    }
  }

  /** One reply in front of what the rest of the session delivers. */
  lemma {:induction false} PageThen(r: Reply, log: seq<Byte>, start: nat, to: nat, gaps: seq<(nat, nat)>)
    requires Faithful(r, log, start) && to <= |log| && Within(gaps, r.cursor, to)
    ensures var all := (if r.dropped > 0 then [(start, start + r.dropped)] else []) + gaps;
            && Within(all, start, to)
            && Payload(r.pieces) + Excise(log, r.cursor, to, gaps) == Excise(log, start, to, all)
  {
    var lo := start + r.dropped;
    SpansPayload(r.pieces, log, lo, r.cursor);
    ExcisePrefix(log, lo, r.cursor, to, gaps);
    if r.dropped > 0 {
      LeadingGap(log, start, lo, to, gaps);
    } else {
      assert [] + gaps == gaps;
    }
  }

  lemma {:induction false} SessionGrows(rs: seq<Reply>, log: seq<Byte>, more: seq<Byte>, start: nat)
    requires Session(rs, log, start)
    ensures Session(rs, log + more, start)
    decreases |rs|
  {
    if rs != [] {
      SpansGrows(rs[0].pieces, log, more, start + rs[0].dropped, rs[0].cursor);
      SessionGrows(rs[1..], log, more, rs[0].cursor);
    }
  }

  lemma {:induction false} SessionExtends(rs: seq<Reply>, log: seq<Byte>, start: nat, r: Reply)
    requires Session(rs, log, start) && Faithful(r, log, LastCursor(rs, start))
    ensures Session(rs + [r], log, start) && LastCursor(rs + [r], start) == r.cursor
    decreases |rs|
  {
    if rs != [] {
      SessionExtends(rs[1..], log, rs[0].cursor, r);
      assert (rs + [r])[1..] == rs[1..] + [r];
    } else {
      assert [r][1..] == [];
    }
  }
}
