/** The history ring: a circular array of timestamped chunks that keeps the last
    `maxBytes` bytes of everything ever appended (src/ring_buffer.c).

    The specification is one append-only `log`: the ring holds exactly its last
    min(|log|, maxBytes) bytes, and every sequence number is a log position. */
module RingBuffer {
  import opened Bytes
  import Ring

  const CHUNK_TARGET := 4096

  datatype Chunk = Chunk(timestamp: real, seqStart: nat, data: seq<Byte>, alloc: nat) {
    function End(): nat { seqStart + |data| }
  }

  const BLANK := Chunk(0.0, 0, [], 0)

  function Flat(cs: seq<Chunk>): seq<Byte> {
    if cs == [] then [] else cs[0].data + Flat(cs[1..])
  }

  /** A nonempty slice of the log, at the position its label names. */
  ghost predicate SliceOf(c: Chunk, log: seq<Byte>) {
    c.data != [] && c.End() <= |log| && c.data == log[c.seqStart..c.End()]
  }

  ghost predicate Follows(cs: seq<Chunk>, i: nat)
    requires i + 1 < |cs|
  {
    cs[i + 1].seqStart == cs[i].End()
  }

  /** Slices of the log, each starting where the one before it ends. */
  ghost predicate Contiguous(cs: seq<Chunk>, log: seq<Byte>) {
    && (forall i :: 0 <= i < |cs| ==> SliceOf(cs[i], log))
    && (forall i :: 0 <= i < |cs| - 1 ==> Follows(cs, i))
  }

  /** Every chunk fits its buffer, and no buffer is smaller than the target size. */
  ghost predicate Roomy(cs: seq<Chunk>) {
    forall i :: 0 <= i < |cs| ==> |cs[i].data| <= cs[i].alloc && CHUNK_TARGET <= cs[i].alloc
  }

  /** `cs` holds exactly the log from position `first` on. */
  ghost predicate Holds(cs: seq<Chunk>, log: seq<Byte>, first: nat) {
    && Contiguous(cs, log)
    && if cs == [] then first == |log| else cs[0].seqStart == first && cs[|cs| - 1].End() == |log|
  }

  lemma {:induction false} SliceGrows(c: Chunk, log: seq<Byte>, more: seq<Byte>)
    requires SliceOf(c, log)
    ensures SliceOf(c, log + more)
  {
    assert (log + more)[c.seqStart..c.End()] == log[c.seqStart..c.End()];
  }

  lemma {:induction false} ContiguousGrows(cs: seq<Chunk>, log: seq<Byte>, more: seq<Byte>)
    requires Contiguous(cs, log)
    ensures Contiguous(cs, log + more)
  {
    forall i | 0 <= i < |cs| ensures SliceOf(cs[i], log + more) {
      SliceGrows(cs[i], log, more);
    }
  }

  /** Contiguous slices concatenate to one slice. */
  lemma {:induction false} FlatIsSlice(cs: seq<Chunk>, log: seq<Byte>)
    requires Contiguous(cs, log) && cs != []
    ensures cs[0].seqStart <= cs[|cs| - 1].End() <= |log|
    ensures Flat(cs) == log[cs[0].seqStart..cs[|cs| - 1].End()]
    decreases |cs|
  {
    var rest := cs[1..];
    if rest == [] {
      assert Flat(cs) == cs[0].data;
    } else {
      TailContiguous(cs, log);
      FlatIsSlice(rest, log);
      assert Follows(cs, 0);
      JoinSlices(log, cs[0].seqStart, cs[0].End(), cs[|cs| - 1].End());
    }
  }

  lemma {:induction false} JoinSlices(log: seq<Byte>, a: nat, b: nat, c: nat)
    requires a <= b <= c <= |log|
    ensures log[a..b] + log[b..c] == log[a..c]
  {
  }

  lemma {:induction false} TailContiguous(cs: seq<Chunk>, log: seq<Byte>)
    requires Contiguous(cs, log) && cs != []
    ensures Contiguous(cs[1..], log)
  {
    var rest := cs[1..];
    forall i | 0 <= i < |rest| - 1 ensures Follows(rest, i) {
      assert Follows(cs, i + 1);
    }
  }

  lemma {:induction false} RangeContiguous(cs: seq<Chunk>, log: seq<Byte>, a: nat, b: nat)
    requires Contiguous(cs, log) && a <= b <= |cs|
    ensures Contiguous(cs[a..b], log)
  {
    var part := cs[a..b];
    forall i | 0 <= i < |part| ensures SliceOf(part[i], log) {
      assert part[i] == cs[a + i];
    }
    forall i | 0 <= i < |part| - 1 ensures Follows(part, i) {
      assert Follows(cs, a + i);
    }
  }

  lemma {:induction false} Ordered(cs: seq<Chunk>, log: seq<Byte>, i: nat)
    requires Contiguous(cs, log) && i < |cs|
    ensures cs[0].seqStart <= cs[i].seqStart
  {
    if i > 0 {
      Ordered(cs, log, i - 1);
      assert Follows(cs, i - 1);
    }
  }

  lemma {:induction false} PushHolds(cs: seq<Chunk>, log: seq<Byte>, first: nat, c: Chunk)
    requires Holds(cs, log, first) && c.seqStart == |log| && c.data != []
    ensures Holds(cs + [c], log + c.data, first)
  {
    ContiguousGrows(cs, log, c.data);
    var cs' := cs + [c];
    forall i | 0 <= i < |cs'| - 1 ensures Follows(cs', i) {
      if i + 1 < |cs| {
        assert Follows(cs, i);
      }
    }
  }

  lemma {:induction false} GrowLastHolds(cs: seq<Chunk>, log: seq<Byte>, first: nat, data: seq<Byte>)
    requires Holds(cs, log, first) && cs != []
    ensures var last := cs[|cs| - 1];
            Holds(cs[|cs| - 1 := last.(data := last.data + data)], log + data, first)
  {
    ContiguousGrows(cs, log, data);
    var n := |cs| - 1;
    var cs' := cs[n := cs[n].(data := cs[n].data + data)];
    assert SliceOf(cs'[n], log + data);
    forall i | 0 <= i < |cs'| - 1 ensures Follows(cs', i) {
      assert Follows(cs, i);
    }
  }

  lemma {:induction false} DropFirstHolds(cs: seq<Chunk>, log: seq<Byte>, first: nat)
    requires Holds(cs, log, first) && cs != []
    ensures Holds(cs[1..], log, first + |cs[0].data|)
  {
    TailContiguous(cs, log);
    if |cs| > 1 {
      assert Follows(cs, 0);
    }
  }

  lemma {:induction false} TrimFirstHolds(cs: seq<Chunk>, log: seq<Byte>, first: nat, excess: nat)
    requires Holds(cs, log, first) && cs != [] && excess < |cs[0].data|
    ensures var front := cs[0].(data := cs[0].data[excess..], seqStart := cs[0].seqStart + excess);
            Holds(cs[0 := front], log, first + excess)
  {
    var front := cs[0].(data := cs[0].data[excess..], seqStart := cs[0].seqStart + excess);
    assert SliceOf(front, log);
    var cs' := cs[0 := front];
    forall i | 0 <= i < |cs'| - 1 ensures Follows(cs', i) {
      assert Follows(cs, i);
    }
  }

  /** What a cursor read hands out: whole chunks, with `firstSkip` bytes of the
      first one to be passed over. */
  datatype Page = Page(chunks: seq<Chunk>, firstSkip: nat, cursor: nat, dropped: nat, hasMore: bool)

  /** First position a reader asking for `since` can still get. */
  function Want(since: nat, first: nat): nat { Max(since, first) }

  function PageEnd(want: nat, limit: nat, total: nat): nat {
    if limit == 0 then total else Min(total, want + limit)
  }

  /** Whole chunks of the log that cover `lo..hi`, none of them unneeded. */
  ghost predicate Covers(cs: seq<Chunk>, log: seq<Byte>, lo: nat, hi: nat) {
    && cs != []
    && Contiguous(cs, log)
    && cs[0].seqStart <= lo < cs[0].End()
    && lo < hi
    && cs[|cs| - 1].seqStart < hi <= cs[|cs| - 1].End()
  }

  /** The page for `since` out of a ring whose oldest byte is `first`. */
  ghost predicate PageFor(page: Page, log: seq<Byte>, first: nat, since: nat, limit: nat) {
    var want := Want(since, first);
    && page.dropped == want - since
    && if want >= |log| then
         page.chunks == [] && page.cursor == |log| && !page.hasMore
       else
         && page.cursor == PageEnd(want, limit, |log|)
         && page.hasMore == (page.cursor < |log|)
         && Covers(page.chunks, log, want, page.cursor)
         && page.chunks[0].seqStart + page.firstSkip == want
  }

  // ----- When the bytes came -----

  /** A chunk carries the time its bytes were appended at. */
  ghost predicate StampedAs(c: Chunk, stamps: seq<real>) {
    c.End() <= |stamps| && forall k :: c.seqStart <= k < c.End() ==> stamps[k] == c.timestamp
  }

  ghost predicate Stamped(cs: seq<Chunk>, stamps: seq<real>) {
    forall i :: 0 <= i < |cs| ==> StampedAs(cs[i], stamps)
  }

  ghost function Stamps(n: nat, ts: real): seq<real> { seq(n, _ => ts) }

  lemma {:induction false} StampedOn(cs: seq<Chunk>, stamps: seq<real>, more: seq<real>)
    requires Stamped(cs, stamps)
    ensures Stamped(cs, stamps + more)
  {
    forall i | 0 <= i < |cs| ensures StampedAs(cs[i], stamps + more) {
      assert StampedAs(cs[i], stamps);
    }
  }

  lemma {:induction false} StampedRange(cs: seq<Chunk>, stamps: seq<real>, lo: nat, hi: nat)
    requires Stamped(cs, stamps) && lo <= hi <= |cs|
    ensures Stamped(cs[lo..hi], stamps)
  {
    var part := cs[lo..hi];
    forall i | 0 <= i < |part| ensures StampedAs(part[i], stamps) {
      assert part[i] == cs[lo + i];
    }
  }

  lemma {:induction false} StampedTrim(cs: seq<Chunk>, stamps: seq<real>, c: Chunk)
    requires Stamped(cs, stamps) && cs != [] && c.timestamp == cs[0].timestamp
    requires cs[0].seqStart <= c.seqStart && c.End() == cs[0].End()
    ensures Stamped(cs[0 := c], stamps)
  {
    assert StampedAs(cs[0], stamps);
  }

  lemma {:induction false} StampedPush(cs: seq<Chunk>, stamps: seq<real>, c: Chunk, n: nat)
    requires Stamped(cs, stamps) && c.seqStart == |stamps| && |c.data| == n
    ensures Stamped(cs + [c], stamps + Stamps(n, c.timestamp))
  {
    var stamps' := stamps + Stamps(n, c.timestamp);
    StampedOn(cs, stamps, Stamps(n, c.timestamp));
    assert StampedAs(c, stamps');
  }

  lemma {:induction false} StampedGrow(cs: seq<Chunk>, stamps: seq<real>, c: Chunk, n: nat)
    requires Stamped(cs, stamps) && cs != [] && cs[|cs| - 1].End() == |stamps|
    requires c.seqStart == cs[|cs| - 1].seqStart && c.timestamp == cs[|cs| - 1].timestamp && c.End() == |stamps| + n
    ensures Stamped(cs[|cs| - 1 := c], stamps + Stamps(n, c.timestamp))
  {
    var stamps' := stamps + Stamps(n, c.timestamp);
    StampedOn(cs, stamps, Stamps(n, c.timestamp));
    assert StampedAs(cs[|cs| - 1], stamps);
    assert StampedAs(c, stamps');
  }

  class RingBuffer {
    const ring: Ring.Circular<Chunk>
    const maxBytes: nat
    var totalBytes: nat
    var totalSeq: nat
    var firstSeq: nat
    ghost var log: seq<Byte>
    ghost var stamps: seq<real>  // when each byte of the log was appended

    /** Everything except the byte limit, which an append breaks and an eviction restores. */
    ghost predicate Linked()
      reads this, ring, ring.slots
    {
      && ring.Valid()
      && totalSeq == |log|
      && totalBytes + firstSeq == totalSeq
      && Holds(ring.view, log, firstSeq)
      && Roomy(ring.view)
      && |stamps| == |log| && Stamped(ring.view, stamps)
    }

    ghost predicate Valid()
      reads this, ring, ring.slots
    {
      Linked() && totalBytes == Min(|log|, maxBytes)
    }

    /** The chunks in ring order are exactly the newest bytes of the log. */
    lemma {:induction false} Contents()
      requires Valid()
      ensures Flat(ring.view) == Suffix(log, maxBytes)
      ensures firstSeq == |log| - |Flat(ring.view)|
    {
      if ring.view != [] {
        FlatIsSlice(ring.view, log);
      }
    }

    constructor (maxBytes: nat)
      ensures Valid() && fresh(ring) && fresh(ring.slots) && log == [] && stamps == [] && this.maxBytes == maxBytes
    {
      ring := new Ring.Circular(0, BLANK);
      totalBytes, totalSeq, firstSeq := 0, 0, 0;
      this.maxBytes := maxBytes;
      log, stamps := [], [];
    }

    method Evict()
      requires Linked() && totalBytes >= Min(|log|, maxBytes)
      modifies this, ring, ring.slots
      ensures Valid() && log == old(log) && stamps == old(stamps) && ring.slots == old(ring.slots)
    {
      while ring.count > 0 && totalBytes > maxBytes
        invariant Linked() && totalBytes >= Min(|log|, maxBytes)
        invariant log == old(log) && stamps == old(stamps) && ring.slots == old(ring.slots)
        decreases totalBytes
      {
        EvictFront(totalBytes - maxBytes);
      }
    }

    /** Drops the oldest chunk, or only its first `excess` bytes when it is longer. */
    method EvictFront(excess: nat)
      requires Linked() && 0 < ring.count && 0 < excess
      modifies this, ring, ring.slots
      ensures Linked() && log == old(log) && stamps == old(stamps) && ring.slots == old(ring.slots)
      ensures old(totalBytes) - excess <= totalBytes < old(totalBytes)
    {
      var front := ring.At(0);
      if |front.data| <= excess {
        DropFirstHolds(ring.view, log, firstSeq);
        StampedRange(ring.view, stamps, 1, |ring.view|);
        ring.Pop(front.(data := [], alloc := 0));
        totalBytes := totalBytes - |front.data|;
      } else {
        TrimFront(front, excess);
        totalBytes := totalBytes - excess;
      }
      firstSeq := if ring.count == 0 then totalSeq else ring.At(0).seqStart;
    }

    /** Cuts the first `excess` bytes off the oldest chunk. */
    method TrimFront(front: Chunk, excess: nat)
      requires Linked() && 0 < ring.count && front == ring.view[0] && 0 < excess < |front.data|
      modifies ring, ring.slots
      ensures ring.Valid() && ring.slots == old(ring.slots) && 0 < ring.count
      ensures Holds(ring.view, log, firstSeq + excess) && Roomy(ring.view) && Stamped(ring.view, stamps)
    {
      StampedTrim(ring.view, stamps, front.(data := front.data[excess..], seqStart := front.seqStart + excess));
      TrimFirstHolds(ring.view, log, firstSeq, excess);
      ring.SetAt(0, front.(data := front.data[excess..], seqStart := front.seqStart + excess));
    }

    method Append(data: seq<Byte>, ts: real)
      requires Valid()
      modifies this, ring, ring.slots
      ensures Valid() && log == old(log) + data && stamps == old(stamps) + Stamps(|data|, ts)
      ensures ring.slots == old(ring.slots) || fresh(ring.slots)
    {
      if |data| == 0 {
        assert log == log + data && stamps == stamps + Stamps(|data|, ts);
        return;
      }
      if ring.count > 0 {
        var last := ring.At(ring.count - 1);
        if last.timestamp == ts && |last.data| < CHUNK_TARGET && |last.data| + |data| <= last.alloc {
          GrowLast(data);
          Evict();
          return;
        }
        if last.timestamp == ts && |last.data| < CHUNK_TARGET && |last.data| + |data| <= CHUNK_TARGET {
          assert false;  // every buffer already has the target size: nothing to reallocate
        }
      }
      if ring.count >= ring.slots.Length {
        ring.Grow(64, BLANK);
      }
      PushChunk(data, ts);
      Evict();
    }

    /** Appends to the newest chunk in place. */
    method GrowLast(data: seq<Byte>)
      requires Linked() && 0 < ring.count
      requires var last := ring.view[ring.count - 1]; |last.data| + |data| <= last.alloc
      modifies this, ring, ring.slots
      ensures stamps == old(stamps) + Stamps(|data|, old(ring.view)[|old(ring.view)| - 1].timestamp)
      ensures Linked() && log == old(log) + data && totalBytes == old(totalBytes) + |data|
      ensures ring.slots == old(ring.slots)
    {
      var last := ring.At(ring.count - 1);
      GrowLastHolds(ring.view, log, firstSeq, data);
      StampedGrow(ring.view, stamps, last.(data := last.data + data), |data|);
      ring.SetAt(ring.count - 1, last.(data := last.data + data));
      totalBytes := totalBytes + |data|;
      totalSeq := totalSeq + |data|;
      log, stamps := log + data, stamps + Stamps(|data|, last.timestamp);
    }

    /** Starts a new chunk. */
    method PushChunk(data: seq<Byte>, ts: real)
      requires Linked() && data != [] && ring.count < ring.slots.Length
      modifies this, ring, ring.slots
      ensures stamps == old(stamps) + Stamps(|data|, ts)
      ensures Linked() && log == old(log) + data && totalBytes == old(totalBytes) + |data|
      ensures ring.slots == old(ring.slots)
    {
      var c := Chunk(ts, totalSeq, data, if |data| > CHUNK_TARGET then |data| else CHUNK_TARGET);
      PushHolds(ring.view, log, firstSeq, c);
      StampedPush(ring.view, stamps, c, |data|);
      ring.Push(c);
      totalBytes := totalBytes + |data|;
      totalSeq := totalSeq + |data|;
      log, stamps := log + data, stamps + Stamps(|data|, ts);
      if ring.count == 1 {
        firstSeq := c.seqStart;
      }
    }

    /** Cursor read: every chunk needed for the page, and where the page ends. */
    method GetSinceSeq(since: nat, limit: nat) returns (page: Page)
      requires Valid()
      ensures PageFor(page, log, firstSeq, since, limit) && Stamped(page.chunks, stamps)
    {
      var want := since;
      var dropped := 0;
      if want < firstSeq {
        dropped := firstSeq - want;
        want := firstSeq;
      }
      if ring.count == 0 || want >= totalSeq {
        return Page([], 0, totalSeq, dropped, false);
      }
      var start, skip := FindStart(want);
      var end, cursor := SelectPage(start, skip, want, limit);
      if end == start {
        assert false;  // a page always takes at least one chunk
      }
      var chunks := CopyRange(start, end);
      RangeContiguous(ring.view, log, start, end);
      StampedRange(ring.view, stamps, start, end);
      assert Covers(chunks, log, want, cursor);
      page := Page(chunks, skip, cursor, dropped, cursor < totalSeq);
    }

    /** The chunk holding position `want`, and how far into it. */
    method FindStart(want: nat) returns (start: nat, skip: nat)
      requires Valid() && firstSeq <= want < totalSeq
      ensures start < ring.count
      ensures ring.view[start].seqStart + skip == want < ring.view[start].End()
    {
      start := 0;
      while start < ring.count
        invariant start <= ring.count
        invariant start < ring.count ==> ring.view[start].seqStart <= want
        invariant start == ring.count ==> totalSeq <= want
      {
        var c := ring.At(start);
        if c.End() > want {
          skip := if want > c.seqStart then want - c.seqStart else 0;
          return;
        }
        assert start + 1 < ring.count ==> Follows(ring.view, start);
        start := start + 1;
      }
      assert false;  // the newest chunk ends at totalSeq
    }

    /** Takes chunks until the page holds `limit` bytes or the ring is used up. */
    method SelectPage(start: nat, skip: nat, want: nat, limit: nat) returns (end: nat, cursor: nat)
      requires Valid() && start < ring.count
      requires ring.view[start].seqStart + skip == want < ring.view[start].End()
      ensures start < end <= ring.count && want < cursor
      ensures ring.view[end - 1].seqStart < cursor <= ring.view[end - 1].End()
      ensures cursor == PageEnd(want, limit, totalSeq)
    {
      var acc := 0;
      end, cursor := start, want;
      while end < ring.count
        invariant start <= end <= ring.count && cursor == want + acc
        invariant end == start ==> acc == 0
        invariant end > start ==> ring.view[end - 1].seqStart < cursor == ring.view[end - 1].End()
        invariant cursor <= totalSeq && (limit > 0 ==> acc <= limit)
      {
        var c := ring.At(end);
        var off := if end == start then skip else 0;
        assert end > start ==> Follows(ring.view, end - 1);
        var usable := |c.data| - off;
        if usable == 0 {
          assert false;
        }
        if limit > 0 && acc >= limit {
          break;
        }
        end := end + 1;
        if limit > 0 && acc + usable > limit {
          cursor := c.seqStart + off + (limit - acc);
          return;
        }
        acc := acc + usable;
        cursor := c.End();
      }
    }

    /** Copies out chunks `start..end` in ring order. */
    method CopyRange(start: nat, end: nat) returns (r: seq<Chunk>)
      requires ring.Valid() && start <= end <= ring.count
      ensures r == ring.view[start..end]
    {
      r := [];
      for i := start to end
        invariant r == ring.view[start..i]
      {
        r := r + [ring.At(i)];
      }
    }

    /** The shortest run of newest chunks with at least `n` bytes, or all of them. */
    method GetLastBytes(n: nat) returns (r: seq<Chunk>)
      requires Valid()
      ensures if n == 0 || totalBytes == 0 then r == [] else Covers(r, log, Max(firstSeq, |log| - Min(n, |log|)), |log|)
    {
      if ring.count == 0 || n == 0 {
        return [];
      }
      var start := LastStart(n);
      r := CopyRange(start, ring.count);
      RangeContiguous(ring.view, log, start, ring.count);
    }

    method LastStart(n: nat) returns (start: nat)
      requires Valid() && 0 < ring.count && 0 < n
      ensures start < ring.count
      ensures ring.view[start].seqStart <= Max(firstSeq, |log| - Min(n, |log|)) < ring.view[start].End()
    {
      var acc := 0;
      start := ring.count;
      while start > 0 && acc < n
        invariant 0 <= start <= ring.count
        invariant start == ring.count ==> acc == 0
        invariant start < ring.count ==> acc == totalSeq - ring.view[start].seqStart
        invariant start < ring.count ==> totalSeq - ring.view[start].End() < n
      {
        assert start < ring.count ==> Follows(ring.view, start - 1);
        start := start - 1;
        acc := acc + |ring.At(start).data|;
      }
      Ordered(ring.view, log, start);
    }
  }
}
