/** Pending expects (src/expect.c): each request scans the device output fed since
    it was added through a sliding buffer, looking back only 256 bytes. */
module Expect {
  import opened Bytes
  import opened Patterns

  const MAX_BUF := 262144
  const MAX_PENDING := 256
  const MAX_PER_CLIENT := 16

  /** Who waits for a match: the built-in MCP sink, or a client by its number. */
  datatype Owner = Mcp | Client(num: nat)

  datatype Request = Request(
    id: string, client: Owner, pattern: Pattern, deadline: real,
    buffer: seq<Byte>, searchOffset: nat, matched: bool, aborted: bool)
  {
    /** A wait ends with a match, an abort, or its deadline. */
    predicate Done(now: real): (d: bool)
      ensures now >= deadline ==> d
      ensures d && now < deadline ==> matched || aborted
      ensures matched || aborted ==> d
    {
      matched || aborted || now >= deadline
    }
  }

  function NewRequest(id: string, client: Owner, pattern: Pattern, deadline: real): (r: Request)
    ensures Unfed(r) && !r.aborted && r.id == Cut(id) && r.client == client && r.pattern == pattern && r.deadline == deadline
  {
    Request(Cut(id), client, pattern, deadline, [], 0, false, false)
  }

  /** Nothing has been fed to it yet. */
  predicate Unfed(r: Request) { !r.matched && |r.buffer| == r.searchOffset == 0 }

  /** The buffer before new data is added: emptied for an oversized chunk, slid
      when it would overflow, with the scan position moved along. */
  function Slide(r: Request, n: nat): (r': Request)
    requires r.searchOffset <= |r.buffer| <= MAX_BUF
    ensures r'.searchOffset <= |r'.buffer| && |r'.buffer| + Min(n, MAX_BUF) <= MAX_BUF
    ensures r.searchOffset == |r.buffer| ==> r'.searchOffset == |r'.buffer|
    ensures r'.(buffer := r.buffer, searchOffset := r.searchOffset) == r
  {
    if n > MAX_BUF then r.(buffer := [], searchOffset := 0)
    else if |r.buffer| + n > MAX_BUF then
      var drop := |r.buffer| + n - MAX_BUF;
      r.(buffer := r.buffer[drop..], searchOffset := if r.searchOffset > drop then r.searchOffset - drop else 0)
    else r
  }

  /** Adds data to the buffer and scans it from a little before where it starts. */
  function Extend(r: Request, data: seq<Byte>): (r': Request)
    requires r.searchOffset <= |r.buffer| && |r.buffer| + |data| <= MAX_BUF
    ensures r'.buffer == r.buffer + data && r'.searchOffset == |r'.buffer|
    ensures r'.matched <==> Matches(r.pattern, r'.buffer[r.searchOffset - Min(LOOKBACK, r.searchOffset)..])
    ensures r'.(buffer := r.buffer, searchOffset := r.searchOffset, matched := r.matched) == r
  {
    var buffer := r.buffer + data;
    var start := if r.searchOffset > LOOKBACK then r.searchOffset - LOOKBACK else 0;
    r.(buffer := buffer, searchOffset := |buffer|, matched := Exec(r.pattern, buffer[start..]).Some?)
  }

  /** One chunk of output through one request. */
  function FeedRequest(r: Request, data: seq<Byte>): (r': Request)
    requires r.searchOffset <= |r.buffer| <= MAX_BUF
    ensures r'.searchOffset <= |r'.buffer| <= MAX_BUF
    ensures r.matched ==> r' == r
    ensures r'.(buffer := r.buffer, searchOffset := r.searchOffset, matched := r.matched) == r
  {
    if r.matched then r else Extend(Slide(r, |data|), Suffix(data, MAX_BUF))
  }

  /** What a request knows of the stream fed to it: whether it has matched, and
      until then its longest allowed suffix. */
  ghost predicate Tracks(r: Request, stream: seq<Byte>) {
    && r.searchOffset == |r.buffer| <= MAX_BUF
    && (r.matched <==> Matches(r.pattern, stream))
    && (!r.matched ==> r.buffer == Suffix(stream, MAX_BUF))
  }

  /** One chunk keeps a request exact, although only the look-back is rescanned. */
  lemma {:induction false} FeedTracks(r: Request, stream: seq<Byte>, data: seq<Byte>)
    requires Short(r.pattern) && Tracks(r, stream) && |data| <= MAX_BUF - LOOKBACK
    ensures Tracks(FeedRequest(r, data), stream + data)
  {
    if r.matched {
      MatchesPrefix(r.pattern, stream, data);
    } else {
      SlideKeeps(r, stream, |data|);
      assert Suffix(data, MAX_BUF) == data;
      ExtendTracks(Slide(r, |data|), stream, data);
    }
  }

  /** Rescanning the look-back in a slid window of `cap` bytes decides the whole stream. */
  lemma {:induction false} WindowLookback(p: Pattern, stream: seq<Byte>, data: seq<Byte>, cap: nat, kept: seq<Byte>, back: nat)
    requires Short(p) && !Matches(p, stream) && |data| + LOOKBACK <= cap
    requires kept == Suffix(stream, cap - |data|) && back == Min(LOOKBACK, |kept|)
    ensures kept + data == Suffix(stream + data, cap)
    ensures Matches(p, (kept + data)[|kept| - back..]) <==> Matches(p, stream + data)
  {
    SuffixSlides(stream, data, cap);
    assert (kept + data)[|kept| - back..] == stream[|stream| - back..] + data by {
      SuffixTail(stream, data, |kept|, back);
    }
    Lookback(p, stream, data, back);
  }

  lemma {:induction false} Extended(q: Request, data: seq<Byte>, all: seq<Byte>, r: Request)
    requires q.searchOffset == |q.buffer| && |q.buffer| + |data| <= MAX_BUF && r == Extend(q, data)
    requires q.buffer + data == Suffix(all, MAX_BUF)
    requires Matches(q.pattern, (q.buffer + data)[|q.buffer| - Min(LOOKBACK, |q.buffer|)..]) <==> Matches(q.pattern, all)
    ensures Tracks(r, all)
  {
  }

  lemma {:induction false} ExtendTracks(q: Request, stream: seq<Byte>, data: seq<Byte>)
    requires Short(q.pattern) && !Matches(q.pattern, stream) && |data| <= MAX_BUF - LOOKBACK
    requires q.buffer == Suffix(stream, MAX_BUF - |data|)
    requires q.searchOffset == |q.buffer|
    ensures Tracks(Extend(q, data), stream + data)
  {
    WindowLookback(q.pattern, stream, data, MAX_BUF, q.buffer, Min(LOOKBACK, |q.buffer|));
    Extended(q, data, stream + data, Extend(q, data));
  }

  lemma {:induction false} SlideKeeps(r: Request, stream: seq<Byte>, n: nat)
    requires r.searchOffset == |r.buffer| && r.buffer == Suffix(stream, MAX_BUF) && n <= MAX_BUF
    ensures var q := Slide(r, n);
            && q.buffer == Suffix(stream, MAX_BUF - n)
            && q.searchOffset == |q.buffer| == Min(|stream|, MAX_BUF - n)
  {
    SuffixOfSuffix(stream, MAX_BUF - n, MAX_BUF);
  }

  ghost function FeedAll(r: Request, chunks: seq<seq<Byte>>): (r': Request)
    requires r.searchOffset <= |r.buffer| <= MAX_BUF
    ensures r'.searchOffset <= |r'.buffer| <= MAX_BUF && r'.pattern == r.pattern
  {
    if chunks == [] then r else FeedRequest(FeedAll(r, chunks[..|chunks| - 1]), chunks[|chunks| - 1])
  }

  /** Incremental matching equals full search: for words of 1 to 257 bytes and any
      chunking, a request is matched iff the stream fed since it was added
      contains a word. */
  lemma {:induction false} IncrementalEqualsFull(r: Request, chunks: seq<seq<Byte>>)
    requires Unfed(r) && Short(r.pattern)
    requires forall i :: 0 <= i < |chunks| ==> |chunks[i]| <= MAX_BUF - LOOKBACK
    ensures Tracks(FeedAll(r, chunks), Concat(chunks))
    decreases |chunks|
  {
    if chunks == [] {
      TooShort(r.pattern, []);
    } else {
      var init, last := chunks[..|chunks| - 1], chunks[|chunks| - 1];
      assert Concat(chunks) == Concat(init) + last by {
        assert chunks == init + [last];
        ConcatSnoc(init, last);
      }
      IncrementalEqualsFull(r, init);
      FeedTracks(FeedAll(r, init), Concat(init), last);
    }
  }

  /** A pattern is exact when no chunking makes the incremental search miss. */
  ghost predicate Exact(p: Pattern) {
    forall id, client, deadline, chunks: seq<seq<Byte>> ::
      (forall i :: 0 <= i < |chunks| ==> |chunks[i]| <= MAX_BUF - LOOKBACK) ==>
      (FeedAll(NewRequest(id, client, p, deadline), chunks).matched <==> Matches(p, Concat(chunks)))
  }

  /** The stream cut into single bytes. */
  ghost function Singles(s: seq<Byte>): (cs: seq<seq<Byte>>)
    ensures |cs| == |s| && forall i :: 0 <= i < |cs| ==> |cs[i]| == 1
  {
    seq(|s|, i requires 0 <= i < |s| => [s[i]])
  }

  lemma {:induction false} ConcatSingles(s: seq<Byte>)
    ensures Concat(Singles(s)) == s
  {
    if s != [] {
      var n := |s| - 1;
      ConcatSingles(s[..n]);
      assert Singles(s) == Singles(s[..n]) + [[s[n]]];
      ConcatSnoc(Singles(s[..n]), [s[n]]);
    }
  }

  /** A scan over one new byte sees at most 257 bytes. */
  lemma {:induction false} OneByteMissed(r: Request, data: seq<Byte>)
    requires !r.matched && r.searchOffset == |r.buffer| <= MAX_BUF && |data| == 1
    requires forall w :: w in r.pattern ==> LOOKBACK + 1 < |w|
    ensures var r' := FeedRequest(r, data); !r'.matched && r'.searchOffset == |r'.buffer|
  {
    var q := Slide(r, 1);
    assert Suffix(data, MAX_BUF) == data;
    TooShort(r.pattern, (q.buffer + data)[q.searchOffset - Min(LOOKBACK, q.searchOffset)..]);
  }

  /** Fed byte by byte, longer words are never found. */
  lemma {:induction false} LongWordsMissed(r: Request, chunks: seq<seq<Byte>>)
    requires Unfed(r)
    requires forall w :: w in r.pattern ==> LOOKBACK + 1 < |w|
    requires forall i :: 0 <= i < |chunks| ==> |chunks[i]| == 1
    ensures var r' := FeedAll(r, chunks); !r'.matched && r'.searchOffset == |r'.buffer|
    decreases |chunks|
  {
    if chunks != [] {
      var n := |chunks| - 1;
      LongWordsMissed(r, chunks[..n]);
      OneByteMissed(FeedAll(r, chunks[..n]), chunks[n]);
    }
  }

  /** The look-back is tight: a single word is found under every chunking iff it is
      at most 257 bytes long. */
  lemma {:induction false} LookbackIsTight(w: seq<Byte>)
    requires w != []
    ensures Exact({w}) <==> |w| <= LOOKBACK + 1
  {
    if |w| <= LOOKBACK + 1 {
      forall id, client, deadline, chunks: seq<seq<Byte>> |
        forall i :: 0 <= i < |chunks| ==> |chunks[i]| <= MAX_BUF - LOOKBACK
        ensures FeedAll(NewRequest(id, client, {w}, deadline), chunks).matched <==> Matches({w}, Concat(chunks))
      {
        IncrementalEqualsFull(NewRequest(id, client, {w}, deadline), chunks);
      }
    } else {
      var r := NewRequest("", Mcp, {w}, 0.0);
      LongWordsMissed(r, Singles(w));
      ConcatSingles(w);
      assert WordAt(w, w, 0) && OccursAt({w}, w, 0);
    }
  }
}
