/** The broker's side of a history request: a page is copied out of the ring and
    encoded a few chunks per event-loop turn. */
module HistoryService {
  import opened Bytes
  import opened RingBuffer
  import opened History

  /** `history_pending`: a copied page and how much of it is encoded. */
  datatype Job = Job(
    client: nat, chunks: seq<Chunk>, encodeIndex: nat, pieces: seq<Piece>,
    cursor: nat, dropped: nat, hasMore: bool,
    firstSkip: nat, pageBytes: nat, bytesEncoded: nat) {

    /** The metadata fixed when the page was cut, to be sent with its pieces. */
    function Promise(): (nat, nat, bool) { (cursor, dropped, hasMore) }
  }

  /** The copied chunks cover the page `want..cursor` of `log`, and the page end
      the ring computed is where the encoder's own byte budget will stop it. */
  ghost predicate Paged(j: Job, log: seq<Byte>, want: nat) {
    && Covers(j.chunks, log, want, j.cursor)
    && j.chunks[0].seqStart + j.firstSkip == want
    && 0 < j.pageBytes
    && j.cursor == Min(|log|, want + j.pageBytes)
  }

  /** Encoding has reached the start of the next chunk, or the page end. */
  ghost predicate Standing(j: Job, want: nat) {
    && j.encodeIndex <= |j.chunks|
    && want + j.bytesEncoded ==
         if j.encodeIndex == |j.chunks| then j.cursor else Max(want, j.chunks[j.encodeIndex].seqStart)
  }

  ghost predicate JobOk(j: Job, log: seq<Byte>, want: nat) {
    && Paged(j, log, want)
    && Standing(j, want)
    && Spans(j.pieces, log, want, want + j.bytesEncoded)
  }

  // ----- When the bytes came -----

  /** A piece carries the time its bytes were appended at. */
  ghost predicate DatedAs(p: Piece, stamps: seq<real>) {
    p.End() <= |stamps| && forall k :: p.seqStart <= k < p.End() ==> stamps[k] == p.timestamp
  }

  ghost predicate Dated(ps: seq<Piece>, stamps: seq<real>) {
    forall i :: 0 <= i < |ps| ==> DatedAs(ps[i], stamps)
  }

  ghost predicate Timely(j: Job, stamps: seq<real>) {
    Stamped(j.chunks, stamps) && Dated(j.pieces, stamps)
  }

  lemma {:induction false} TimelyOn(j: Job, stamps: seq<real>, more: seq<real>)
    requires Timely(j, stamps)
    ensures Timely(j, stamps + more)
  {
    StampedOn(j.chunks, stamps, more);
    forall i | 0 <= i < |j.pieces| ensures DatedAs(j.pieces[i], stamps + more) {
      assert DatedAs(j.pieces[i], stamps);
    }
  }

  lemma {:induction false} TimelyMore(j: Job, p: Piece, stamps: seq<real>, j': Job)
    requires Timely(j, stamps) && j.encodeIndex < |j.chunks|
    requires j.chunks[j.encodeIndex].seqStart <= p.seqStart && p.End() <= j.chunks[j.encodeIndex].End()
    requires p.timestamp == j.chunks[j.encodeIndex].timestamp
    requires j'.chunks == j.chunks && j'.pieces == j.pieces + [p]
    ensures Timely(j', stamps)
  {
    assert StampedAs(j.chunks[j.encodeIndex], stamps);
    assert DatedAs(p, stamps);
  }

  lemma {:induction false} Later(cs: seq<Chunk>, log: seq<Byte>, i: nat, j: nat)
    requires Contiguous(cs, log) && i <= j < |cs|
    ensures cs[i].seqStart <= cs[j].seqStart && (i < j ==> cs[i].End() <= cs[j].seqStart)
    decreases j - i
  {
    if i < j {
      Later(cs, log, i, j - 1);
      assert Follows(cs, j - 1);
    }
  }

  /** Where the encoder stands while chunks remain: inside the next chunk, short of
      the page end and of its budget, and that chunk leads on to the one after it. */
  lemma {:induction false} Position(j: Job, log: seq<Byte>, want: nat)
    requires Paged(j, log, want) && Standing(j, want) && j.encodeIndex < |j.chunks|
    ensures var at := want + j.bytesEncoded; var c := j.chunks[j.encodeIndex];
            && c.seqStart <= at < c.End() <= |log| && at < j.cursor
            && (at > c.seqStart ==> j.encodeIndex == 0)
            && (j.encodeIndex == 0 ==> at == want)
            && (if j.encodeIndex + 1 < |j.chunks|
                then want <= j.chunks[j.encodeIndex + 1].seqStart == c.End() < j.cursor
                else j.cursor <= c.End())
    ensures j.bytesEncoded < j.pageBytes
  {
    var cs, i := j.chunks, j.encodeIndex;
    Later(cs, log, 0, i);
    Later(cs, log, i, |cs| - 1);
    if i + 1 < |cs| {
      Later(cs, log, 0, i + 1);
      Later(cs, log, i + 1, |cs| - 1);
      assert Follows(cs, i);
    }
  }

  /** The next chunk's share of the page is `p`. */
  ghost predicate NextShare(j: Job, p: Piece, log: seq<Byte>, want: nat) {
    && j.encodeIndex < |j.chunks|
    && p.seqStart == want + j.bytesEncoded && p.data != []
    && p.End() <= |log| && p.data == log[p.seqStart..p.End()]
    && j.bytesEncoded + |p.data| <= j.pageBytes
    && j.chunks[j.encodeIndex].seqStart <= p.seqStart && p.End() <= j.chunks[j.encodeIndex].End()
    && (p.End() == j.chunks[j.encodeIndex].End() || j.bytesEncoded + |p.data| == j.pageBytes)
  }

  /** The next chunk's share of the page: all that is left of the chunk, or all
      that is left of the budget. */
  method NextPiece(j: Job, ghost log: seq<Byte>, ghost want: nat) returns (p: Piece)
    requires Paged(j, log, want) && Standing(j, want) && j.encodeIndex < |j.chunks|
    ensures NextShare(j, p, log, want) && p.timestamp == j.chunks[j.encodeIndex].timestamp
  {
    Position(j, log, want);
    var c := j.chunks[j.encodeIndex];
    assert SliceOf(c, log);
    var off := if j.encodeIndex == 0 && j.firstSkip > 0 then Min(j.firstSkip, |c.data|) else 0;
    var len := |c.data| - off;
    var remain := j.pageBytes - j.bytesEncoded;
    if remain == 0 {
      assert false;  // the budget never runs out with chunks outstanding
    }
    if len > remain {
      len := remain;
    }
    p := Piece(c.data[off..off + len], c.timestamp, c.seqStart + off);
    SubSlice(c, log, off, len);
  }

  lemma {:induction false} SubSlice(c: Chunk, log: seq<Byte>, off: nat, len: nat)
    requires SliceOf(c, log) && off + len <= |c.data|
    ensures c.data[off..off + len] == log[c.seqStart + off..c.seqStart + off + len]
  {
    var a, b := c.data[off..off + len], log[c.seqStart + off..c.seqStart + off + len];
    forall i | 0 <= i < len ensures a[i] == b[i] {
      assert c.data[off + i] == log[c.seqStart..c.End()][off + i];
    }
    assert a == b;
  }

  lemma {:induction false} SpansSnoc(ps: seq<Piece>, log: seq<Byte>, lo: nat, p: Piece)
    requires Spans(ps, log, lo, p.seqStart)
    requires p.data != [] && p.End() <= |log| && p.data == log[p.seqStart..p.End()]
    ensures Spans(ps + [p], log, lo, p.End())
  {
    assert (ps + [p])[..|ps|] == ps;
  }

  /** The job once that share is encoded. */
  function Encoded(j: Job, p: Piece): Job {
    var done := j.bytesEncoded + |p.data|;
    j.(pieces := j.pieces + [p], bytesEncoded := done, encodeIndex := if done >= j.pageBytes then |j.chunks| else j.encodeIndex + 1)
  }

  lemma {:induction false} EncodedOk(j: Job, p: Piece, log: seq<Byte>, want: nat, j': Job)
    requires JobOk(j, log, want) && NextShare(j, p, log, want) && j' == Encoded(j, p)
    ensures JobOk(j', log, want) && j.encodeIndex < j'.encodeIndex
  {
    SpansSnoc(j.pieces, log, want, p);
    Position(j, log, want);
    assert Paged(j', log, want);
  }

  /** Encodes one chunk's share of the page. */
  method EncodeOne(j: Job, ghost log: seq<Byte>, ghost stamps: seq<real>, ghost want: nat) returns (j': Job)
    requires JobOk(j, log, want) && j.encodeIndex < |j.chunks| && Timely(j, stamps)
    ensures JobOk(j', log, want) && Timely(j', stamps)
    ensures j'.client == j.client && j'.chunks == j.chunks && j'.Promise() == j.Promise()
    ensures j.bytesEncoded < j'.bytesEncoded && j.encodeIndex < j'.encodeIndex && |j'.pieces| == |j.pieces| + 1
    ensures j'.bytesEncoded == j.bytesEncoded + |j'.pieces[|j.pieces|].data|
  {
    var p := NextPiece(j, log, want);
    j' := j.(pieces := j.pieces + [p], bytesEncoded := j.bytesEncoded + |p.data|, encodeIndex := j.encodeIndex + 1);
    if j'.bytesEncoded >= j'.pageBytes {
      j' := j'.(encodeIndex := |j'.chunks|);
    }
    EncodedOk(j, p, log, want, j');
    TimelyMore(j, p, stamps, j');
  }

  /** One turn's budget of encoding: an unfinished page always gains a piece. */
  method EncodeTurn(j: Job, ghost log: seq<Byte>, ghost stamps: seq<real>, ghost want: nat) returns (j': Job)
    requires JobOk(j, log, want) && Timely(j, stamps)
    ensures JobOk(j', log, want) && Timely(j', stamps)
    ensures j'.client == j.client && j'.chunks == j.chunks && j'.Promise() == j.Promise()
    ensures j.encodeIndex <= j'.encodeIndex
    ensures j.encodeIndex < |j.chunks| ==> |j'.pieces| > |j.pieces| && j'.encodeIndex > j.encodeIndex
    ensures j'.encodeIndex < |j.chunks| ==> |j'.pieces| == |j.pieces| + 4 || j'.bytesEncoded >= j.bytesEncoded + 32768
    ensures |j.pieces| <= |j'.pieces| <= |j.pieces| + 4
    ensures |j'.pieces| > |j.pieces| ==> j'.bytesEncoded - |j'.pieces[|j'.pieces| - 1].data| < j.bytesEncoded + 32768
  {
    j' := j;
    var chunksDone, bytesDone := 0, 0;
    while j'.encodeIndex < |j'.chunks| && chunksDone < ENCODE_MAX_CHUNKS && bytesDone < ENCODE_MAX_BYTES
      invariant JobOk(j', log, want) && Timely(j', stamps)
      invariant j'.client == j.client && j'.chunks == j.chunks && j'.Promise() == j.Promise()
      invariant |j'.pieces| == |j.pieces| + chunksDone && j'.encodeIndex >= j.encodeIndex + chunksDone
      invariant bytesDone == j'.bytesEncoded - j.bytesEncoded && (chunksDone == 0 ==> bytesDone == 0)
      invariant chunksDone <= ENCODE_MAX_CHUNKS && (chunksDone == 0 ==> j' == j)
      invariant chunksDone > 0 ==> bytesDone - |j'.pieces[|j'.pieces| - 1].data| < ENCODE_MAX_BYTES
      decreases |j.chunks| - j'.encodeIndex
    {
      var before := j'.bytesEncoded;
      j' := EncodeOne(j', log, stamps, want);
      bytesDone := bytesDone + (j'.bytesEncoded - before);
      chunksDone := chunksDone + 1;
    }
  }

  datatype Sent = Nothing | Sent(client: nat, reply: Reply)

  datatype Outcome = Busy | Answered(reply: Reply) | Started

  /** A pending page was cut from a log that has only grown since. */
  ghost predicate Outstanding(pending: Option<Job>, snapshot: seq<Byte>, log: seq<Byte>, stamps: seq<real>, since: nat) {
    pending.Some? ==>
      && snapshot <= log && Timely(pending.value, stamps)
      && since < |snapshot|
      && JobOk(pending.value, snapshot, since + pending.value.dropped)
  }

  /** How many bytes a page may have. */
  function PageLimit(maxBytes: int): (limit: nat)
    ensures 0 < limit && WithinBounds(limit, maxBytes, true)
  {
    if maxBytes <= 0 || maxBytes > MAX_RESPONSE_BYTES then MAX_RESPONSE_BYTES else maxBytes
  }

  /** A page of `size` bytes: no more than asked for and never more than 512 KiB, and with
      more to come exactly as much as that. */
  predicate WithinBounds(size: nat, maxBytes: int, hasMore: bool) {
    && size <= 524288
    && (0 < maxBytes ==> size <= maxBytes)
    && (hasMore ==> size == if 1 <= maxBytes <= 524288 then maxBytes else 524288)
  }

  /** Where the page of a request for `asked` starts and ends: at the first byte still
      there, after as many bytes as are allowed, or at the end of the log. */
  ghost predicate PageCut(j: Job, asked: nat, first: nat, total: nat, maxBytes: int) {
    var want := asked + j.dropped;
    && j.dropped == (if asked < first then first - asked else 0)
    && want < j.cursor <= total
    && j.hasMore == (j.cursor < total)
    && WithinBounds(j.cursor - want, maxBytes, j.hasMore)
  }

  /** The answer when nothing is left to send: the cursor is the end of the log. */
  ghost predicate NothingLeft(r: Reply, asked: nat, first: nat, total: nat) {
    && |r.pieces| == 0 && r.cursor == total && !r.hasMore
    && r.dropped == (if asked < first then first - asked else 0)
    && asked + r.dropped >= total
  }

  /** What a request for `asked` leads to: an empty answer, or a page to encode. */
  method StartJob(client: nat, page: Page, maxBytes: int, ghost log: seq<Byte>, ghost stamps: seq<real>, ghost first: nat, ghost asked: nat)
    returns (pending: Option<Job>, r: Outcome)
    requires PageFor(page, log, first, asked, PageLimit(maxBytes)) && first <= |log| && Stamped(page.chunks, stamps)
    ensures Outstanding(pending, log, log, stamps, asked)
    ensures pending.None? ==> r.Answered? && NothingLeft(r.reply, asked, first, |log|)
    ensures pending.None? && asked <= |log| ==> Faithful(r.reply, log, asked)
    ensures pending.Some? ==> r == Started && pending.value.client == client && pending.value.pieces == []
    ensures pending.Some? ==> PageCut(pending.value, asked, first, |log|, maxBytes)
  {
    if page.chunks == [] {
      return None, Answered(Reply([], page.cursor, page.dropped, page.hasMore));
    }
    var j := Job(client, page.chunks, 0, [], page.cursor, page.dropped, page.hasMore, page.firstSkip, PageLimit(maxBytes), 0);
    return Some(j), Started;
  }

  /** A page that is fully encoded answers the request from the log as it is now. */
  lemma {:induction false} FinishedPage(j: Job, snapshot: seq<Byte>, log: seq<Byte>, since: nat)
    requires JobOk(j, snapshot, since + j.dropped) && j.encodeIndex == |j.chunks| && snapshot <= log
    ensures Faithful(Reply(j.pieces, j.cursor, j.dropped, j.hasMore), log, since)
  {
    SpansInGrown(j.pieces, snapshot, log, since + j.dropped, j.cursor);
  }

  /** One turn of a pending job: an unfinished page advances; a finished one is
      sent if its client is still connected, and the slot is freed either way. */
  method TurnJob(j: Job, live: set<nat>, ghost snapshot: seq<Byte>, ghost log: seq<Byte>, ghost stamps: seq<real>, ghost since: nat)
    returns (pending: Option<Job>, sent: Sent)
    requires Outstanding(Some(j), snapshot, log, stamps, since)
    ensures Outstanding(pending, snapshot, log, stamps, since)
    ensures pending.Some? ==>
              && sent == Nothing && pending.value.client == j.client && pending.value.Promise() == j.Promise()
              && |j.pieces| < |pending.value.pieces| <= |j.pieces| + 4
    ensures pending.None? ==> (sent.Sent? <==> j.client in live)
    ensures sent.Sent? ==>
              && sent.client == j.client && sent.reply.Metadata() == j.Promise()
              && Faithful(sent.reply, log, since) && Dated(sent.reply.pieces, stamps)
  {
    ghost var want := since + j.dropped;
    var j' := EncodeTurn(j, snapshot, stamps, want);
    if j'.encodeIndex < |j'.chunks| {
      return Some(j'), Nothing;
    }
    pending := None;
    sent := Finish(j', live, snapshot, log, stamps, since);
  }

  /** The answer to a fully encoded page, if there is still somebody to get it. */
  method Finish(j: Job, live: set<nat>, ghost snapshot: seq<Byte>, ghost log: seq<Byte>, ghost stamps: seq<real>, ghost since: nat)
    returns (sent: Sent)
    requires JobOk(j, snapshot, since + j.dropped) && j.encodeIndex == |j.chunks| && snapshot <= log && Timely(j, stamps)
    ensures sent.Sent? <==> j.client in live
    ensures sent.Sent? ==>
              && sent.client == j.client && sent.reply.Metadata() == j.Promise()
              && Faithful(sent.reply, log, since) && Dated(sent.reply.pieces, stamps)
  {
    FinishedPage(j, snapshot, log, since);
    sent := if j.client in live then Sent(j.client, Reply(j.pieces, j.cursor, j.dropped, j.hasMore)) else Nothing;
  }

  /** The broker's history: the ring, and the one job being encoded from it. */
  class Service {
    const history: RingBuffer
    var pending: Option<Job>
    ghost var snapshot: seq<Byte>  // the log when the pending page was cut
    ghost var since: nat           // what the pending request asked for

    ghost predicate PendingOk()
      reads this, history`log, history`stamps
    {
      Outstanding(pending, snapshot, history.log, history.stamps, since)
    }

    ghost predicate Valid()
      reads this, history, history.ring, history.ring.slots
    {
      history.Valid() && PendingOk()
    }

    constructor (maxBytes: nat)
      ensures Valid() && pending.None? && history.log == []
      ensures fresh(history) && fresh(history.ring) && fresh(history.ring.slots)
    {
      history := new RingBuffer(maxBytes);
      pending := None;
    }

    /** Device output is appended; a page being encoded does not change. */
    method Record(data: seq<Byte>, ts: real)
      requires Valid()
      modifies history, history.ring, history.ring.slots
      ensures Valid() && history.log == old(history.log) + data && history.stamps == old(history.stamps) + Stamps(|data|, ts)
      ensures history.ring.slots == old(history.ring.slots) || fresh(history.ring.slots)
    {
      if pending.Some? {
        TimelyOn(pending.value, history.stamps, Stamps(|data|, ts));
      }
      history.Append(data, ts);
    }

    /** A request for everything from `sinceSeq` on. Negative positions read from
        the start; the page is at most `maxBytes` and never more than 512 KiB. */
    method Request(client: nat, sinceSeq: int, maxBytes: int) returns (r: Outcome)
      requires Valid()
      modifies this
      ensures PendingOk()
      ensures r.Busy? <==> old(pending.Some?)
      ensures r.Busy? ==> unchanged(this)
      ensures var asked := if sinceSeq < 0 then 0 else sinceSeq;
              if r.Answered? then
                && pending.None?
                && NothingLeft(r.reply, asked, history.firstSeq, |history.log|)
                && (asked <= |history.log| ==> Faithful(r.reply, history.log, asked))
              else r.Started? ==>
                && pending.Some? && pending.value.client == client && pending.value.pieces == []
                && since == asked < |history.log| && snapshot == history.log
                && PageCut(pending.value, asked, history.firstSeq, |history.log|, maxBytes)
    {
      if pending.Some? {
        return Busy;
      }
      var asked := if sinceSeq < 0 then 0 else sinceSeq;
      var page := history.GetSinceSeq(asked, PageLimit(maxBytes));
      pending, r := StartJob(client, page, maxBytes, history.log, history.stamps, history.firstSeq, asked);
      snapshot, since := history.log, asked;
    }

    /** One event-loop turn: an unfinished page advances; a finished one is sent if
        its client is still connected, and the slot is freed either way. */
    method Turn(live: set<nat>) returns (sent: Sent)
      requires PendingOk()
      modifies this`pending
      ensures PendingOk()
      ensures old(pending).None? ==> sent == Nothing && pending.None?
      ensures old(pending).Some? ==>
                if pending.Some? then
                  && sent == Nothing
                  && pending.value.client == old(pending).value.client
                  && pending.value.Promise() == old(pending).value.Promise()
                  && |old(pending).value.pieces| < |pending.value.pieces| <= |old(pending).value.pieces| + 4
                else
                  sent.Sent? <==> old(pending).value.client in live
      ensures sent.Sent? ==>
                && old(pending).Some? && sent.client == old(pending).value.client
                && sent.reply.Metadata() == old(pending).value.Promise()
                && Faithful(sent.reply, history.log, since) && Dated(sent.reply.pieces, history.stamps)
    {
      if pending.None? {
        return Nothing;
      }
      pending, sent := TurnJob(pending.value, live, snapshot, history.log, history.stamps, since);
    }
  }

  lemma {:induction false} SpansInGrown(ps: seq<Piece>, log: seq<Byte>, log': seq<Byte>, lo: nat, hi: nat)
    requires log <= log' && Spans(ps, log, lo, hi)
    ensures Spans(ps, log', lo, hi)
  {
    SpansGrows(ps, log, log'[|log|..], lo, hi);
    assert log' == log + log'[|log|..];
  }

  /** What happens around a paging client. */
  datatype Action =
    | Output(data: seq<Byte>, ts: real)
    | Ask(maxBytes: int)
    | OtherAsks(client: nat, sinceSeq: int, maxBytes: int)
    | LoopTurn(live: set<nat>)

  function OutputOf(a: Action): seq<Byte> { if a.Output? then a.data else [] }

  /** What the device sent during a run. */
  ghost function OutputIn(script: seq<Action>): seq<Byte> {
    if script == [] then [] else OutputIn(script[..|script| - 1]) + OutputOf(script[|script| - 1])
  }

  lemma {:induction false} OutputMore(log: seq<Byte>, script: seq<Action>, i: nat)
    requires i < |script|
    ensures log + OutputIn(script[..i + 1]) == log + OutputIn(script[..i]) + OutputOf(script[i])
  {
    assert script[..i + 1][..i] == script[..i];
  }

  /** A paging client: the position it started from and the replies it received. */
  class Pager {
    const me: nat
    const start: nat
    var replies: seq<Reply>

    constructor (me: nat, start: nat)
      ensures this.me == me && this.start == start && replies == []
    {
      this.me, this.start, replies := me, start, [];
    }

    /** Its session so far is faithful, and a job of its own is for its cursor. */
    ghost predicate Tracks(h: Service)
      reads this, h, h.history`log
    {
      && LastCursor(replies, start) <= |h.history.log|
      && Session(replies, h.history.log, start)
      && (h.pending.Some? && h.pending.value.client == me ==> h.since == LastCursor(replies, start))
    }

    method Accept(h: Service, r: Reply)
      requires LastCursor(replies, start) <= |h.history.log| && Session(replies, h.history.log, start)
      requires Faithful(r, h.history.log, LastCursor(replies, start))
      requires h.pending.None?
      modifies this
      ensures Tracks(h) && replies == old(replies) + [r]
    {
      SessionExtends(replies, h.history.log, start, r);
      replies := replies + [r];
    }

    method OnOutput(h: Service, data: seq<Byte>, ts: real)
      requires h.Valid() && Tracks(h)
      modifies h.history, h.history.ring, h.history.ring.slots
      ensures h.Valid() && Tracks(h) && h.history.log == old(h.history.log) + data
      ensures h.history.ring.slots == old(h.history.ring.slots) || fresh(h.history.ring.slots)
    {
      SessionGrows(replies, h.history.log, data, start);
      h.Record(data, ts);
    }

    method OnAsk(h: Service, maxBytes: int)
      requires h.Valid() && Tracks(h)
      modifies this, h
      ensures h.PendingOk() && Tracks(h) && Asked(h, maxBytes)
    {
      var r := h.Request(me, LastCursor(replies, start), maxBytes);
      if r.Answered? {
        Accept(h, r.reply);
      }
    }

    method OnTurn(h: Service, live: set<nat>)
      requires h.PendingOk() && Tracks(h)
      modifies this, h`pending
      ensures h.PendingOk() && Tracks(h) && Got(h, live)
    {
      var sent := h.Turn(live);
      if sent.Sent? && sent.client == me {
        Accept(h, sent.reply);
      }
    }

    /** A request is turned away while a page is being encoded; otherwise it is answered, or its
        page is cut from this client's cursor on. */
    twostate predicate Asked(h: Service, maxBytes: int)
      reads this, h, h.history
    {
      if old(h.pending).Some? then h.pending == old(h.pending) && replies == old(replies)
      else if h.pending.Some? then
        && replies == old(replies) && h.pending.value.client == me
        && PageCut(h.pending.value, LastCursor(replies, start), h.history.firstSeq, |h.history.log|, maxBytes)
      else
        && |replies| == |old(replies)| + 1 && replies[..|old(replies)|] == old(replies)
        && NothingLeft(replies[|old(replies)|], LastCursor(old(replies), start), h.history.firstSeq, |h.history.log|)
    }

    /** The page of a connected client is received as soon as it is encoded, and nothing else is. */
    twostate predicate Got(h: Service, live: set<nat>)
      reads this, h
    {
      if old(h.pending).Some? && h.pending.None? && old(h.pending).value.client == me && me in live then
        && |replies| == |old(replies)| + 1 && replies[..|old(replies)|] == old(replies)
        && replies[|old(replies)|].Metadata() == old(h.pending).value.Promise()
      else
        && replies == old(replies)
        && (h.pending.Some? ==> old(h.pending).Some? && |h.pending.value.pieces| > |old(h.pending).value.pieces|)
    }

    method Step(h: Service, a: Action)
      requires h.Valid() && Tracks(h) && (a.OtherAsks? ==> a.client != me)
      modifies this, h, h.history, h.history.ring, h.history.ring.slots
      ensures h.Valid() && Tracks(h) && h.history.log == old(h.history.log) + OutputOf(a)
      ensures h.history.ring.slots == old(h.history.ring.slots) || fresh(h.history.ring.slots)
      ensures (a.Ask? ==> Asked(h, a.maxBytes)) && (a.LoopTurn? ==> Got(h, a.live))
      ensures a.Output? || a.OtherAsks? ==> replies == old(replies)
    {
      match a
      case Output(data, ts) => OnOutput(h, data, ts);
      case Ask(maxBytes) => OnAsk(h, maxBytes);
      case OtherAsks(client, sinceSeq, maxBytes) =>
        var _ := h.Request(client, sinceSeq, maxBytes);
      case LoopTurn(live) => OnTurn(h, live);
    }
  }

  /** A whole run of one paging client from position `start`: whatever is appended
      and evicted between its pages and between the turns that encode them, and
      whoever else asks, it receives the log from `start` to its last cursor with
      precisely the reported ranges missing. */
  method PagingRun(h: Service, me: nat, start: nat, script: seq<Action>) returns (p: Pager)
    requires h.Valid() && (h.pending.Some? ==> h.pending.value.client != me) && start <= |h.history.log|
    requires forall i :: 0 <= i < |script| && script[i].OtherAsks? ==> script[i].client != me
    modifies h, h.history, h.history.ring, h.history.ring.slots
    ensures p.start == start && h.history.log == old(h.history.log) + OutputIn(script)
    ensures LastCursor(p.replies, start) <= |h.history.log|
    ensures Within(Gaps(p.replies, start), start, LastCursor(p.replies, start))
    ensures Received(p.replies) == Excise(h.history.log, start, LastCursor(p.replies, start), Gaps(p.replies, start))
  {
    p := new Pager(me, start);
    for i := 0 to |script|
      invariant h.Valid() && p.Tracks(h) && h.history.log == old(h.history.log) + OutputIn(script[..i])
      invariant h.history.ring.slots == old(h.history.ring.slots) || fresh(h.history.ring.slots)
    {
      OutputMore(old(h.history.log), script, i);
      p.Step(h, script[i]);
    }
    assert script[..|script|] == script;
    LosslessPaging(p.replies, h.history.log, start);
  }
}
