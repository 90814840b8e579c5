/** The deferred write queue of a device link (src/links/link_wq.c): what the
    kernel would not take at once waits in a ring of partly written entries.

    Nothing accepted is lost, repeated or reordered: bytes on the wire followed
    by bytes still queued are the accepted data in order. */
module LinkQueue {
  import opened Bytes
  import opened Wire
  import Ring

  const MAX_BYTES := 524288

  datatype Entry = Entry(data: seq<Byte>, offset: nat) {
    function Rest(): seq<Byte>
      requires offset <= |data|
    {
      data[offset..]
    }
  }

  const BLANK := Entry([], 0)

  /** Every queued entry has something left to send. */
  ghost predicate Partial(es: seq<Entry>) {
    forall i :: 0 <= i < |es| ==> es[i].offset < |es[i].data|
  }

  ghost function Unsent(es: seq<Entry>): seq<Byte>
    requires Partial(es)
  {
    if es == [] then [] else es[0].Rest() + Unsent(es[1..])
  }

  lemma {:induction false} UnsentPush(es: seq<Entry>, e: Entry)
    requires Partial(es) && e.offset < |e.data|
    ensures Partial(es + [e]) && Unsent(es + [e]) == Unsent(es) + e.Rest()
  {
    if es == [] {
      assert es + [e] == [e] && [e][1..] == [];
    } else {
      calc {
        Unsent(es + [e]);
        { assert (es + [e])[1..] == es[1..] + [e]; }
        es[0].Rest() + Unsent(es[1..] + [e]);
        { UnsentPush(es[1..], e); }
        es[0].Rest() + (Unsent(es[1..]) + e.Rest());
        { Assoc(es[0].Rest(), Unsent(es[1..]), e.Rest()); }
        Unsent(es) + e.Rest();
      }
    }
  }

  /** Taking `n` bytes off the front entry takes them off the front of the queue. */
  lemma {:induction false} UnsentTake(es: seq<Entry>, n: nat)
    requires Partial(es) && es != [] && 0 < n <= |es[0].Rest()|
    ensures n < |es[0].Rest()| ==>
              var es' := es[0 := es[0].(offset := es[0].offset + n)];
              Partial(es') && Unsent(es) == es[0].Rest()[..n] + Unsent(es')
    ensures n == |es[0].Rest()| ==> Partial(es[1..]) && Unsent(es) == es[0].Rest()[..n] + Unsent(es[1..])
  {
    if n < |es[0].Rest()| {
      var e := es[0].(offset := es[0].offset + n);
      assert es[0 := e][1..] == es[1..];
      assert es[0].Rest() == es[0].Rest()[..n] + e.Rest();
      Assoc(es[0].Rest()[..n], e.Rest(), Unsent(es[1..]));
    } else {
      assert es[0].Rest()[..n] == es[0].Rest();
    }
  }

  /** What a write of `data` does to a queue of `before` bytes. The descriptor is asked only
      for an empty queue, and again only while it takes something. The write fails iff the
      descriptor refuses, or what the descriptor and the queue do not take is too much;
      bytes are queued only behind others or when the descriptor would block. */
  ghost predicate Settles(data: seq<Byte>, before: nat, after: nat, ok: bool, taken: nat, heard: seq<WriteResult>) {
    && taken <= |data| && (ok ==> taken == |data|) && Patient(heard)
    && var put := before + taken - after;  // bytes the descriptor took
       && 0 <= put <= taken
       && (ok <==> !Refused(heard) && before + |data| - put <= MAX_BYTES)
       && (before == 0 && put < |data| ==> Blocked(heard) || Refused(heard))
       && (before > 0 || put == |data| ==> !Blocked(heard) && !Refused(heard))
       && (before > 0 || |data| == 0 ==> |heard| == 0)
  }

  datatype FlushResult = Drained | MorePending | Broken

  lemma {:induction false} Rejoined(sent: seq<Byte>, data: seq<Byte>, k: nat)
    requires k <= |data|
    ensures (sent + data[..k]) + data[k..] == sent + data[..|data|]
    ensures data[..|data|] == data
  {
  }

  class LinkQueue {
    const ring: Ring.Circular<Entry>
    var totalBytes: nat

    ghost predicate Valid()
      reads this, ring, ring.slots
    {
      && ring.Valid()
      && Partial(ring.view)
      && totalBytes == |Pending()| <= MAX_BYTES
    }

    ghost function Pending(): seq<Byte>
      requires Partial(ring.view)
      reads ring
    {
      Unsent(ring.view)
    }

    constructor ()
      ensures Valid() && Pending() == [] && fresh(ring) && fresh(ring.slots)
    {
      ring := new Ring.Circular(0, BLANK);
      totalBytes := 0;
    }

    method Enqueue(data: seq<Byte>) returns (ok: bool)
      requires Valid()
      modifies this, ring, ring.slots
      ensures Valid() && (ring.slots == old(ring.slots) || fresh(ring.slots))
      ensures ok <==> |old(Pending())| + |data| <= MAX_BYTES || data == []
      ensures Pending() == old(Pending()) + if ok then data else []
    {
      if |data| == 0 {
        return true;
      }
      if totalBytes + |data| > MAX_BYTES {
        return false;
      }
      if ring.count >= ring.slots.Length {
        ring.Grow(16, BLANK);
      }
      UnsentPush(ring.view, Entry(data, 0));
      ring.Push(Entry(data, 0));
      totalBytes := totalBytes + |data|;
      ok := true;
    }

    /** Writes at once what the descriptor takes and queues the rest; behind a queued tail
        everything is queued. It fails iff the descriptor refuses, or what is left does not
        fit. A rejected write may have put a prefix of its own data on the wire, and leaves
        the queue as it was. */
    method Write(w: Wire, data: seq<Byte>) returns (ok: bool, ghost taken: nat, ghost heard: seq<WriteResult>)
      requires Valid()
      modifies this, ring, ring.slots, w
      ensures Valid() && (ring.slots == old(ring.slots) || fresh(ring.slots))
      ensures Settles(data, |old(Pending())|, |Pending()|, ok, taken, heard)
      ensures w.sent + Pending() == old(w.sent + Pending()) + data[..taken]
      ensures w.answers == old(w.answers) + heard
      ensures !ok ==> Pending() == old(Pending())
      ensures old(Pending()) != [] ==> w.sent == old(w.sent) && heard == []
    {
      heard := [];
      if |data| == 0 {
        return true, 0, heard;
      }
      if ring.count > 0 {
        ok := Enqueue(data);
        taken := if ok then |data| else 0;
        Rejoined(w.sent + old(Pending()), data, 0);
        Assoc(w.sent, old(Pending()), data);
        return;
      }
      ok, taken, heard := WriteDirect(w, data);
    }

    /** The queue is empty: the descriptor gets the data first. */
    method WriteDirect(w: Wire, data: seq<Byte>) returns (ok: bool, ghost taken: nat, ghost heard: seq<WriteResult>)
      requires Valid() && ring.count == 0 && data != []
      modifies this, ring, ring.slots, w
      ensures Valid() && (ring.slots == old(ring.slots) || fresh(ring.slots))
      ensures Settles(data, 0, |Pending()|, ok, taken, heard)
      ensures |old(Pending())| == 0 && w.sent + Pending() == old(w.sent) + data[..taken]
      ensures w.answers == old(w.answers) + heard
      ensures !ok ==> |Pending()| == 0
    {
      var written, blocked;
      written, blocked, heard := WriteThrough(w, data);
      if blocked {
        ok := Enqueue(data[written..]);
        taken := if ok then |data| else written;
        Rejoined(old(w.sent), data, written);
      } else {
        ok, taken := written == |data|, written;
      }
    }

    /** Writes straight to the descriptor until everything is taken, the descriptor
        would block, or it refuses. */
    method WriteThrough(w: Wire, data: seq<Byte>) returns (written: nat, blocked: bool, ghost heard: seq<WriteResult>)
      modifies w
      ensures written <= |data| && w.sent == old(w.sent) + data[..written]
      ensures w.answers == old(w.answers) + heard && Patient(heard)
      ensures blocked <==> Blocked(heard)
      ensures Refused(heard) <==> !blocked && written < |data|
      ensures blocked ==> written < |data|
    {
      written, heard := 0, [];
      while written < |data|
        invariant written <= |data| && w.sent == old(w.sent) + data[..written]
        invariant w.answers == old(w.answers) + heard && Takes(heard)
      {
        var r := w.Write(data[written..]);
        Asked(heard, r);
        heard := heard + [r];
        if r.WouldBlock? {
          return written, true, heard;
        }
        if r.Failed? || r.n == 0 {
          return written, false, heard;
        }
        assert data[..written] + data[written..][..r.n] == data[..written + r.n];
        written := written + r.n;
      }
      NeverStopped(heard);
      blocked := false;
    }

    /** Sends queued bytes until the queue is empty or the descriptor stops taking. */
    method Flush(w: Wire) returns (r: FlushResult, ghost heard: seq<WriteResult>)
      requires Valid()
      modifies this, ring, ring.slots, w
      ensures Valid() && ring.slots == old(ring.slots)
      ensures w.sent + Pending() == old(w.sent + Pending())
      ensures old(w.sent) <= w.sent
      ensures w.answers == old(w.answers) + heard && Patient(heard)
      ensures r.Drained? <==> Pending() == []
      ensures r.MorePending? <==> Blocked(heard)
      ensures r.Broken? <==> Refused(heard)
    {
      heard := [];
      while ring.count > 0
        invariant Valid() && ring.slots == old(ring.slots)
        invariant w.sent + Pending() == old(w.sent + Pending()) && old(w.sent) <= w.sent
        invariant w.answers == old(w.answers) + heard && Takes(heard)
        decreases totalBytes
      {
        var e := ring.At(0);
        var res := w.Write(e.Rest());
        Asked(heard, res);
        heard := heard + [res];
        match res
        case WouldBlock => return MorePending, heard;
        case Failed => return Broken, heard;
        case Wrote(n) =>
          if n == 0 {
            return Broken, heard;
          }
          TookFront(e, n);
          Assoc(w.sent[..|w.sent| - n], e.Rest()[..n], Pending());
      }
      NeverStopped(heard);
      return Drained, heard;
    }

    /** The wire has taken the next `n` bytes of the front entry. */
    method TookFront(e: Entry, n: nat)
      requires Valid() && 0 < ring.count && e == ring.view[0] && 0 < n <= |e.Rest()|
      modifies this, ring, ring.slots
      ensures Valid() && ring.slots == old(ring.slots)
      ensures old(Pending()) == e.Rest()[..n] + Pending()
    {
      UnsentTake(ring.view, n);
      var e' := e.(offset := e.offset + n);
      totalBytes := totalBytes - n;
      if e'.offset >= |e'.data| {
        ring.Pop(BLANK);
      } else {
        ring.SetAt(0, e');
      }
    }
  }

  datatype Call = Send(data: seq<Byte>) | FlushQueue

  /** What one call met and did: the queue before and after it, what the call made the
      queue answerable for, and what the descriptor answered meanwhile. */
  datatype Account = Account(ok: bool, before: nat, after: nat, taken: seq<Byte>, heard: seq<WriteResult>)

  /** All of an accepted write, at most a leaked prefix of a rejected one, and nothing for a
      flush; and a call fails only for cause. */
  ghost predicate Answers(c: Call, a: Account) {
    match c
    case Send(data) => |a.taken| <= |data| && a.taken == data[..|a.taken|] && Settles(data, a.before, a.after, a.ok, |a.taken|, a.heard)
    case FlushQueue => |a.taken| == 0 && Patient(a.heard) && (a.ok <==> !Refused(a.heard))
  }

  method Step(q: LinkQueue, w: Wire, c: Call) returns (ghost a: Account, ok: bool)
    requires q.Valid()
    modifies q, q.ring, q.ring.slots, w
    ensures q.Valid() && (q.ring.slots == old(q.ring.slots) || fresh(q.ring.slots))
    ensures Answers(c, a) && ok == a.ok && a.before == |old(q.Pending())| && a.after == |q.Pending()|
    ensures w.sent + q.Pending() == old(w.sent + q.Pending()) + a.taken
    ensures w.answers == old(w.answers) + a.heard
  {
    ghost var before := |q.Pending()|;
    ghost var heard;
    match c
    case Send(data) =>
      ghost var n;
      ok, n, heard := q.Write(w, data);
      a := Account(ok, before, |q.Pending()|, data[..n], heard);
    case FlushQueue =>
      var r;
      r, heard := q.Flush(w);
      ok := !r.Broken?;
      a := Account(ok, before, |q.Pending()|, [], heard);
  }

  /** The accounts follow on one another, the last one leaving `now` bytes. */
  ghost predicate InTurn(accounts: seq<Account>, now: nat) {
    if accounts == [] then now == 0
    else
      var last := accounts[|accounts| - 1];
      last.after == now && InTurn(accounts[..|accounts| - 1], last.before)
  }

  ghost function AllTaken(accounts: seq<Account>): seq<Byte> {
    if accounts == [] then [] else AllTaken(accounts[..|accounts| - 1]) + accounts[|accounts| - 1].taken
  }

  ghost function AllHeard(accounts: seq<Account>): seq<WriteResult> {
    if accounts == [] then [] else AllHeard(accounts[..|accounts| - 1]) + accounts[|accounts| - 1].heard
  }

  /** Everything that came out of a run up to now. */
  ghost predicate Balance(accounts: seq<Account>, out: seq<Byte>, answers: seq<WriteResult>, now: nat) {
    out == AllTaken(accounts) && answers == AllHeard(accounts) && InTurn(accounts, now)
  }

  lemma {:induction false} BalanceMore(accounts: seq<Account>, out: seq<Byte>, answers: seq<WriteResult>, a: Account)
    requires Balance(accounts, out, answers, a.before)
    ensures Balance(accounts + [a], out + a.taken, answers + a.heard, a.after)
  {
    assert (accounts + [a])[..|accounts|] == accounts;
  }

  /** Conservation over any run of writes and flushes, whatever the descriptor does: bytes
      sent and bytes queued are what the calls took, and every call that failed had cause. */
  method Run(q: LinkQueue, w: Wire, script: seq<Call>) returns (oks: seq<bool>, ghost accounts: seq<Account>)
    requires q.Valid() && q.Pending() == [] && w.sent == [] && w.answers == []
    modifies q, q.ring, q.ring.slots, w
    ensures q.Valid() && |oks| == |accounts| == |script|
    ensures forall i :: 0 <= i < |script| ==> Answers(script[i], accounts[i]) && oks[i] == accounts[i].ok
    ensures Balance(accounts, w.sent + q.Pending(), w.answers, |q.Pending()|)
    ensures q.totalBytes == |q.Pending()| <= MAX_BYTES
  {
    oks, accounts := [], [];
    for i := 0 to |script|
      invariant q.Valid() && |oks| == |accounts| == i
      invariant q.ring.slots == old(q.ring.slots) || fresh(q.ring.slots)
      invariant forall k :: 0 <= k < i ==> Answers(script[k], accounts[k]) && oks[k] == accounts[k].ok
      invariant Balance(accounts, w.sent + q.Pending(), w.answers, |q.Pending()|)
    {
      ghost var out, answers := w.sent + q.Pending(), w.answers;
      ghost var a;
      var ok;
      a, ok := Step(q, w, script[i]);
      BalanceMore(accounts, out, answers, a);
      oks, accounts := oks + [ok], accounts + [a];
    }
  }
}
