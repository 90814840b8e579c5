/** A client's outgoing queue (src/client.c): a ring of encoded lines, sent with
    partial writes, in which back-to-back output messages may be merged into one.

    Merging keeps the meaning of the stream: bytes on the wire followed by bytes
    still queued are whole lines, one per group of accepted messages, where only
    adjacent output messages share a group. */
module ClientQueue {
  import opened Bytes
  import opened Protocol
  import opened Wire
  import Ring

  const QUEUE_SIZE := 256
  const COALESCE_MAX_BYTES := 16384

  /** The 15 bytes {"type":"output */
  const OUTPUT_PREFIX: seq<Byte> := [123, 34, 116, 121, 112, 101, 34, 58, 34, 111, 117, 116, 112, 117, 116]

  predicate LineIsOutput(line: seq<Byte>) { OUTPUT_PREFIX <= line }

  /** A queued line; `shared` marks one owned jointly with other clients' queues. */
  datatype Entry = Entry(data: seq<Byte>, shared: bool, offset: nat)

  const BLANK := Entry([], false, 0)

  // ----- Groups of accepted messages -----

  /** One message alone, or two and more output messages. */
  ghost predicate GroupOk(g: seq<Msg>) {
    g != [] && (|g| > 1 ==> forall i :: 0 <= i < |g| ==> g[i].Output?)
  }

  function Merge(a: Msg, b: Msg): Msg
    requires a.Output? && b.Output?
  {
    Output(a.data + b.data, b.timestamp)
  }

  /** The message sent for a group. */
  ghost function Merged(g: seq<Msg>): (m: Msg)
    requires GroupOk(g)
    ensures m.Output? <==> forall i :: 0 <= i < |g| ==> g[i].Output?
    ensures m.Output? && g[|g| - 1].Output? ==> m.timestamp == g[|g| - 1].timestamp
  {
    if |g| == 1 then g[0] else Merge(Merged(g[..|g| - 1]), g[|g| - 1])
  }

  /** `emitted` are the messages sent for `groups`, one each. */
  ghost predicate Carries(emitted: seq<Msg>, groups: seq<seq<Msg>>) {
    && |emitted| == |groups|
    && forall i :: 0 <= i < |groups| ==> GroupOk(groups[i]) && emitted[i] == Merged(groups[i])
  }

  /** What a reader of the stream learns: every byte of output, and every other
      message, in order. */
  datatype Item = OutputByte(b: Byte) | Message(m: Msg)

  ghost function Meaning(m: Msg): seq<Item> {
    if m.Output? then seq(|m.data|, i requires 0 <= i < |m.data| => OutputByte(m.data[i])) else [Message(m)]
  }

  ghost function Meanings(ms: seq<Msg>): seq<Item> {
    if ms == [] then [] else Meanings(ms[..|ms| - 1]) + Meaning(ms[|ms| - 1])
  }

  lemma {:induction false} MeaningsAppend(a: seq<Msg>, b: seq<Msg>)
    ensures Meanings(a + b) == Meanings(a) + Meanings(b)
  {
    if b == [] {
      assert a + b == a;
    } else {
      var n := |b| - 1;
      calc {
        Meanings(a + b);
        { assert (a + b)[..|a + b| - 1] == a + b[..n]; }
        Meanings(a + b[..n]) + Meaning(b[n]);
        { MeaningsAppend(a, b[..n]); }
        (Meanings(a) + Meanings(b[..n])) + Meaning(b[n]);
        { Assoc(Meanings(a), Meanings(b[..n]), Meaning(b[n])); }
        Meanings(a) + Meanings(b);
      }
    }
  }

  lemma {:induction false} GroupMeaning(g: seq<Msg>)
    requires GroupOk(g)
    ensures Meaning(Merged(g)) == Meanings(g)
    decreases |g|
  {
    var n := |g| - 1;
    if n == 0 {
      assert g[..0] == [];
    } else {
      var a, b := Merged(g[..n]), g[n];
      GroupMeaning(g[..n]);
      assert Meaning(Merge(a, b)) == Meaning(a) + Meaning(b);
    }
  }

  /** Coalescing preserves meaning: the merged messages say exactly what the
      accepted ones said, in the same order. */
  lemma {:induction false} CoalescingPreservesMeaning(emitted: seq<Msg>, groups: seq<seq<Msg>>)
    requires Carries(emitted, groups)
    ensures Meanings(emitted) == Meanings(Concat(groups))
    decreases |groups|
  {
    if groups != [] {
      var n := |groups| - 1;
      var init, g := groups[..n], groups[n];
      assert groups == init + [g];
      CoalescingPreservesMeaning(emitted[..n], init);
      ConcatSnoc(init, g);
      MeaningsAppend(Concat(init), g);
      GroupMeaning(g);
    }
  }

  ghost function Lines(c: Codec, ms: seq<Msg>): seq<Byte> {
    if ms == [] then [] else Lines(c, ms[..|ms| - 1]) + c.encode(ms[|ms| - 1])
  }

  // ----- The queue against the messages it carries -----

  /** The queued lines are those of the messages from `done` on, and only the front
      one may be partly written. */
  ghost predicate Mirrors(c: Codec, view: seq<Entry>, emitted: seq<Msg>, done: nat) {
    && done + |view| == |emitted|
    && (forall i :: 0 <= i < |view| ==> view[i].data == c.encode(emitted[done + i]))
    && (forall i :: 0 < i < |view| ==> view[i].offset == 0)
    && (view != [] ==> view[0].offset < |view[0].data|)
  }

  /** The bytes written so far: every finished line, and the front of the next. */
  ghost function Written(c: Codec, view: seq<Entry>, emitted: seq<Msg>, done: nat): seq<Byte>
    requires Mirrors(c, view, emitted, done)
  {
    Lines(c, emitted[..done]) + if view == [] then [] else view[0].data[..view[0].offset]
  }

  ghost function Unsent(view: seq<Entry>): seq<Byte>
    requires forall i :: 0 <= i < |view| ==> view[i].offset <= |view[i].data|
  {
    if view == [] then [] else Unsent(view[..|view| - 1]) + view[|view| - 1].data[view[|view| - 1].offset..]
  }

  /** Written bytes followed by queued bytes are exactly the lines of all messages. */
  lemma {:induction false} WholeLines(c: Codec, view: seq<Entry>, emitted: seq<Msg>, done: nat)
    requires Mirrors(c, view, emitted, done)
    ensures Written(c, view, emitted, done) + Unsent(view) == Lines(c, emitted)
    decreases |view|
  {
    if view == [] {
      assert emitted[..done] == emitted;
    } else if |view| == 1 {
      OneLine(c, view, emitted, done);
    } else {
      var n := |view| - 1;
      LastLine(c, view, emitted, done, n, emitted[..done + n]);
      WholeLines(c, view[..n], emitted[..done + n], done);
      Assoc(Written(c, view, emitted, done), Unsent(view[..n]), view[n].data);
    }
  }

  /** A last line that is not the front one is unsent as a whole. */
  lemma {:induction false} LastLine(c: Codec, view: seq<Entry>, emitted: seq<Msg>, done: nat, n: nat, init: seq<Msg>)
    requires Mirrors(c, view, emitted, done) && |view| > 1 && n == |view| - 1 && init == emitted[..done + n]
    ensures Mirrors(c, view[..n], init, done)
    ensures Written(c, view[..n], init, done) == Written(c, view, emitted, done)
    ensures Unsent(view) == Unsent(view[..n]) + view[n].data
    ensures Lines(c, emitted) == Lines(c, init) + view[n].data
  {
    assert init[..done] == emitted[..done];
    LastUnsent(view, n);
    LastEmitted(c, emitted, done + n);
  }

  lemma {:induction false} LastUnsent(view: seq<Entry>, n: nat)
    requires n + 1 == |view| && (forall i :: 0 <= i < |view| ==> view[i].offset <= |view[i].data|) && view[n].offset == 0
    ensures Unsent(view) == Unsent(view[..n]) + view[n].data
  {
    assert view[n].data[0..] == view[n].data;
  }

  lemma {:induction false} LastEmitted(c: Codec, emitted: seq<Msg>, n: nat)
    requires n + 1 == |emitted|
    ensures Lines(c, emitted) == Lines(c, emitted[..n]) + c.encode(emitted[n])
  {
  }

  lemma {:induction false} UnsentOne(view: seq<Entry>)
    requires |view| == 1 && view[0].offset <= |view[0].data|
    ensures Unsent(view) == view[0].data[view[0].offset..]
  {
    var none := view[..0];
    assert |none| == 0;
  }

  lemma {:induction false} Rejoin(head: seq<Byte>, data: seq<Byte>, k: nat)
    requires k <= |data|
    ensures (head + data[..k]) + data[k..] == head + data
  {
  }

  lemma {:induction false} OneLine(c: Codec, view: seq<Entry>, emitted: seq<Msg>, done: nat)
    requires Mirrors(c, view, emitted, done) && |view| == 1
    ensures Written(c, view, emitted, done) + Unsent(view) == Lines(c, emitted)
  {
    assert emitted[..|emitted| - 1] == emitted[..done];
    UnsentOne(view);
    Rejoin(Lines(c, emitted[..done]), view[0].data, view[0].offset);
  }

  lemma {:induction false} PushMirrors(c: Codec, view: seq<Entry>, emitted: seq<Msg>, done: nat, m: Msg, e: Entry)
    requires Lawful(c) && Mirrors(c, view, emitted, done) && e.data == c.encode(m) && e.offset == 0
    ensures Mirrors(c, view + [e], emitted + [m], done)
    ensures Written(c, view + [e], emitted + [m], done) == Written(c, view, emitted, done)
  {
    assert (emitted + [m])[..done] == emitted[..done];
  }

  /** Replacing the last queued line before any of it is written. */
  lemma {:induction false} ReplaceMirrors(c: Codec, view: seq<Entry>, emitted: seq<Msg>, done: nat, m: Msg, e: Entry)
    requires Lawful(c) && Mirrors(c, view, emitted, done) && view != [] && view[|view| - 1].offset == 0
    requires e.data == c.encode(m) && e.offset == 0
    ensures Mirrors(c, view[|view| - 1 := e], emitted[|emitted| - 1 := m], done)
    ensures Written(c, view[|view| - 1 := e], emitted[|emitted| - 1 := m], done) == Written(c, view, emitted, done)
  {
    assert emitted[|emitted| - 1 := m][..done] == emitted[..done];
  }

  /** The wire took `n` more bytes of the front line, but not all of it. */
  lemma {:induction false} AdvanceMirrors(c: Codec, view: seq<Entry>, emitted: seq<Msg>, done: nat, n: nat)
    requires Mirrors(c, view, emitted, done) && view != [] && view[0].offset + n < |view[0].data|
    ensures var view' := view[0 := view[0].(offset := view[0].offset + n)];
            && Mirrors(c, view', emitted, done)
            && Written(c, view', emitted, done) == Written(c, view, emitted, done) + view[0].data[view[0].offset..][..n]
  {
    var e := view[0];
    assert e.data[..e.offset + n] == e.data[..e.offset] + e.data[e.offset..][..n];
    Assoc(Lines(c, emitted[..done]), e.data[..e.offset], e.data[e.offset..][..n]);
  }

  /** The wire took the rest of the front line. */
  lemma {:induction false} FinishMirrors(c: Codec, view: seq<Entry>, emitted: seq<Msg>, done: nat)
    requires Lawful(c) && Mirrors(c, view, emitted, done) && view != []
    ensures Mirrors(c, view[1..], emitted, done + 1)
    ensures Written(c, view[1..], emitted, done + 1)
         == Written(c, view, emitted, done) + view[0].data[view[0].offset..]
  {
    var e := view[0];
    var front, back := e.data[..e.offset], e.data[e.offset..];
    assert emitted[..done + 1][..done] == emitted[..done];
    Assoc(Lines(c, emitted[..done]), front, back);
    assert front + back == e.data;
    var rest := view[1..];
    assert rest != [] ==> rest[0] == view[1] && rest[0].data[..0] == [];
  }

  /** A line for `b` may be merged into the queued line for `a`: both are output, and the
      queued one is shared, unwritten and still short. */
  ghost predicate Mergeable(prev: Entry, line: seq<Byte>, a: Msg, b: Msg) {
    && prev.offset == 0 && prev.shared && |prev.data| < 16384
    && a.Output? && b.Output? && OUTPUT_PREFIX <= prev.data && OUTPUT_PREFIX <= line
  }

  /** The message a new line and the last queued one merge into, if they may. */
  function Coalesced(codec: Codec, prev: Entry, line: seq<Byte>): (r: Option<Msg>)
    ensures forall a, b :: Lawful(codec) && prev.data == codec.encode(a) && line == codec.encode(b) ==>
              r == if Mergeable(prev, line, a, b) then Some(Merge(a, b)) else None
  {
    if !LineIsOutput(line) || prev.offset != 0 || |prev.data| >= COALESCE_MAX_BYTES || !prev.shared
       || !LineIsOutput(prev.data) then None
    else
      match (codec.decode(prev.data), codec.decode(line))
      case (Some(Output(d, _)), Some(Output(d', ts))) => Some(Output(d + d', ts))
      case (_, _) => None
  }

  datatype FlushResult = Done | MorePending | Broken

  class ClientQueue {
    const codec: Codec
    const wire: Wire
    const ring: Ring.Circular<Entry>
    var drops: nat
    ghost var groups: seq<seq<Msg>>  // accepted messages, grouped by the line that carries them
    ghost var emitted: seq<Msg>      // the message of each line
    ghost var done: nat              // lines written completely

    ghost predicate Valid()
      reads this, ring, ring.slots, wire
    {
      && Queued()
      && wire.sent == Written(codec, ring.view, emitted, done)
    }

    ghost predicate Queued()
      reads this, ring, ring.slots
    {
      && Lawful(codec)
      && ring.Valid()
      && ring.slots.Length == QUEUE_SIZE
      && Mirrors(codec, ring.view, emitted, done)
      && Carries(emitted, groups)
      && Unshared()
    }

    /** No slot outside the live window holds on to a shared line. */
    ghost predicate Unshared()
      requires ring.Valid()
      reads ring, ring.slots
    {
      forall k: nat :: ring.Spare(k) ==> !ring.slots[k].shared
    }

    /** Lines of which at least one byte has been written. */
    ghost function Started(): nat
      reads this, ring
    {
      done + if ring.view != [] && ring.view[0].offset > 0 then 1 else 0
    }

    /** Whether a shared line for `m` goes into the last queued line. */
    ghost predicate Merges(m: Msg)
      requires Queued()
      reads this, ring, ring.slots
    {
      ring.view != [] && Mergeable(ring.view[|ring.view| - 1], codec.encode(m), emitted[|emitted| - 1], m)
    }

    constructor (codec: Codec, wire: Wire)
      requires Lawful(codec) && wire.sent == []
      ensures Valid() && groups == [] && drops == 0 && this.codec == codec && this.wire == wire
      ensures fresh(ring) && fresh(ring.slots)
    {
      this.codec, this.wire := codec, wire;
      ring := new Ring.Circular(QUEUE_SIZE, BLANK);
      drops, groups, emitted, done := 0, [], [], 0;
    }

    /** Queues a line of this client's own. The slot keeps whatever ownership mark
        it had, which is why spare slots must not carry one. */
    method Send(m: Msg) returns (ok: bool)
      requires Valid()
      modifies this, ring, ring.slots
      ensures Valid() && ring.slots == old(ring.slots)
      ensures ok <==> |old(ring.view)| < QUEUE_SIZE
      ensures groups == if ok then old(groups) + [[m]] else old(groups)
      ensures drops == old(drops) + (if ok then 0 else 1)
      ensures ok ==> |ring.view| == |old(ring.view)| + 1 && !ring.view[|ring.view| - 1].shared
    {
      if ring.count >= ring.slots.Length {
        drops := drops + 1;
        return false;
      }
      var slot := Ring.Slot(ring.slots.Length, ring.head, ring.count);
      assert ring.Spare(slot);
      Enqueue(m, ring.slots[slot].(data := codec.encode(m), offset := 0));
      return true;
    }

    method Enqueue(m: Msg, e: Entry)
      requires Valid() && ring.count < QUEUE_SIZE && e.data == codec.encode(m) && e.offset == 0
      modifies this`groups, this`emitted, ring, ring.slots
      ensures Valid() && ring.slots == old(ring.slots)
      ensures groups == old(groups) + [[m]] && ring.view == old(ring.view) + [e]
    {
      PushMirrors(codec, ring.view, emitted, done, m, e);
      ring.Push(e);
      groups, emitted := groups + [[m]], emitted + [m];
    }

    /** Queues a line shared with other clients, merging it into the last queued
        line when both are output and none of that line is written yet. */
    method SendShared(m: Msg) returns (ok: bool)
      requires Valid()
      modifies this, ring, ring.slots
      ensures Valid() && ring.slots == old(ring.slots)
      ensures Concat(groups) == Concat(old(groups)) + (if ok then [m] else [])
      ensures drops == old(drops) + (if ok then 0 else 1)
      ensures !ok ==> groups == old(groups)
      ensures ok <==> old(Merges(m)) || |old(ring.view)| < QUEUE_SIZE
      ensures |groups| == |old(groups)| + if ok && !old(Merges(m)) then 1 else 0
      ensures ok ==> ring.view != [] && ring.view[|ring.view| - 1].shared
      ensures old(Started()) <= |groups| && groups[..old(Started())] == old(groups)[..old(Started())]
    {
      var line := codec.encode(m);
      var merged := TryCoalesce(m, line);
      if merged {
        return true;
      }
      OneMoreGroup(groups, m, Started());
      ok := EnqueueShared(m, line);
    }

    /** Queues a shared line, if there is a slot for it. */
    method EnqueueShared(m: Msg, line: seq<Byte>) returns (ok: bool)
      requires Valid() && line == codec.encode(m)
      modifies this, ring, ring.slots
      ensures Valid() && ring.slots == old(ring.slots)
      ensures ok <==> |old(ring.view)| < QUEUE_SIZE
      ensures groups == if ok then old(groups) + [[m]] else old(groups)
      ensures drops == old(drops) + (if ok then 0 else 1)
      ensures ok ==> ring.view == old(ring.view) + [Entry(line, true, 0)]
    {
      if ring.count >= ring.slots.Length {
        drops := drops + 1;
        return false;
      }
      Enqueue(m, Entry(line, true, 0));
      return true;
    }

    method TryCoalesce(m: Msg, line: seq<Byte>) returns (merged: bool)
      requires Valid() && line == codec.encode(m)
      modifies this`groups, this`emitted, ring, ring.slots
      ensures Valid() && ring.slots == old(ring.slots)
      ensures !merged ==> groups == old(groups) && ring.view == old(ring.view)
      ensures merged <==> old(Merges(m))
      ensures merged ==>
                && Concat(groups) == Concat(old(groups)) + [m]
                && |groups| == |old(groups)| > old(Started())
                && ring.view != [] && ring.view[|ring.view| - 1].shared
                && groups[..old(Started())] == old(groups)[..old(Started())]
    {
      if ring.count == 0 {
        return false;
      }
      var prev := ring.At(ring.count - 1);
      var both := Coalesced(codec, prev, line);
      if both.None? {
        return false;
      }
      ReplaceLast(m, both.value, prev.(data := codec.encode(both.value), offset := 0));
      ghost var k := |groups| - 1;
      assert groups[..old(Started())] == groups[..k][..old(Started())];
      assert old(groups)[..old(Started())] == old(groups)[..k][..old(Started())];
      return true;
    }

    method ReplaceLast(m: Msg, both: Msg, e: Entry)
      requires Valid() && ring.view != [] && ring.view[|ring.view| - 1].offset == 0
      requires m.Output? && emitted[|emitted| - 1].Output? && both == Merge(emitted[|emitted| - 1], m)
      requires e.data == codec.encode(both) && e.offset == 0
      modifies this`groups, this`emitted, ring, ring.slots
      ensures Valid() && ring.slots == old(ring.slots)
      ensures Concat(groups) == Concat(old(groups)) + [m]
      ensures |groups| == |old(groups)| && groups[..|groups| - 1] == old(groups)[..|groups| - 1]
      ensures ring.view == old(ring.view)[|old(ring.view)| - 1 := e]
    {
      ghost var view' := ring.view[|ring.view| - 1 := e];
      ghost var groups', emitted' := Replaced(codec, ring.view, view', emitted, groups, done, m, e);
      Put(ring.count - 1, e);
      Recarry(view', groups', emitted');
    }

    /** Notes which messages the queued lines now carry. */
    ghost method Recarry(view: seq<Entry>, newGroups: seq<seq<Msg>>, newEmitted: seq<Msg>)
      requires Lawful(codec) && ring.Valid() && ring.slots.Length == QUEUE_SIZE && Unshared() && ring.view == view
      requires Mirrors(codec, view, newEmitted, done) && Carries(newEmitted, newGroups)
      requires wire.sent == Written(codec, view, newEmitted, done)
      modifies this`groups, this`emitted
      ensures Valid() && groups == newGroups && emitted == newEmitted
    {
      groups, emitted := newGroups, newEmitted;
    }

    /** Writes queued lines until none are left or the socket stops taking. */
    method Flush() returns (r: FlushResult, ghost heard: seq<WriteResult>)
      requires Valid()
      modifies this, ring, ring.slots, wire
      ensures Valid() && ring.slots == old(ring.slots) && groups == old(groups) && drops == old(drops)
      ensures old(wire.sent) <= wire.sent
      ensures wire.answers == old(wire.answers) + heard && Patient(heard)
      ensures r.Done? ==> wire.sent == Lines(codec, emitted)
      ensures r.Done? <==> ring.view == []
      ensures r.MorePending? <==> Blocked(heard)
      ensures r.Broken? <==> Refused(heard)
    {
      heard := [];
      while ring.count > 0
        invariant wire.answers == old(wire.answers) + heard && Takes(heard)
        invariant Valid() && ring.slots == old(ring.slots) && groups == old(groups) && drops == old(drops)
        invariant old(wire.sent) <= wire.sent
        decreases ring.count, if ring.count > 0 then |ring.view[0].data| - ring.view[0].offset else 0
      {
        var e := ring.At(0);
        var res := wire.SocketWrite(e.data[e.offset..]);
        Asked(heard, res);
        heard := heard + [res];
        match res
        case WouldBlock => return MorePending, heard;
        case Failed => return Broken, heard;
        case Wrote(n) =>
          Took(e, n);
      }
      assert emitted[..done] == emitted;
      NeverStopped(heard);
      return Done, heard;
    }

    method Put(i: nat, e: Entry)
      requires ring.Valid() && Unshared() && i < ring.count
      modifies ring`view, ring.slots
      ensures ring.Valid() && Unshared() && ring.view == old(ring.view)[i := e]
    {
      ring.SetAt(i, e);
    }

    method Release(residue: Entry)
      requires ring.Valid() && Unshared() && 0 < ring.count && !residue.shared
      modifies ring`view, ring`head, ring`count, ring.slots
      ensures ring.Valid() && Unshared() && ring.view == old(ring.view)[1..]
    {
      ring.Pop(residue);
    }

    /** Accounts for `n` bytes of the front line just written. */
    method Took(e: Entry, n: nat)
      requires Queued() && ring.view != [] && e == ring.view[0] && 0 < n <= |e.data| - e.offset
      requires wire.sent == Written(codec, ring.view, emitted, done) + e.data[e.offset..][..n]
      modifies this`done, ring, ring.slots
      ensures Valid() && ring.slots == old(ring.slots)
      ensures if e.offset + n < |e.data| then ring.view == old(ring.view)[0 := e.(offset := e.offset + n)]
              else ring.view == old(ring.view)[1..]
    {
      ghost var was := ring.view;
      var e' := e.(offset := e.offset + n);
      if e'.offset >= |e'.data| {
        FinishMirrors(codec, was, emitted, done);
        assert e.data[e.offset..][..n] == e.data[e.offset..];
        Release(e'.(data := [], shared := false));
        Settle(was[1..], done + 1);
      } else {
        AdvanceMirrors(codec, was, emitted, done, n);
        Put(0, e');
        Settle(was[0 := e'], done);
      }
    }

    /** Notes how many lines have been written completely. */
    ghost method Settle(view: seq<Entry>, lines: nat)
      requires Lawful(codec) && ring.Valid() && ring.slots.Length == QUEUE_SIZE && Unshared() && ring.view == view
      requires Mirrors(codec, view, emitted, lines) && Carries(emitted, groups)
      requires wire.sent == Written(codec, view, emitted, lines)
      modifies this`done
      ensures Valid() && done == lines
    {
      done := lines;
    }
  }

  lemma {:induction false} OneMoreGroup(groups: seq<seq<Msg>>, m: Msg, k: nat)
    requires k <= |groups|
    ensures Concat(groups + [[m]]) == Concat(groups) + [m] && (groups + [[m]])[..k] == groups[..k]
  {
    ConcatSnoc(groups, [m]);
  }

  lemma {:induction false} GrowGroup(g: seq<Msg>, m: Msg)
    requires GroupOk(g) && Merged(g).Output? && m.Output?
    ensures GroupOk(g + [m]) && Merged(g + [m]) == Merge(Merged(g), m)
  {
    assert (g + [m])[..|g|] == g;
  }

  /** The last group takes in one more output message. */
  lemma {:induction false} GrowLast(emitted: seq<Msg>, groups: seq<seq<Msg>>, m: Msg)
    requires Carries(emitted, groups) && groups != [] && emitted[|emitted| - 1].Output? && m.Output?
    ensures var k := |groups| - 1;
            && Carries(emitted[k := Merge(emitted[k], m)], groups[k := groups[k] + [m]])
            && Concat(groups[k := groups[k] + [m]]) == Concat(groups) + [m]
            && groups[k := groups[k] + [m]][..k] == groups[..k]
  {
    var k := |groups| - 1;
    GrowGroup(groups[k], m);
    assert groups == groups[..k] + [groups[k]];
    assert groups[k := groups[k] + [m]] == groups[..k] + [groups[k] + [m]];
    ConcatSnoc(groups[..k], groups[k]);
    ConcatSnoc(groups[..k], groups[k] + [m]);
    Assoc(Concat(groups[..k]), groups[k], [m]);
  }

  lemma {:induction false} Replaced(c: Codec, view: seq<Entry>, view': seq<Entry>, emitted: seq<Msg>, groups: seq<seq<Msg>>, done: nat, m: Msg, e: Entry)
    returns (groups': seq<seq<Msg>>, emitted': seq<Msg>)
    requires Lawful(c) && Mirrors(c, view, emitted, done) && Carries(emitted, groups)
    requires view != [] && view[|view| - 1].offset == 0 && m.Output? && emitted[|emitted| - 1].Output?
    requires e.data == c.encode(Merge(emitted[|emitted| - 1], m)) && e.offset == 0 && view' == view[|view| - 1 := e]
    ensures Mirrors(c, view', emitted', done) && Carries(emitted', groups')
    ensures Written(c, view', emitted', done) == Written(c, view, emitted, done)
    ensures Concat(groups') == Concat(groups) + [m]
    ensures |groups'| == |groups| && groups'[..|groups| - 1] == groups[..|groups| - 1]
  {
    var k := |groups| - 1;
    ReplaceMirrors(c, view, emitted, done, Merge(emitted[k], m), e);
    GrowLast(emitted, groups, m);
    groups', emitted' := groups[k := groups[k] + [m]], emitted[k := Merge(emitted[k], m)];
  }

  datatype Call = Own(m: Msg) | Broadcast(m: Msg) | FlushQueue

  /** The messages among the calls that were answered with success. */
  ghost function Accepted(script: seq<Call>, oks: seq<bool>): seq<Msg>
    requires |script| == |oks|
  {
    if script == [] then []
    else
      var n := |script| - 1;
      Accepted(script[..n], oks[..n]) + if script[n].FlushQueue? || !oks[n] then [] else [script[n].m]
  }

  /** How many messages were turned away. */
  ghost function Rejected(script: seq<Call>, oks: seq<bool>): nat
    requires |script| == |oks|
  {
    if script == [] then 0
    else
      var n := |script| - 1;
      Rejected(script[..n], oks[..n]) + if script[n].FlushQueue? || oks[n] then 0 else 1
  }

  lemma {:induction false} OneMore(script: seq<Call>, oks: seq<bool>, i: nat, ok: bool)
    requires i < |script| && |oks| == i
    ensures script[..i + 1][..i] == script[..i] && (oks + [ok])[..i] == oks
  {
  }

  /** Any interleaving of sends, broadcasts and partial flushes: what is on the wire
      and in the queue is whole lines that mean exactly what was accepted, and what
      was not accepted is counted as dropped. */
  method Run(codec: Codec, script: seq<Call>) returns (q: ClientQueue, oks: seq<bool>)
    requires Lawful(codec)
    ensures fresh(q) && q.Valid() && q.codec == codec && |oks| == |script|
    ensures q.wire.sent + Unsent(q.ring.view) == Lines(codec, q.emitted)
    ensures Meanings(q.emitted) == Meanings(Accepted(script, oks)) && q.drops == Rejected(script, oks)
  {
    var w := new Wire();
    q := new ClientQueue(codec, w);
    oks := [];
    for i := 0 to |script|
      invariant fresh(q) && fresh(q.ring) && fresh(q.ring.slots) && fresh(q.wire) && |oks| == i
      invariant q.Valid() && q.codec == codec
      invariant Concat(q.groups) == Accepted(script[..i], oks) && q.drops == Rejected(script[..i], oks)
    {
      var ok := Step(q, script[i]);
      OneMore(script, oks, i, ok);
      oks := oks + [ok];
    }
    assert script[..|script|] == script;
    WholeLines(codec, q.ring.view, q.emitted, q.done);
    CoalescingPreservesMeaning(q.emitted, q.groups);
  }

  method Step(q: ClientQueue, c: Call) returns (ok: bool)
    requires q.Valid()
    modifies q, q.ring, q.ring.slots, q.wire
    ensures q.Valid() && q.ring.slots == old(q.ring.slots)
    ensures Concat(q.groups) == Concat(old(q.groups)) + if c.FlushQueue? || !ok then [] else [c.m]
    ensures q.drops == old(q.drops) + if c.FlushQueue? || ok then 0 else 1
  {
    match c
    case Own(m) =>
      ok := q.Send(m);
      ConcatSnoc(old(q.groups), [m]);
    case Broadcast(m) =>
      ok := q.SendShared(m);
    case FlushQueue =>
      var r, _ := q.Flush();
      ok := !r.Broken?;
  }
}
