/** The table of pending expects (src/expect.c): an array edited by swap-remove.

    Requests are conserved: every accepted request gets a ticket, and at any time
    each ticket is exactly one of pending, collected and cancelled. */
module ExpectEngine {
  import opened Bytes
  import opened Patterns
  import opened Expect

  /** The part of a request that no feeding changes. */
  datatype Key = Key(id: string, client: Owner, pattern: Pattern)

  ghost function KeyOf(r: Request): Key { Key(r.id, r.client, r.pattern) }

  ghost function Holds(r: Request, client: Owner): nat { if r.client == client then 1 else 0 }

  /** How many of the requests belong to a client. */
  ghost function Count(rs: seq<Request>, client: Owner): nat {
    if rs == [] then 0 else Count(rs[..|rs| - 1], client) + Holds(rs[|rs| - 1], client)
  }

  ghost predicate Limited(rs: seq<Request>) {
    forall c :: Count(rs, c) <= MAX_PER_CLIENT
  }

  ghost predicate Sized(rs: seq<Request>) {
    forall i :: 0 <= i < |rs| ==> rs[i].searchOffset <= |rs[i].buffer| <= MAX_BUF && |rs[i].id| <= FIELD_MAX
  }

  function SwapRemove<T>(s: seq<T>, i: nat): (r: seq<T>)
    requires i < |s|
    ensures |r| == |s| - 1
  {
    s[i := s[|s| - 1]][..|s| - 1]
  }

  lemma {:induction false} SwapRemoveMultiset<T>(s: seq<T>, i: nat)
    requires i < |s|
    ensures multiset(s) == multiset(SwapRemove(s, i)) + multiset{s[i]}
  {
    var n := |s| - 1;
    var swapped := s[i := s[n]];
    assert swapped == SwapRemove(s, i) + [s[n]];
    assert multiset(swapped) == multiset(s) - multiset{s[i]} + multiset{s[n]};
    assert multiset(swapped) == multiset(SwapRemove(s, i)) + multiset{s[n]};
    assert s[i] in multiset(s);
  }

  lemma {:induction false} CountPush(rs: seq<Request>, r: Request, c: Owner)
    ensures Count(rs + [r], c) == Count(rs, c) + Holds(r, c)
  {
    assert (rs + [r])[..|rs|] == rs;
  }

  lemma {:induction false} CountReplace(rs: seq<Request>, i: nat, r: Request, c: Owner)
    requires i < |rs|
    ensures Count(rs[i := r], c) + Holds(rs[i], c) == Count(rs, c) + Holds(r, c)
    decreases |rs|
  {
    var n := |rs| - 1;
    if i < n {
      assert rs[i := r][..n] == rs[..n][i := r];
      CountReplace(rs[..n], i, r, c);
    } else {
      assert rs[i := r][..n] == rs[..n];
    }
  }

  lemma {:induction false} SwapRemoveLimited(rs: seq<Request>, i: nat)
    requires i < |rs| && Limited(rs)
    ensures Limited(SwapRemove(rs, i))
  {
    forall c ensures Count(SwapRemove(rs, i), c) <= MAX_PER_CLIENT {
      CountReplace(rs, i, rs[|rs| - 1], c);
      assert Count(rs[i := rs[|rs| - 1]], c) == Count(SwapRemove(rs, i), c) + Holds(rs[|rs| - 1], c);
      assert Count(rs, c) <= MAX_PER_CLIENT;
    }
  }

  lemma {:induction false} CountSame(rs: seq<Request>, rs': seq<Request>, c: Owner)
    requires |rs| == |rs'| && forall i :: 0 <= i < |rs| ==> rs[i].client == rs'[i].client
    ensures Count(rs, c) == Count(rs', c)
    decreases |rs|
  {
    if rs != [] {
      CountSame(rs[..|rs| - 1], rs'[..|rs| - 1], c);
    }
  }

  /** Requests alongside their tickets, as the book has them. */
  ghost predicate Booked(rs: seq<Request>, tickets: seq<nat>, book: seq<Key>) {
    && |rs| == |tickets|
    && forall i :: 0 <= i < |rs| ==> tickets[i] < |book| && book[tickets[i]] == KeyOf(rs[i])
  }

  /** Moving one element between two lists by swap-remove loses and gains nothing. */
  lemma {:induction false} MoveMultiset<T>(rest: seq<T>, out: seq<T>, i: nat)
    requires i < |rest|
    ensures multiset(SwapRemove(rest, i)) + multiset(out + [rest[i]]) == multiset(rest) + multiset(out)
  {
    SwapRemoveMultiset(rest, i);
  }

  lemma {:induction false} MoveBooked(rest: seq<Request>, left: seq<nat>, out: seq<Request>, gone: seq<nat>, book: seq<Key>, i: nat)
    requires Booked(rest, left, book) && Booked(out, gone, book) && i < |rest|
    ensures Booked(SwapRemove(rest, i), SwapRemove(left, i), book)
    ensures Booked(out + [rest[i]], gone + [left[i]], book)
    ensures Sized(rest) ==> Sized(SwapRemove(rest, i))
  {
  }

  /** A request alongside its ticket, as they stand in a table. */
  ghost predicate Paired(r: Request, t: nat, rs: seq<Request>, tickets: seq<nat>)
    requires |rs| == |tickets|
  {
    exists j :: 0 <= j < |rs| && rs[j] == r && tickets[j] == t
  }

  ghost predicate AllPaired(rest: seq<Request>, left: seq<nat>, rs: seq<Request>, tickets: seq<nat>)
    requires |rs| == |tickets| && |rest| == |left|
  {
    forall i :: 0 <= i < |rest| ==> Paired(rest[i], left[i], rs, tickets)
  }

  ghost predicate AllSelected(rs: seq<Request>, selects: Request -> bool) {
    forall i :: 0 <= i < |rs| ==> selects(rs[i])
  }

  ghost predicate NoneSelected(rs: seq<Request>, selects: Request -> bool) {
    forall i :: 0 <= i < |rs| ==> !selects(rs[i])
  }

  /** A table and a list of taken-out requests that together make up a former table. */
  ghost predicate Parts(rs: seq<Request>, tickets: seq<nat>, book: seq<Key>,
                        rest: seq<Request>, left: seq<nat>, out: seq<Request>, gone: seq<nat>)
  {
    && |rest| + |out| == |rs| == |tickets|
    && Booked(rest, left, book) && Booked(out, gone, book) && Sized(rest) && Limited(rest)
    && multiset(left) + multiset(gone) == multiset(tickets)
    && multiset(rest) + multiset(out) == multiset(rs)
    && AllPaired(rest, left, rs, tickets)
  }

  lemma {:induction false} NothingTaken(rs: seq<Request>, tickets: seq<nat>, book: seq<Key>, out: seq<Request>, gone: seq<nat>)
    requires Booked(rs, tickets, book) && Sized(rs) && Limited(rs) && |out| == |gone| == 0
    ensures Parts(rs, tickets, book, rs, tickets, out, gone)
  {
    forall i | 0 <= i < |rs| ensures Paired(rs[i], tickets[i], rs, tickets) {
    }
  }

  lemma {:induction false} PairedRest(rest: seq<Request>, left: seq<nat>, rs: seq<Request>, tickets: seq<nat>, i: nat)
    requires |rs| == |tickets| && |rest| == |left| && AllPaired(rest, left, rs, tickets) && i < |rest|
    ensures AllPaired(SwapRemove(rest, i), SwapRemove(left, i), rs, tickets)
  {
    var rest', left' := SwapRemove(rest, i), SwapRemove(left, i);
    forall k | 0 <= k < |rest'| ensures Paired(rest'[k], left'[k], rs, tickets) {
      var from := if k == i then |rest| - 1 else k;
      assert rest'[k] == rest[from] && left'[k] == left[from];
      assert Paired(rest[from], left[from], rs, tickets);
    }
  }

  lemma {:induction false} MoveParts(rs: seq<Request>, tickets: seq<nat>, book: seq<Key>,
                  rest: seq<Request>, left: seq<nat>, out: seq<Request>, gone: seq<nat>, i: nat)
    requires Parts(rs, tickets, book, rest, left, out, gone) && i < |rest|
    ensures Parts(rs, tickets, book, SwapRemove(rest, i), SwapRemove(left, i), out + [rest[i]], gone + [left[i]])
  {
    MoveMultiset(rest, out, i);
    MoveMultiset(left, gone, i);
    MoveBooked(rest, left, out, gone, book, i);
    SwapRemoveLimited(rest, i);
    PairedRest(rest, left, rs, tickets, i);
  }

  // ----- What the requests have seen -----

  /** A request with words of up to 257 bytes is matched iff its stream has one. */
  ghost predicate Keeps(r: Request, stream: seq<Byte>) { Short(r.pattern) ==> Tracks(r, stream) }

  /** The output fed since a position. */
  ghost function From(log: seq<Byte>, at: nat): seq<Byte> { if at <= |log| then log[at..] else [] }

  /** As far as no chunk was too long for it, every pending request has kept up with the
      output since it was added. */
  ghost predicate Following(rs: seq<Request>, tickets: seq<nat>, log: seq<Byte>, since: seq<nat>, largest: nat) {
    && |rs| == |tickets|
    && (forall i :: 0 <= i < |rs| ==> tickets[i] < |since|)
    && (forall t :: 0 <= t < |since| ==> since[t] <= |log|)
    && (largest <= MAX_BUF - LOOKBACK ==>
          forall i {:trigger Keeps(rs[i], From(log, since[tickets[i]]))} :: 0 <= i < |rs| ==> Keeps(rs[i], From(log, since[tickets[i]])))
  }

  lemma {:induction false} FollowingPart(rs: seq<Request>, tickets: seq<nat>, rest: seq<Request>, left: seq<nat>,
                      log: seq<Byte>, since: seq<nat>, largest: nat)
    requires Following(rs, tickets, log, since, largest) && |rest| == |left| && AllPaired(rest, left, rs, tickets)
    ensures Following(rest, left, log, since, largest)
  {
    forall i | 0 <= i < |rest|
      ensures left[i] < |since|
      ensures largest <= MAX_BUF - LOOKBACK ==> Keeps(rest[i], From(log, since[left[i]]))
    {
      assert Paired(rest[i], left[i], rs, tickets);
    }
  }

  lemma {:induction false} FromGrows(log: seq<Byte>, at: nat, data: seq<Byte>)
    requires at <= |log|
    ensures From(log + data, at) == From(log, at) + data
  {
  }

  lemma {:induction false} KeepsFed(r: Request, stream: seq<Byte>, data: seq<Byte>)
    requires Keeps(r, stream) && |data| <= MAX_BUF - LOOKBACK
    requires r.searchOffset <= |r.buffer| <= MAX_BUF
    ensures Keeps(FeedRequest(r, data), stream + data)
  {
    if Short(r.pattern) {
      FeedTracks(r, stream, data);
    }
  }

  lemma {:induction false} FollowingFed(rs: seq<Request>, tickets: seq<nat>, log: seq<Byte>, since: seq<nat>, largest: nat,
                     data: seq<Byte>, rs': seq<Request>)
    requires Following(rs, tickets, log, since, largest) && Sized(rs) && |rs'| == |rs|
    requires forall i :: 0 <= i < |rs| ==> rs'[i] == FeedRequest(rs[i], data)
    ensures Following(rs', tickets, log + data, since, Max(largest, |data|))
  {
    if Max(largest, |data|) <= MAX_BUF - LOOKBACK {
      forall i | 0 <= i < |rs'| ensures Keeps(rs'[i], From(log + data, since[tickets[i]])) {
        KeepsFed(rs[i], From(log, since[tickets[i]]), data);
        FromGrows(log, since[tickets[i]], data);
      }
    }
  }

  lemma {:induction false} KeepsAborted(r: Request, r': Request, stream: seq<Byte>)
    requires Keeps(r, stream) && r'.(aborted := r.aborted) == r
    ensures Keeps(r', stream)
  {
  }

  lemma {:induction false} FollowingAborted(rs: seq<Request>, tickets: seq<nat>, log: seq<Byte>, since: seq<nat>, largest: nat, rs': seq<Request>)
    requires Following(rs, tickets, log, since, largest) && |rs'| == |rs|
    requires forall i :: 0 <= i < |rs| ==> rs'[i].(aborted := rs[i].aborted) == rs[i]
    ensures Following(rs', tickets, log, since, largest)
  {
    if largest <= MAX_BUF - LOOKBACK {
      forall i | 0 <= i < |rs'| ensures Keeps(rs'[i], From(log, since[tickets[i]])) {
        KeepsAborted(rs[i], rs'[i], From(log, since[tickets[i]]));
      }
    }
  }

  lemma {:induction false} KeepsNew(r: Request, none: seq<Byte>)
    requires Unfed(r) && |none| == 0
    ensures Keeps(r, none)
  {
    if Short(r.pattern) {
      TooShort(r.pattern, none);
    }
  }

  lemma {:induction false} FollowingAdded(rs: seq<Request>, tickets: seq<nat>, log: seq<Byte>, since: seq<nat>, largest: nat, r: Request)
    requires Following(rs, tickets, log, since, largest) && Unfed(r)
    ensures Following(rs + [r], tickets + [|since|], log, since + [|log|], largest)
  {
    var rs', tickets', since' := rs + [r], tickets + [|since|], since + [|log|];
    forall i | 0 <= i < |rs'|
      ensures largest <= MAX_BUF - LOOKBACK ==> Keeps(rs'[i], From(log, since'[tickets'[i]]))
    {
      if i < |rs| {
        assert since'[tickets'[i]] == since[tickets[i]];
      } else {
        KeepsNew(r, From(log, |log|));
      }
    }
  }

  // ----- Which requests a cancellation leaves -----

  /** Exactly the requests under other ids are left. */
  ghost predicate WithoutId(before: seq<Request>, after: seq<Request>, id: string) {
    forall r: Request :: multiset(after)[r] == if r.id == id then 0 else multiset(before)[r]
  }

  /** Exactly the requests of other owners are left. */
  ghost predicate WithoutOwner(before: seq<Request>, after: seq<Request>, owner: Owner) {
    forall r: Request :: multiset(after)[r] == if r.client == owner then 0 else multiset(before)[r]
  }

  lemma {:induction false} LeftById(before: seq<Request>, freed: seq<Request>, after: seq<Request>, id: string)
    requires multiset(after) + multiset(freed) == multiset(before)
    requires forall i :: 0 <= i < |freed| ==> freed[i].id == id
    requires forall i :: 0 <= i < |after| ==> after[i].id != id
    ensures WithoutId(before, after, id)
  {
    forall r: Request ensures multiset(after)[r] == if r.id == id then 0 else multiset(before)[r] {
      assert multiset(before)[r] == multiset(after)[r] + multiset(freed)[r];
      if r.id == id {
        assert r !in after;
      } else {
        assert r !in freed;
      }
    }
  }

  lemma {:induction false} LeftByOwner(before: seq<Request>, freed: seq<Request>, after: seq<Request>, owner: Owner)
    requires multiset(after) + multiset(freed) == multiset(before)
    requires forall i :: 0 <= i < |freed| ==> freed[i].client == owner
    requires forall i :: 0 <= i < |after| ==> after[i].client != owner
    ensures WithoutOwner(before, after, owner)
  {
    forall r: Request ensures multiset(after)[r] == if r.client == owner then 0 else multiset(before)[r] {
      assert multiset(before)[r] == multiset(after)[r] + multiset(freed)[r];
      if r.client == owner {
        assert r !in after;
      } else {
        assert r !in freed;
      }
    }
  }

  /** An id longer than its field is never found: cancelling it leaves every request. */
  lemma {:induction false} LongIdCancelsNothing(before: seq<Request>, after: seq<Request>, id: string)
    requires Sized(before) && WithoutId(before, after, id) && |id| > FIELD_MAX
    ensures multiset(after) == multiset(before)
  {
    forall r: Request ensures multiset(after)[r] == multiset(before)[r] {
      if r.id == id {
        assert r !in before;
      }
    }
  }

  /** A request just made under `id` is gone after cancelling `id` iff the id was stored
      whole. */
  lemma {:induction false} OwnRequestGone(before: seq<Request>, r: Request, after: seq<Request>, id: string)
    requires r.id == Cut(id) && WithoutId(before + [r], after, id)
    ensures r !in after <==> |id| <= FIELD_MAX
  {
    var all := before + [r];
    assert r == all[|before|] && multiset(all)[r] > 0;
    assert multiset(after)[r] == if r.id == id then 0 else multiset(all)[r];
  }

  /** The swap-remove loop: takes out up to `maxOut` requests that the predicate
      selects, the last request filling each hole, and misses none unless it
      stopped short. */
  method TakeOut(rs: seq<Request>, selects: Request -> bool, maxOut: nat, ghost tickets: seq<nat>, ghost book: seq<Key>)
    returns (rest: seq<Request>, out: seq<Request>, ghost left: seq<nat>, ghost gone: seq<nat>)
    requires Booked(rs, tickets, book) && Sized(rs) && Limited(rs)
    ensures |out| <= maxOut && Parts(rs, tickets, book, rest, left, out, gone)
    ensures AllSelected(out, selects) && (|out| < maxOut ==> NoneSelected(rest, selects))
  {
    rest, out, left, gone := rs, [], tickets, [];
    NothingTaken(rs, tickets, book, out, gone);
    var i := 0;
    while i < |rest| && |out| < maxOut
      invariant i <= |rest| && |out| <= maxOut
      invariant Parts(rs, tickets, book, rest, left, out, gone)
      invariant forall k :: 0 <= k < |out| ==> selects(out[k])
      invariant forall k :: 0 <= k < i ==> !selects(rest[k])
      decreases |rest| - i
    {
      if selects(rest[i]) {
        MoveParts(rs, tickets, book, rest, left, out, gone, i);
        out, gone := out + [rest[i]], gone + [left[i]];
        rest, left := SwapRemove(rest, i), SwapRemove(left, i);
      } else {
        i := i + 1;
      }
    }
  }

  datatype AddResult = Added | Full | TooManyForClient | BadPattern

  /** Each of `n` tickets is exactly one of pending, collected and cancelled. */
  ghost predicate Fates(pending: seq<nat>, collected: multiset<nat>, cancelled: multiset<nat>, n: nat) {
    forall t: nat :: Places(pending, collected, cancelled, t) == if t < n then 1 else 0
  }

  /** In how many places a ticket is. */
  ghost function Places(pending: seq<nat>, collected: multiset<nat>, cancelled: multiset<nat>, t: nat): nat {
    multiset(pending)[t] + collected[t] + cancelled[t]
  }

  lemma {:induction false} FatesAdded(pending: seq<nat>, collected: multiset<nat>, cancelled: multiset<nat>, n: nat)
    requires Fates(pending, collected, cancelled, n)
    ensures Fates(pending + [n], collected, cancelled, n + 1)
  {
    forall t: nat ensures Places(pending + [n], collected, cancelled, t) == if t < n + 1 then 1 else 0 {
      assert multiset(pending + [n])[t] == multiset(pending)[t] + if t == n then 1 else 0;
      assert Places(pending, collected, cancelled, t) == if t < n then 1 else 0;
    }
  }

  lemma {:induction false} FatesTaken(pending: seq<nat>, collected: multiset<nat>, cancelled: multiset<nat>, n: nat, left: seq<nat>, gone: seq<nat>)
    requires Fates(pending, collected, cancelled, n) && multiset(left) + multiset(gone) == multiset(pending)
    ensures Fates(left, collected + multiset(gone), cancelled, n)
    ensures Fates(left, collected, cancelled + multiset(gone), n)
  {
    forall t: nat
      ensures Places(left, collected + multiset(gone), cancelled, t) == if t < n then 1 else 0
      ensures Places(left, collected, cancelled + multiset(gone), t) == if t < n then 1 else 0
    {
      assert multiset(pending)[t] == multiset(left)[t] + multiset(gone)[t];
      assert Places(pending, collected, cancelled, t) == if t < n then 1 else 0;
    }
  }

  /** The table is within its limits and in step with its tickets. */
  ghost predicate Filed(rs: seq<Request>, capacity: nat, tickets: seq<nat>, book: seq<Key>) {
    && |rs| <= capacity
    && Sized(rs) && Limited(rs)
    && Booked(rs, tickets, book)
  }

  lemma {:induction false} FiledAdded(rs: seq<Request>, capacity: nat, tickets: seq<nat>, book: seq<Key>, r: Request)
    requires Filed(rs, capacity, tickets, book) && |rs| < capacity && Count(rs, r.client) < MAX_PER_CLIENT
    requires r.searchOffset <= |r.buffer| <= MAX_BUF && |r.id| <= FIELD_MAX
    ensures Filed(rs + [r], capacity, tickets + [|book|], book + [KeyOf(r)])
  {
    forall c ensures Count(rs + [r], c) <= MAX_PER_CLIENT {
      CountPush(rs, r, c);
      assert Count(rs, c) <= MAX_PER_CLIENT;
    }
  }

  lemma {:induction false} PartsKept(rs: seq<Request>, capacity: nat, tickets: seq<nat>, book: seq<Key>,
                  rest: seq<Request>, left: seq<nat>, out: seq<Request>, gone: seq<nat>)
    requires Filed(rs, capacity, tickets, book) && Parts(rs, tickets, book, rest, left, out, gone)
    ensures Filed(rest, capacity, left, book) && |rest| + |out| == |rs|
    ensures multiset(left) + multiset(gone) == multiset(tickets) && multiset(rest) + multiset(out) == multiset(rs)
    ensures |rest| == |left| && |rs| == |tickets| && AllPaired(rest, left, rs, tickets)
  {
  }

  /** Feeding and aborting change no ownership. */
  lemma {:induction false} FiledSame(rs: seq<Request>, capacity: nat, tickets: seq<nat>, book: seq<Key>, rs': seq<Request>)
    requires Filed(rs, capacity, tickets, book) && |rs'| == |rs| && Sized(rs')
    requires forall i :: 0 <= i < |rs| ==> KeyOf(rs'[i]) == KeyOf(rs[i])
    ensures Filed(rs', capacity, tickets, book)
  {
    forall i | 0 <= i < |rs| ensures rs[i].client == rs'[i].client {
      assert KeyOf(rs'[i]) == KeyOf(rs[i]);
    }
    forall c ensures Count(rs', c) <= MAX_PER_CLIENT {
      CountSame(rs, rs', c);
      assert Count(rs, c) <= MAX_PER_CLIENT;
    }
  }

  /** The table doubles from 16 to exactly its limit. */
  /** Every request has seen one more chunk. */
  ghost predicate AllFed(before: seq<Request>, after: seq<Request>, data: seq<Byte>) {
    && Sized(before) && |after| == |before|
    && forall i {:trigger after[i]} :: 0 <= i < |after| ==> after[i] == FeedRequest(before[i], data)
  }

  /** Every request without a match is aborted. */
  ghost predicate AllAborted(before: seq<Request>, after: seq<Request>) {
    && |after| == |before|
    && forall i {:trigger after[i]} :: 0 <= i < |after| ==> after[i] == before[i].(aborted := before[i].aborted || !before[i].matched)
  }

  /** `out` are finished requests, at most `most`, and with fewer none is left. */
  ghost predicate Taken(before: seq<Request>, after: seq<Request>, out: seq<Request>, now: real, most: nat) {
    && |out| <= most && multiset(after) + multiset(out) == multiset(before)
    && (forall i :: 0 <= i < |out| ==> out[i].Done(now))
    && (|out| < most ==> forall i :: 0 <= i < |after| ==> !after[i].Done(now))
  }

  ghost predicate Collects(before: seq<Request>, after: seq<Request>, now: real, most: nat) {
    exists out: seq<Request> :: Taken(before, after, out, now, most)
  }

  ghost predicate Capacity(n: nat) { n == 0 || n == 16 || n == 32 || n == 64 || n == 128 || n == MAX_PENDING }

  class Engine {
    var requests: seq<Request>
    var capacity: nat
    ghost var book: seq<Key>              // every request ever accepted, by ticket
    ghost var pending: seq<nat>           // tickets of `requests`, in step with it
    ghost var collected: multiset<nat>
    ghost var cancelled: multiset<nat>
    ghost var log: seq<Byte>              // all output fed so far
    ghost var since: seq<nat>             // where in it each ticket was added
    ghost var largest: nat                // the longest chunk fed

    ghost predicate Valid()
      reads this
    {
      && Capacity(capacity) && Filed(requests, capacity, pending, book)
      && Fates(pending, collected, cancelled, |book|)
      && |since| == |book| && Following(requests, pending, log, since, largest)
    }

    /** Tickets and output are only ever added, and the fate of a ticket is final. */
    twostate predicate Grows()
      reads this
    {
      old(book) <= book && old(collected) <= collected && old(cancelled) <= cancelled && old(log) <= log
    }

    /** The same, and no output has come in between. */
    twostate predicate Quiet()
      reads this
    {
      Grows() && log == old(log) && largest == old(largest)
    }

    constructor ()
      ensures Valid() && requests == [] && book == [] && log == [] && largest == 0
    {
      requests, capacity := [], 0;
      book, pending, collected, cancelled := [], [], multiset{}, multiset{};
      log, since, largest := [], [], 0;
    }

    /** The table has room for one more request of this owner. */
    ghost predicate Room(client: Owner)
      reads this
    {
      |requests| < MAX_PENDING && Count(requests, client) < MAX_PER_CLIENT
    }

    /** Registers a request; `compiled` is the outcome of compiling its pattern. */
    method Add(id: string, client: Owner, compiled: Option<Pattern>, deadline: real) returns (rc: AddResult)
      requires Valid()
      modifies this
      ensures Valid() && Quiet() && collected == old(collected) && cancelled == old(cancelled)
      ensures rc == if |old(requests)| >= MAX_PENDING then Full
                    else if Count(old(requests), client) >= MAX_PER_CLIENT then TooManyForClient
                    else if compiled.None? then BadPattern else Added
      ensures requests == if rc.Added? then old(requests) + [NewRequest(id, client, compiled.value, deadline)]
                          else old(requests)
      ensures book == if rc.Added? then old(book) + [Key(Cut(id), client, compiled.value)] else old(book)
    {
      if |requests| >= MAX_PENDING {
        return Full;
      }
      var mine := CountFor(client);
      if mine >= MAX_PER_CLIENT {
        return TooManyForClient;
      }
      if |requests| >= capacity {
        var newCap := if capacity != 0 then capacity * 2 else 16;
        if newCap > MAX_PENDING {
          assert false;  // the capacity reaches the limit exactly
        }
        capacity := newCap;
      }
      if compiled.None? {
        return BadPattern;
      }
      Register(NewRequest(id, client, compiled.value, deadline));
      return Added;
    }

    method Register(r: Request)
      requires Valid() && |requests| < capacity && Count(requests, r.client) < MAX_PER_CLIENT
      requires Unfed(r) && |r.id| <= FIELD_MAX
      modifies this`requests, this`book, this`pending, this`since
      ensures Valid() && requests == old(requests) + [r]
      ensures book == old(book) + [KeyOf(r)]
    {
      Enrol(r);
      requests := requests + [r];
    }

    /** Gives a new request its ticket. */
    ghost method Enrol(r: Request)
      requires Valid() && |requests| < capacity && Count(requests, r.client) < MAX_PER_CLIENT
      requires Unfed(r) && |r.id| <= FIELD_MAX
      modifies this`book, this`pending, this`since
      ensures Filed(requests + [r], capacity, pending, book) && Fates(pending, collected, cancelled, |book|)
      ensures |since| == |book| && Following(requests + [r], pending, log, since, largest)
      ensures book == old(book) + [KeyOf(r)]
    {
      FiledAdded(requests, capacity, pending, book, r);
      FatesAdded(pending, collected, cancelled, |book|);
      FollowingAdded(requests, pending, log, since, largest, r);
      pending := pending + [|book|];
      book, since := book + [KeyOf(r)], since + [|log|];
    }

    method CountFor(client: Owner) returns (n: nat)
      ensures n == Count(requests, client)
    {
      n := 0;
      for i := 0 to |requests|
        invariant n == Count(requests[..i], client)
      {
        assert requests[..i + 1][..i] == requests[..i];
        if requests[i].client == client {
          n := n + 1;
        }
      }
      assert requests[..|requests|] == requests;
    }

    /** Device output goes to every request that has not matched yet. */
    method Feed(data: seq<Byte>)
      requires Valid()
      modifies this`requests, this`log, this`largest
      ensures Valid() && Grows() && AllFed(old(requests), requests, data)
      ensures log == old(log) + data && largest == Max(old(largest), |data|)
    {
      ghost var before := requests;
      FeedEach(data);
      FiledSame(before, capacity, pending, book, requests);
      FollowingFed(before, pending, log, since, largest, data, requests);
      log, largest := log + data, Max(largest, |data|);
    }

    method FeedEach(data: seq<Byte>)
      requires Sized(requests)
      modifies this`requests
      ensures Sized(requests) && |requests| == |old(requests)|
      ensures forall i :: 0 <= i < |requests| ==> requests[i] == FeedRequest(old(requests)[i], data)
    {
      ghost var before := requests;
      for i := 0 to |requests|
        invariant |requests| == |before|
        invariant forall k :: 0 <= k < i ==> requests[k] == FeedRequest(before[k], data)
        invariant forall k :: i <= k < |requests| ==> requests[k] == before[k]
      {
        requests := requests[i := FeedRequest(requests[i], data)];
      }
    }

    /** Takes requests out of the table; their tickets still have to be accounted for. */
    method Take(selects: Request -> bool, maxOut: nat) returns (out: seq<Request>, ghost gone: seq<nat>)
      requires Valid()
      modifies this`requests, this`pending
      ensures Filed(requests, capacity, pending, book) && Following(requests, pending, log, since, largest)
      ensures Fates(pending, collected + multiset(gone), cancelled, |book|)
      ensures Fates(pending, collected, cancelled + multiset(gone), |book|)
      ensures |out| <= maxOut && |requests| + |out| == |old(requests)|
      ensures multiset(requests) + multiset(out) == old(multiset(requests))
      ensures AllSelected(out, selects) && (|out| < maxOut ==> NoneSelected(requests, selects))
    {
      ghost var left;
      var rest;
      rest, out, left, gone := TakeOut(requests, selects, maxOut, pending, book);
      PartsKept(requests, capacity, pending, book, rest, left, out, gone);
      FollowingPart(requests, pending, rest, left, log, since, largest);
      FatesTaken(pending, collected, cancelled, |book|, left, gone);
      requests, pending := rest, left;
    }

    /** Hands out finished requests; finds all of them unless `maxOut` cuts it short. */
    method Collect(now: real, maxOut: nat) returns (out: seq<Request>)
      requires Valid()
      modifies this`requests, this`pending, this`collected
      ensures Valid() && |out| <= maxOut && Quiet()
      ensures Taken(old(requests), requests, out, now, maxOut)
    {
      ghost var gone;
      out, gone := Take((r: Request) => r.Done(now), maxOut);
      collected := collected + multiset(gone);
    }

    /** Drops every request the predicate selects, and no other. */
    method CancelWhere(selects: Request -> bool) returns (freed: seq<Request>)
      requires Valid()
      modifies this`requests, this`pending, this`cancelled
      ensures Valid() && Quiet()
      ensures multiset(requests) + multiset(freed) == old(multiset(requests))
      ensures AllSelected(freed, selects) && NoneSelected(requests, selects) && |requests| + |freed| == |old(requests)|
    {
      ghost var gone;
      freed, gone := Take(selects, |requests| + 1);
      cancelled := cancelled + multiset(gone);
    }

    method CancelId(id: string) returns (freed: seq<Request>)
      requires Valid()
      modifies this`requests, this`pending, this`cancelled
      ensures Valid() && Quiet() && multiset(requests) + multiset(freed) == old(multiset(requests))
      ensures WithoutId(old(requests), requests, id)
      ensures |id| > FIELD_MAX ==> multiset(requests) == old(multiset(requests))
    {
      ghost var before := requests;
      freed := CancelWhere((r: Request) => r.id == id);
      LeftById(before, freed, requests, id);
      if |id| > FIELD_MAX {
        LongIdCancelsNothing(before, requests, id);
      }
    }

    method CancelClient(client: Owner) returns (freed: seq<Request>)
      requires Valid()
      modifies this`requests, this`pending, this`cancelled
      ensures Valid() && Quiet() && multiset(requests) + multiset(freed) == old(multiset(requests))
      ensures WithoutOwner(old(requests), requests, client) && |requests| <= |old(requests)|
      ensures forall i :: 0 <= i < |requests| ==> requests[i].client != client
    {
      ghost var before := requests;
      freed := CancelWhere((r: Request) => r.client == client);
      LeftByOwner(before, freed, requests, client);
    }

    method CancelAll()
      requires Valid()
      modifies this`requests, this`pending, this`cancelled
      ensures Valid() && Quiet() && |requests| == 0
    {
      ghost var left;
      var none;
      none, left := EmptyTable(pending);
      FatesTaken(pending, collected, cancelled, |book|, left, pending);
      cancelled := cancelled + multiset(pending);
      requests, pending := none, left;
    }

    /** Marks every request that is neither matched nor aborted yet as aborted. */
    method AbortAll()
      requires Valid()
      modifies this`requests
      ensures Valid() && Quiet() && AllAborted(old(requests), requests)
    {
      ghost var before := requests;
      AbortEach();
      FiledSame(before, capacity, pending, book, requests);
      FollowingAborted(before, pending, log, since, largest, requests);
    }

    method AbortEach()
      requires Sized(requests)
      modifies this`requests
      ensures Sized(requests) && AllAborted(old(requests), requests)
    {
      ghost var before := requests;
      for i := 0 to |requests|
        invariant |requests| == |before|
        invariant forall k :: 0 <= k < i ==> requests[k] == before[k].(aborted := before[k].aborted || !before[k].matched)
        invariant forall k :: i <= k < |requests| ==> requests[k] == before[k]
      {
        if !requests[i].matched && !requests[i].aborted {
          requests := requests[i := requests[i].(aborted := true)];
        }
      }
    }
  }

  method EmptyTable(ghost pending: seq<nat>) returns (none: seq<Request>, ghost left: seq<nat>)
    ensures |none| == |left| == 0 && multiset(left) + multiset(pending) == multiset(pending) && Limited(none)
  {
    none, left := [], [];
  }
}
