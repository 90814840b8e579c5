/** The broker's client table (src/broker.c: register, hello, takeover, remove): an
    array of clients edited by swap-remove, the holder of the takeover, and the
    pending expects the clients own. */
module Clients {
  import opened Bytes
  import opened Patterns
  import opened Expect
  import opened ExpectEngine

  const MAX_CLIENTS := 32
  const RESULTS_PER_TURN := 16

  // ----- Client ids -----

  function Digit(d: nat): (c: char)
    requires d < 10
  {
    ['0', '1', '2', '3', '4', '5', '6', '7', '8', '9'][d]
  }

  function Decimal(n: nat): (s: string)
    ensures s != ""
  {
    (if n < 10 then "" else Decimal(n / 10)) + [Digit(n % 10)]
  }

  /** The text that stands for an owner. */
  function Id(o: Owner): string { if o.Mcp? then "mcp" else "client-" + Decimal(o.num) }

  lemma {:induction false} DecimalInjective(m: nat, n: nat)
    requires Decimal(m) == Decimal(n)
    ensures m == n
  {
    var a, b := Decimal(m), Decimal(n);
    assert a[|a| - 1] == Digit(m % 10) && b[|b| - 1] == Digit(n % 10);
    assert a[..|a| - 1] == if m < 10 then "" else Decimal(m / 10);
    assert b[..|b| - 1] == if n < 10 then "" else Decimal(n / 10);
    if m >= 10 && n >= 10 {
      DecimalInjective(m / 10, n / 10);
    }
  }

  /** Owners can be told apart by their text. */
  lemma {:induction false} IdInjective(a: Owner, b: Owner)
    requires Id(a) == Id(b)
    ensures a == b
  {
    if a.Client? && b.Client? {
      assert Id(a)[7..] == Decimal(a.num) && Id(b)[7..] == Decimal(b.num);
      DecimalInjective(a.num, b.num);
    }
    assert a.Client? ==> Id(a)[0] == 'c';
    assert b.Client? ==> Id(b)[0] == 'c';
  }

  // ----- Clients -----

  class Client {
    const num: nat
    const needsAuth: bool
    var name: string
    var controller: bool   // role: controller or observer
    var greeted: bool
    var disconnected: bool

    constructor (num: nat, needsAuth: bool)
      ensures this.num == num && this.needsAuth == needsAuth
      ensures name == "" && !controller && !greeted && !disconnected
    {
      this.num, this.needsAuth := num, needsAuth;
      name, controller, greeted, disconnected := "", false, false, false;
    }
  }

  datatype Role = Unset | Observer | Controller | Invalid

  /** A hello as received; `authentic`: its token is the configured one. */
  datatype Hello = Hello(authentic: bool, name: Option<string>, role: Role, versionOk: bool)

  datatype Answer = Welcome | Again | BadToken | BadRole | BadVersion

  /** The checks of a greeting, in order; `guarded`: the client has to know the token. */
  function AnswerTo(greeted: bool, guarded: bool, h: Hello): (a: Answer)
    ensures a.Welcome? <==> !greeted && (guarded ==> h.authentic) && !h.role.Invalid? && h.versionOk
    ensures a.BadToken? <==> !greeted && guarded && !h.authentic
  {
    if greeted then Again
    else if guarded && !h.authentic then BadToken
    else if h.role.Invalid? then BadRole
    else if !h.versionOk then BadVersion
    else Welcome
  }

  /** `d` is an earlier greeted connection under the name of `c`. */
  predicate Replaces(c: Client, d: Client)
    reads c, d
  {
    d != c && d.greeted && |c.name| > 0 && d.name == c.name
  }

  ghost predicate Distinct(clients: seq<Client>) {
    forall i, j :: 0 <= i < j < |clients| ==> clients[i].num != clients[j].num
  }

  ghost predicate Below(clients: seq<Client>, next: nat) {
    forall i :: 0 <= i < |clients| ==> clients[i].num < next
  }

  /** Only greeted clients are controllers. */
  ghost predicate RolesEarned(clients: seq<Client>)
    reads clients
  {
    forall i :: 0 <= i < |clients| ==> clients[i].controller ==> clients[i].greeted
  }

  /** No two greeted clients, other than `x`, share a nonempty name. */
  ghost predicate NamesApart(clients: seq<Client>, x: Client?)
    reads clients
  {
    forall i, j :: 0 <= i < j < |clients| && clients[i] != x && clients[j] != x ==> !Clash(clients[i], clients[j])
  }

  predicate Clash(c: Client, d: Client)
    reads c, d
  {
    c.greeted && d.greeted && |c.name| > 0 && c.name == d.name
  }

  /** The holder of the takeover is a live greeted controller. */
  ghost predicate HolderLive(clients: seq<Client>, holder: Client?)
    reads holder
  {
    holder != null ==> holder in clients && holder.greeted && holder.controller
  }

  /** The owner of an expect is connected, or it is the MCP sink. */
  ghost predicate Owned(owner: Owner, clients: seq<Client>) {
    owner.Client? ==> exists i :: 0 <= i < |clients| && owner.num == clients[i].num
  }

  ghost predicate AllOwned(requests: seq<Request>, clients: seq<Client>) {
    forall i :: 0 <= i < |requests| ==> Owned(requests[i].client, clients)
  }

  /** Nobody waits on behalf of this owner. */
  ghost predicate Disowned(requests: seq<Request>, owner: Owner) {
    forall i :: 0 <= i < |requests| ==> requests[i].client != owner
  }

  lemma {:induction false} FewerOwned(before: seq<Request>, freed: seq<Request>, after: seq<Request>, clients: seq<Client>)
    requires AllOwned(before, clients) && multiset(after) + multiset(freed) == multiset(before)
    ensures AllOwned(after, clients)
  {
    forall i | 0 <= i < |after| ensures Owned(after[i].client, clients) {
      assert after[i] in multiset(after) + multiset(freed);
      var j :| 0 <= j < |before| && before[j] == after[i];
      assert Owned(before[j].client, clients);
    }
  }

  /** Without the expects of a client, its slot can go too. */
  lemma {:induction false} DisownedOwned(requests: seq<Request>, clients: seq<Client>, at: nat)
    requires at < |clients| && AllOwned(requests, clients) && Disowned(requests, Owner.Client(clients[at].num))
    ensures AllOwned(requests, SwapRemove(clients, at))
  {
    var rest := SwapRemove(clients, at);
    forall i | 0 <= i < |requests| ensures Owned(requests[i].client, rest) {
      assert Owned(requests[i].client, clients);
      if requests[i].client.Client? {
        var k :| 0 <= k < |clients| && requests[i].client.num == clients[k].num;
        assert rest[if k == |clients| - 1 then at else k] == clients[k];
      }
    }
  }

  /** Exactly the requests whose owner is still there are left. */
  ghost predicate Kept(before: seq<Request>, after: seq<Request>, clients: seq<Client>) {
    forall q: Request {:trigger multiset(after)[q]} {:trigger Owned(q.client, clients)} ::
      multiset(after)[q] == if Owned(q.client, clients) then multiset(before)[q] else 0
  }

  lemma {:induction false} KeptAll(requests: seq<Request>, clients: seq<Client>)
    requires AllOwned(requests, clients)
    ensures Kept(requests, requests, clients)
  {
    forall q: Request ensures multiset(requests)[q] == if Owned(q.client, clients) then multiset(requests)[q] else 0 {
      if q in requests {
        var i :| 0 <= i < |requests| && requests[i] == q;
        assert Owned(requests[i].client, clients);
      }
    }
  }

  /** One client less. */
  lemma {:induction false} OwnedLess(owner: Owner, clients: seq<Client>, rest: seq<Client>, c: Client)
    requires Distinct(clients) && c in clients && forall d :: d in rest <==> d in clients && d != c
    ensures Owned(owner, rest) <==> Owned(owner, clients) && owner != Owner.Client(c.num)
  {
    if owner.Client? {
      if i :| 0 <= i < |clients| && owner.num == clients[i].num && clients[i] != c {
        var d := clients[i];
        assert d in rest;
        var k :| 0 <= k < |rest| && rest[k] == d;
      }
      if i :| 0 <= i < |rest| && owner.num == rest[i].num {
        var d := rest[i];
        assert d in rest;
        var k :| 0 <= k < |clients| && clients[k] == d;
        var j :| 0 <= j < |clients| && clients[j] == c;
        assert k != j;
      }
    }
  }

  lemma {:induction false} KeptLess(before: seq<Request>, mid: seq<Request>, after: seq<Request>, clients: seq<Client>, rest: seq<Client>, c: Client)
    requires Distinct(clients) && c in clients && forall d :: d in rest <==> d in clients && d != c
    requires Kept(before, mid, clients) && WithoutOwner(mid, after, Owner.Client(c.num))
    ensures Kept(before, after, rest)
  {
    forall q: Request ensures multiset(after)[q] == if Owned(q.client, rest) then multiset(before)[q] else 0 {
      OwnedLess(q.client, clients, rest, c);
    }
  }

  lemma {:induction false} SwapRemoveMembers(clients: seq<Client>, at: nat)
    requires at < |clients| && Distinct(clients)
    ensures forall d :: d in SwapRemove(clients, at) <==> d in clients && d != clients[at]
  {
    var rest := SwapRemove(clients, at);
    forall d ensures d in rest <==> d in clients && d != clients[at] {
      if d in clients && d != clients[at] {
        var k :| 0 <= k < |clients| && clients[k] == d;
        assert rest[if k == |clients| - 1 then at else k] == d;
      }
    }
  }

  /** Swap-remove keeps what is true of all clients. */
  lemma {:induction false} Unlinked(clients: seq<Client>, at: nat, next: nat, rest: seq<Client>)
    requires at < |clients| && rest == SwapRemove(clients, at) && Distinct(clients) && Below(clients, next)
    ensures Distinct(rest) && Below(rest, next)
  {
  }

  lemma {:induction false} UnlinkedRoles(clients: seq<Client>, at: nat, rest: seq<Client>, x: Client?)
    requires at < |clients| && rest == SwapRemove(clients, at) && RolesEarned(clients) && NamesApart(clients, x)
    ensures RolesEarned(rest) && NamesApart(rest, x)
  {
  }

  /** A sweep through the table: how it was before, and who has been dropped so far. */
  datatype Sweep = Sweep(clients: seq<Client>, holder: Client?, requests: seq<Request>, gone: set<Client>) {
    predicate Of(clients: seq<Client>, holder: Client?, requests: seq<Request>) {
      this.clients == clients && this.holder == holder && this.requests == requests
    }
  }

  /** What a sweep has left: everybody else, and what is theirs. */
  ghost predicate Swept(s: Sweep, clients: seq<Client>, holder: Client?, requests: seq<Request>) {
    && (forall d :: d in clients ==> d in s.clients && d !in s.gone)
    && (forall d :: d in s.clients && d !in s.gone ==> d in clients)
    && (holder == if s.holder != null && s.holder in clients then s.holder else null)
    && Kept(s.requests, requests, clients)
  }

  lemma {:induction false} SweepStarts(s: Sweep, clients: seq<Client>, holder: Client?, requests: seq<Request>)
    requires s.Of(clients, holder, requests) && |s.gone| == 0
    requires AllOwned(requests, clients) && (holder != null ==> holder in clients)
    ensures Swept(s, clients, holder, requests)
  {
    KeptAll(requests, clients);
  }

  lemma {:induction false} SweptMore(s: Sweep, clients: seq<Client>, holder: Client?, requests: seq<Request>,
                                     clients': seq<Client>, holder': Client?, requests': seq<Request>, c: Client)
    requires Swept(s, clients, holder, requests) && Distinct(clients) && c in clients
    requires forall d :: d in clients' <==> d in clients && d != c
    requires holder' == if holder == c then null else holder
    requires WithoutOwner(requests, requests', Owner.Client(c.num))
    ensures Swept(s.(gone := s.gone + {c}), clients', holder', requests')
  {
    KeptLess(s.requests, requests, requests', clients, clients', c);
  }

  // ----- The table -----

  class Table {
    var clients: seq<Client>
    var holder: Client?
    var nextNum: nat
    const expects: Engine

    ghost predicate Base()
      reads this, clients, holder
    {
      && |clients| <= MAX_CLIENTS && Distinct(clients) && Below(clients, nextNum)
      && RolesEarned(clients) && HolderLive(clients, holder)
    }

    /** Every pending expect has an owner. */
    ghost predicate Books()
      reads this, expects
    {
      expects.Valid() && AllOwned(expects.requests, clients)
    }

    ghost predicate Valid()
      reads this, clients, holder, expects
    {
      Base() && NamesApart(clients, null) && Books()
    }

    constructor ()
      ensures Valid() && clients == [] && holder == null && nextNum == 0
      ensures fresh(expects) && expects.largest == 0 && |expects.requests| == 0
    {
      clients, holder, nextNum := [], null, 0;
      expects := new Engine();
    }

    /** Whether a client may act on the device. */
    predicate CanSend(c: Client)
      reads this, c
    {
      c.controller && (holder == null || holder == c)
    }

    /** A new connection; `watched`: it could be registered for events. */
    method Register(needsAuth: bool, watched: bool) returns (c: Client?)
      requires Valid()
      modifies this`clients, this`nextNum
      ensures Valid()
      ensures c != null <==> |old(clients)| < MAX_CLIENTS && watched
      ensures clients == if c == null then old(clients) else old(clients) + [c]
      ensures c != null ==> fresh(c) && !c.greeted && !c.controller && c.needsAuth == needsAuth && |c.name| == 0
    {
      if |clients| >= MAX_CLIENTS {
        return null;
      }
      var n := new Client(nextNum, needsAuth);
      nextNum := nextNum + 1;
      if !watched {
        return null;
      }
      ghost var was := clients;
      clients := clients + [n];
      forall i | 0 <= i < |expects.requests| ensures Owned(expects.requests[i].client, clients) {
        assert Owned(expects.requests[i].client, was);
        if expects.requests[i].client.Client? {
          var k :| 0 <= k < |was| && expects.requests[i].client.num == was[k].num;
          assert clients[k] == was[k];
        }
      }
      return n;
    }

    /** Forgets a client, its takeover and its expects. */
    method Remove(c: Client, ghost x: Client?) returns (ghost at: nat)
      requires Base() && c in clients && NamesApart(clients, x) && Books()
      modifies this`clients, this`holder, expects
      ensures Base() && NamesApart(clients, x) && Books()
      ensures at < |old(clients)| && old(clients)[at] == c && clients == SwapRemove(old(clients), at)
      ensures forall d :: d in clients <==> d in old(clients) && d != c
      ensures holder == if old(holder) == c then null else old(holder)
      ensures expects.Quiet() && WithoutOwner(old(expects.requests), expects.requests, Owner.Client(c.num))
      ensures |expects.requests| <= |old(expects.requests)|
    {
      CancelExpects(c);
      at := Unlink(c, x);
      DisownedOwned(expects.requests, old(clients), at);
    }

    /** One more client goes, of those that a sweep drops. */
    method Drop(c: Client, ghost x: Client?, ghost sweep: Sweep) returns (ghost at: nat, ghost sweep': Sweep)
      requires Base() && c in clients && NamesApart(clients, x) && Books() && Swept(sweep, clients, holder, expects.requests)
      modifies this`clients, this`holder, expects
      ensures Base() && NamesApart(clients, x) && Books() && Swept(sweep', clients, holder, expects.requests)
      ensures at < |old(clients)| && old(clients)[at] == c && |clients| == |old(clients)| - 1
      ensures forall k :: 0 <= k < |clients| ==> clients[k] == if k == at then old(clients)[|clients|] else old(clients)[k]
      ensures expects.Quiet() && |expects.requests| <= |old(expects.requests)|
      ensures sweep' == sweep.(gone := sweep.gone + {c})
    {
      at := Remove(c, x);
      sweep' := sweep.(gone := sweep.gone + {c});
      SweptMore(sweep, old(clients), old(holder), old(expects.requests), clients, holder, expects.requests, c);
    }

    /** The takeover and the expects of those who are still there are as they were, and
        those of the others are gone. */
    twostate predicate Departed()
      reads this, expects
    {
      && holder == (if old(holder) != null && old(holder) in clients then old(holder) else null)
      && Kept(old(expects.requests), expects.requests, clients)
    }

    method Unlink(c: Client, ghost x: Client?) returns (ghost at: nat)
      requires Base() && c in clients && NamesApart(clients, x)
      modifies this`clients, this`holder
      ensures Base() && NamesApart(clients, x)
      ensures at < |old(clients)| && old(clients)[at] == c && clients == SwapRemove(old(clients), at)
      ensures forall d :: d in clients <==> d in old(clients) && d != c
      ensures holder == if old(holder) == c then null else old(holder)
    {
      var i := Find(c);
      var rest := SwapRemove(clients, i);
      SwapRemoveMembers(clients, i);
      Unlinked(clients, i, nextNum, rest);
      UnlinkedRoles(clients, i, rest, x);
      Leave(rest, if holder == c then null else holder, x);
      at := i;
    }

    /** The table with these clients left. */
    method Leave(rest: seq<Client>, h: Client?, ghost x: Client?)
      requires |rest| <= MAX_CLIENTS && Distinct(rest) && Below(rest, nextNum)
      requires RolesEarned(rest) && HolderLive(rest, h) && NamesApart(rest, x)
      modifies this`clients, this`holder
      ensures Base() && NamesApart(clients, x) && clients == rest && holder == h
    {
      clients, holder := rest, h;
    }

    method CancelExpects(c: Client)
      requires expects.Valid() && AllOwned(expects.requests, clients)
      modifies expects
      ensures expects.Valid() && AllOwned(expects.requests, clients) && Disowned(expects.requests, Owner.Client(c.num))
      ensures expects.Quiet() && WithoutOwner(old(expects.requests), expects.requests, Owner.Client(c.num))
      ensures |expects.requests| <= |old(expects.requests)|
    {
      ghost var before := expects.requests;
      var freed := expects.CancelClient(Owner.Client(c.num));
      FewerOwned(before, freed, expects.requests, clients);
    }

    method Find(c: Client) returns (i: nat)
      requires c in clients
      ensures i < |clients| && clients[i] == c
    {
      i := 0;
      while clients[i] != c
        invariant 0 <= i < |clients| && c in clients[i..]
        decreases |clients| - i
      {
        assert clients[i..] == [clients[i]] + clients[i + 1..];
        i := i + 1;
      }
    }

    /** Removes every earlier connection under the client's name; the last client
        fills each hole, and going downward none is skipped. */
    method Replace(c: Client)
      requires Base() && c in clients && NamesApart(clients, c) && Books()
      modifies this`clients, this`holder, expects
      ensures Valid() && expects.Quiet()
      ensures forall d :: d in clients <==> d in old(clients) && !Replaces(c, d)
      ensures Departed() && |expects.requests| <= |old(expects.requests)| && |clients| <= |old(clients)|
    {
      ghost var sweep := Sweep(clients, holder, expects.requests, {});
      SweepStarts(sweep, clients, holder, expects.requests);
      if |c.name| > 0 {
        ghost var namesakes := set d | d in clients && Replaces(c, d);
        sweep := DropNamesakes(c, namesakes, sweep);
      }
      NamesJoin(clients, c);
    }

    method DropNamesakes(c: Client, ghost namesakes: set<Client>, ghost start: Sweep) returns (ghost sweep: Sweep)
      requires Base() && c in clients && NamesApart(clients, c) && Books() && |c.name| > 0
      requires Swept(start, clients, holder, expects.requests) && |start.gone| == 0 && c !in namesakes
      requires forall d :: d in clients ==> (d in namesakes <==> Replaces(c, d))
      modifies this`clients, this`holder, expects
      ensures Base() && c in clients && NamesApart(clients, c) && Books() && expects.Quiet()
      ensures Swept(sweep, clients, holder, expects.requests) && sweep == start.(gone := sweep.gone)
      ensures sweep.gone <= namesakes && forall k :: 0 <= k < |clients| ==> clients[k] !in namesakes
      ensures |expects.requests| <= |old(expects.requests)| && |clients| <= |old(clients)|
    {
      sweep := start;
      var i: nat := |clients|;
      while i > 0
        invariant i <= |clients| <= |old(clients)| && c in clients
        invariant Base() && NamesApart(clients, c) && Books() && expects.Quiet()
        invariant forall k :: i <= k < |clients| ==> clients[k] !in namesakes
        invariant Swept(sweep, clients, holder, expects.requests) && sweep == start.(gone := sweep.gone)
        invariant sweep.gone <= namesakes && forall d :: d in clients ==> d in old(clients)
        invariant |expects.requests| <= |old(expects.requests)|
      {
        i := i - 1;
        var d := clients[i];
        if Replaces(c, d) {
          ghost var at;
          at, sweep := Drop(d, c, sweep);
          assert at == i;
        }
      }
    }

    /** What a greeting changes: a client is welcomed once, under its name and with its role,
        and earlier connections under that name go. */
    twostate predicate Greeted(c: Client, h: Hello, tokenSet: bool)
      reads this, clients, c, expects
    {
      var a := AnswerTo(old(c.greeted), c.needsAuth && tokenSet, h);
      && c.greeted == (old(c.greeted) || a.Welcome?)
      && c.controller == (old(c.controller) || (a.Welcome? && h.role.Controller?))
      && c.name == (if (a.Welcome? || a.BadVersion?) && h.name.Some? then Cut(h.name.value) else old(c.name))
      && c.disconnected == (old(c.disconnected) || a.BadToken?)
      && (!a.Welcome? ==> clients == old(clients) && holder == old(holder) && expects.requests == old(expects.requests))
      && (a.Welcome? ==> Succeeds(c)) && Departed()
    }

    /** Exactly the other greeted connections under the client's name are gone. */
    twostate predicate Succeeds(c: Client)
      reads this, clients, c
    {
      && (forall d :: d in clients ==> d in old(clients) && (d == c || !d.greeted || |c.name| == 0 || d.name != c.name))
      && (forall d :: d in old(clients) && d !in clients ==> d != c && |c.name| > 0 && old(d.greeted) && old(d.name) == c.name)
    }

    /** The greeting: identifies the client and may make it a controller. */
    method Greet(c: Client, h: Hello, tokenSet: bool) returns (a: Answer)
      requires Valid() && c in clients
      modifies this`clients, this`holder, expects, c
      ensures Valid() && expects.Quiet()
      ensures a == AnswerTo(old(c.greeted), c.needsAuth && tokenSet, h) && Greeted(c, h, tokenSet)
      ensures |expects.requests| <= |old(expects.requests)| && |clients| <= |old(clients)|
    {
      KeptAll(expects.requests, clients);
      if c.greeted {
        return Again;
      }
      if c.needsAuth && tokenSet && !h.authentic {
        Disconnect(c);
        return BadToken;
      }
      if h.role.Invalid? {
        return BadRole;
      }
      if h.name.Some? {
        Rename(c, Cut(h.name.value));
      }
      if !h.versionOk {
        return BadVersion;
      }
      Admit(c, h.role);
      return Welcome;
    }

    method Disconnect(c: Client)
      requires Valid() && c in clients
      modifies c`disconnected
      ensures Valid() && c.disconnected
    {
      c.disconnected := true;
    }

    method Rename(c: Client, name: string)
      requires Valid() && c in clients && !c.greeted
      modifies c`name
      ensures Valid() && c.name == name
    {
      c.name := name;
    }

    method Admit(c: Client, role: Role)
      requires Valid() && c in clients && !c.greeted
      modifies this`clients, this`holder, expects, c`controller, c`greeted
      ensures Valid() && c.greeted && c.controller == role.Controller? && expects.Quiet()
      ensures Departed() && |expects.requests| <= |old(expects.requests)| && |clients| <= |old(clients)|
      ensures forall d :: d in clients <==> d in old(clients) && !Replaces(c, d)
    {
      if !role.Unset? {
        c.controller := role.Controller?;
      }
      c.greeted := true;
      Replace(c);
    }

    /** Claims the device for one client. */
    method Takeover(c: Client) returns (ok: bool)
      requires Valid() && c in clients && c.greeted
      modifies this`holder
      ensures Valid() && ok == old(CanSend(c))
      ensures holder == if ok then c else old(holder)
    {
      if !c.controller || (holder != null && holder != c) {
        return false;
      }
      holder := c;
      return true;
    }

    method Release(c: Client)
      requires Valid()
      modifies this`holder
      ensures Valid() && holder == if old(holder) == c then null else old(holder)
    {
      if holder == c {
        holder := null;
      }
    }

    /** Periodic check: clients that never greeted in time and clients whose process
        is gone are dropped. */
    method DropStale(late: nat -> bool, dead: nat -> bool)
      requires Valid()
      modifies this`clients, this`holder, expects
      ensures Valid() && expects.Quiet()
      ensures forall d :: d in clients <==> d in old(clients) && (d.greeted || !late(d.num)) && !dead(d.num)
      ensures Departed()
    {
      ghost var sweep := Sweep(clients, holder, expects.requests, {});
      SweepStarts(sweep, clients, holder, expects.requests);
      ghost var stale := set d | d in clients && Stale(d, late, dead);
      var i: nat := |clients|;
      while i > 0
        invariant i <= |clients| && Valid() && expects.Quiet()
        invariant forall k :: i <= k < |clients| ==> clients[k] !in stale
        invariant Swept(sweep, clients, holder, expects.requests) && sweep.Of(old(clients), old(holder), old(expects.requests))
        invariant sweep.gone <= stale && forall d :: d in clients ==> d in old(clients)
      {
        i := i - 1;
        var d := clients[i];
        if Stale(d, late, dead) {
          ghost var at;
          at, sweep := Drop(d, null, sweep);
          assert at == i;
        }
      }
    }

    /** Flushes every client, dropping those whose connection fails; going upward,
        the index stays where a hole was filled. */
    method DropBroken(broken: nat -> bool)
      requires Valid()
      modifies this`clients, this`holder, expects
      ensures Valid() && expects.Quiet()
      ensures forall d :: d in clients <==> d in old(clients) && !broken(d.num)
      ensures Departed()
    {
      ghost var sweep := Sweep(clients, holder, expects.requests, {});
      SweepStarts(sweep, clients, holder, expects.requests);
      var i := 0;
      while i < |clients|
        invariant i <= |clients| && Valid() && expects.Quiet()
        invariant forall k :: 0 <= k < i ==> !broken(clients[k].num)
        invariant Swept(sweep, clients, holder, expects.requests) && sweep.Of(old(clients), old(holder), old(expects.requests))
        invariant forall d :: d in sweep.gone ==> broken(d.num)
        decreases |clients| - i
      {
        var d := clients[i];
        if broken(d.num) {
          ghost var at;
          at, sweep := Drop(d, null, sweep);
          assert at == i;
        } else {
          i := i + 1;
        }
      }
    }

    // ----- Pending expects -----

    /** A client waits for output; the earlier requests are as they were. */
    method AddExpect(c: Client, id: string, compiled: Option<Pattern>, deadline: real) returns (ok: bool)
      requires Valid() && c in clients
      modifies expects
      ensures Valid() && expects.Quiet() && ok == (old(expects.Room(Owner.Client(c.num))) && compiled.Some?)
      ensures expects.requests == old(expects.requests) +
                if ok then [NewRequest(id, Owner.Client(c.num), compiled.value, deadline)] else []
    {
      var r := expects.Add(id, Owner.Client(c.num), compiled, deadline);
      ok := r.Added?;
      assert Owned(Owner.Client(c.num), clients);
    }

    method AddForSink(id: string, compiled: Option<Pattern>, deadline: real) returns (ok: bool)
      requires Valid()
      modifies expects
      ensures Valid() && expects.Quiet() && ok == (old(expects.Room(Mcp)) && compiled.Some?)
      ensures expects.requests == old(expects.requests) + if ok then [NewRequest(id, Mcp, compiled.value, deadline)] else []
    {
      var r := expects.Add(id, Mcp, compiled, deadline);
      ok := r.Added?;
      assert Owned(Mcp, clients);
    }

    /** Exactly the requests under other ids are left. */
    method CancelId(id: string)
      requires Valid()
      modifies expects
      ensures Valid() && expects.Quiet() && WithoutId(old(expects.requests), expects.requests, id)
    {
      ghost var before := expects.requests;
      var freed := expects.CancelId(id);
      FewerOwned(before, freed, expects.requests, clients);
    }

    method CancelSink()
      requires Valid()
      modifies expects
      ensures Valid() && expects.Quiet() && WithoutOwner(old(expects.requests), expects.requests, Mcp)
    {
      ghost var before := expects.requests;
      var freed := expects.CancelClient(Mcp);
      FewerOwned(before, freed, expects.requests, clients);
    }

    method CancelAll()
      requires Valid()
      modifies expects
      ensures Valid() && expects.Quiet() && |expects.requests| == 0
    {
      expects.CancelAll();
    }

    method Collect(now: real)
      requires Valid()
      modifies expects
      ensures Valid() && expects.Quiet()
      ensures Settled(old(expects.requests)) ==> Settled(expects.requests)
      ensures Collects(old(expects.requests), expects.requests, now, 16)
    {
      ghost var before := expects.requests;
      var out := expects.Collect(now, RESULTS_PER_TURN);
      FewerOwned(before, out, expects.requests, clients);
      FewerSettled(before, out, expects.requests);
    }

    method FeedExpects(data: seq<Byte>)
      requires Valid()
      modifies expects
      ensures Valid() && expects.Grows() && expects.log == old(expects.log) + data
      ensures expects.largest == Max(old(expects.largest), |data|) && AllFed(old(expects.requests), expects.requests, data)
    {
      ghost var before := expects.requests;
      expects.Feed(data);
      SameOwners(before, expects.requests, clients);
    }

    /** The link is down: nobody is left waiting for more output. */
    method AbortExpects(now: real)
      requires Valid()
      modifies expects
      ensures Valid() && expects.Quiet() && Settled(expects.requests)
      ensures Aborts(old(expects.requests), expects.requests, now)
    {
      MarkAborted();
      Collect(now);
    }

    method MarkAborted()
      requires Valid()
      modifies expects
      ensures Valid() && expects.Quiet() && Settled(expects.requests) && AllAborted(old(expects.requests), expects.requests)
    {
      ghost var before := expects.requests;
      expects.AbortAll();
      SameOwners(before, expects.requests, clients);
    }
  }

  /** What is left after every request was aborted and the results were handed out. */
  ghost predicate Aborts(before: seq<Request>, after: seq<Request>, now: real) {
    exists marked: seq<Request> {:trigger AllAborted(before, marked)} :: AllAborted(before, marked) && Collects(marked, after, now, 16)
  }

  /** Every request has its outcome. */
  ghost predicate Settled(requests: seq<Request>) {
    forall i :: 0 <= i < |requests| ==> requests[i].matched || requests[i].aborted
  }

  lemma {:induction false} FewerSettled(before: seq<Request>, out: seq<Request>, after: seq<Request>)
    requires multiset(after) + multiset(out) == multiset(before)
    ensures Settled(before) ==> Settled(after)
  {
    if Settled(before) {
      forall i | 0 <= i < |after| ensures after[i].matched || after[i].aborted {
        assert after[i] in multiset(after) + multiset(out);
        var j :| 0 <= j < |before| && before[j] == after[i];
      }
    }
  }

  lemma {:induction false} SameOwners(before: seq<Request>, after: seq<Request>, clients: seq<Client>)
    requires |before| == |after| && forall i :: 0 <= i < |before| ==> before[i].client == after[i].client
    requires AllOwned(before, clients)
    ensures AllOwned(after, clients)
  {
    forall i | 0 <= i < |after| ensures Owned(after[i].client, clients) {
      assert Owned(before[i].client, clients);
    }
  }

  predicate Stale(d: Client, late: nat -> bool, dead: nat -> bool)
    reads d
  {
    (!d.greeted && late(d.num)) || dead(d.num)
  }

  /** Once nobody else has its name, a client fits in with the others. */
  lemma {:induction false} NamesJoin(clients: seq<Client>, c: Client)
    requires NamesApart(clients, c) && Distinct(clients)
    requires forall d :: d in clients ==> !Replaces(c, d)
    ensures NamesApart(clients, null)
  {
    forall i, j | 0 <= i < j < |clients| ensures !Clash(clients[i], clients[j]) {
      assert clients[i] in clients && clients[j] in clients;
      assert clients[i].num != clients[j].num;
    }
  }

  /** A client without a name connects and is greeted. */
  method Join(t: Table, role: Role) returns (c: Client)
    requires t.Valid() && |t.clients| < MAX_CLIENTS && !role.Invalid?
    modifies t, t.expects
    ensures t.Valid() && fresh(c) && c.greeted && c.controller == role.Controller? && c in t.clients && t.expects.Quiet()
    ensures forall d :: d in old(t.clients) ==> d in t.clients && d.num != c.num
    ensures t.holder == null || t.holder == old(t.holder)
    ensures |t.expects.requests| <= |old(t.expects.requests)| && |t.clients| <= |old(t.clients)| + 1
  {
    var n := t.Register(false, true);
    c := n;
    OldAndNew(old(t.clients), t.clients, c);
    var _ := t.Greet(c, Hello(true, None, role, true), false);
  }

  /** An observer and a controller join. */
  method JoinTwo(t: Table) returns (c1: Client, c2: Client)
    requires t.Valid() && |t.clients| + 2 <= MAX_CLIENTS && t.holder == null
    modifies t, t.expects
    ensures t.Valid() && fresh(c1) && fresh(c2) && c1 in t.clients && c2 in t.clients && c1.num != c2.num
    ensures t.CanSend(c2) && t.expects.Quiet() && |t.expects.requests| <= |old(t.expects.requests)|
  {
    c1 := Join(t, Observer);
    c2 := Join(t, Controller);
  }

  lemma {:induction false} OldAndNew(before: seq<Client>, after: seq<Client>, c: Client)
    requires after == before + [c] && Distinct(after)
    ensures c in after && forall d :: d in before ==> d in after && d.num != c.num
  {
    assert after[|before|] == c;
    forall d | d in before ensures d in after && d.num != c.num {
      var k :| 0 <= k < |before| && before[k] == d;
      assert after[k] == d;
    }
  }
}
