/** Whole runs of the autoresponder: rules added and removed, output fed, fires handed
    out. Every rule that was ever added keeps to its cooldown and to once; names stay
    unique exactly as long as no name is cut down to one that is taken. */
module AutoresponderRuns {
  import opened Bytes
  import opened Patterns
  import opened Window
  import opened Autoresponder

  /** What a rule was added with. */
  datatype Kind = Kind(cooldown: real, once: bool)

  /** What has happened. Every add that succeeds issues a ticket; names are as stored. */
  datatype Entry = Added(ticket: nat, name: string) | Removed(name: string) | Handed(ticket: nat, name: string, ts: real)

  /** The fires handed out for one added rule. */
  ghost function FiresOf(history: seq<Entry>, ticket: nat): seq<real> {
    if history == [] then []
    else
      var init, last := history[..|history| - 1], history[|history| - 1];
      if last.Handed? && last.ticket == ticket then FiresOf(init, ticket) + [last.ts] else FiresOf(init, ticket)
  }

  /** The fires handed out under a name since a rule was last added under it. */
  ghost function FiresSince(history: seq<Entry>, name: string): seq<real> {
    if history == [] then []
    else
      var init, last := history[..|history| - 1], history[|history| - 1];
      if last.Added? && last.name == name then []
      else if last.Handed? && last.name == name then FiresSince(init, name) + [last.ts]
      else FiresSince(init, name)
  }

  lemma {:induction false} OfSnoc(history: seq<Entry>, e: Entry, ticket: nat)
    ensures FiresOf(history + [e], ticket) ==
              if e.Handed? && e.ticket == ticket then FiresOf(history, ticket) + [e.ts] else FiresOf(history, ticket)
  {
    assert (history + [e])[..|history|] == history;
  }

  lemma {:induction false} SinceSnoc(history: seq<Entry>, e: Entry, name: string)
    ensures FiresSince(history + [e], name) ==
              if e.Added? && e.name == name then []
              else if e.Handed? && e.name == name then FiresSince(history, name) + [e.ts]
              else FiresSince(history, name)
  {
    assert (history + [e])[..|history|] == history;
  }

  /** Fires as the rule allows them. */
  ghost predicate Kept(k: Kind, times: seq<real>) {
    k.cooldown > 0.0 && Spaced(times, k.cooldown) && (k.once ==> |times| <= 1)
  }

  /** Each installed rule has a ticket of its own, and its record is what was handed out. */
  ghost predicate Ticketed(rules: seq<Rule>, fires: seq<seq<real>>, tickets: seq<nat>, kinds: seq<Kind>, history: seq<Entry>) {
    && |rules| == |fires| == |tickets|
    && (forall i {:trigger Issued(rules[i], fires[i], tickets[i], kinds, history)} :: 0 <= i < |rules| ==>
          Issued(rules[i], fires[i], tickets[i], kinds, history))
    && Different(tickets)
  }

  ghost predicate Issued(r: Rule, times: seq<real>, ticket: nat, kinds: seq<Kind>, history: seq<Entry>) {
    ticket < |kinds| && kinds[ticket] == Kind(r.cooldown, r.once) && times == FiresOf(history, ticket)
  }

  ghost predicate Different(tickets: seq<nat>) {
    forall i, j :: 0 <= i < j < |tickets| ==> tickets[i] != tickets[j]
  }

  /** Every rule ever added has kept to its limits, and only such rules have fired. */
  ghost predicate AllKept(kinds: seq<Kind>, history: seq<Entry>) {
    && (forall t {:trigger Kept(kinds[t], FiresOf(history, t))} :: 0 <= t < |kinds| ==> Kept(kinds[t], FiresOf(history, t)))
    && (forall t: nat :: t >= |kinds| ==> FiresOf(history, t) == [])
  }

  /** The records kept for the rules are the fires handed out under their names. */
  ghost predicate ByName(rules: seq<Rule>, fires: seq<seq<real>>, history: seq<Entry>) {
    |rules| == |fires| && forall i :: 0 <= i < |rules| ==> fires[i] == FiresSince(history, rules[i].name)
  }

  // ----- Output -----

  /** The fires of one chunk, noted one after the other. */
  ghost function Noted(out: seq<Fire>, tickets: seq<nat>, ts: real, n: nat): (h: seq<Entry>)
    requires n <= |out| && forall k :: 0 <= k < |out| ==> out[k].index < |tickets|
    ensures |h| == n
  {
    if n == 0 then [] else Noted(out, tickets, ts, n - 1) + [Handed(tickets[out[n - 1].index], out[n - 1].name, ts)]
  }

  /** Fires of different rules, in their order. */
  ghost predicate InOrder(out: seq<Fire>, n: nat) {
    && (forall k :: 0 <= k < |out| ==> out[k].index < n)
    && (forall k, l :: 0 <= k < l < |out| ==> out[k].index < out[l].index)
  }

  lemma {:induction false} NotedSnoc(history: seq<Entry>, out: seq<Fire>, tickets: seq<nat>, ts: real, n: nat)
    requires 0 < n <= |out| && InOrder(out, |tickets|)
    ensures history + Noted(out, tickets, ts, n) ==
              (history + Noted(out, tickets, ts, n - 1)) + [Handed(tickets[out[n - 1].index], out[n - 1].name, ts)]
  {
    Assoc(history, Noted(out, tickets, ts, n - 1), [Handed(tickets[out[n - 1].index], out[n - 1].name, ts)]);
  }

  ghost predicate ListedBefore(out: seq<Fire>, n: nat, i: nat)
    requires n <= |out|
  {
    exists k :: 0 <= k < n && out[k].index == i
  }

  lemma {:induction false} ListedSnoc(out: seq<Fire>, n: nat, i: nat, bound: nat)
    requires 0 < n <= |out| && InOrder(out, bound)
    ensures ListedBefore(out, n, i) <==> ListedBefore(out, n - 1, i) || out[n - 1].index == i
    ensures !(ListedBefore(out, n - 1, i) && out[n - 1].index == i)
  {
  }

  lemma {:induction false} NotedFires(history: seq<Entry>, out: seq<Fire>, tickets: seq<nat>, ts: real, n: nat, i: nat)
    requires n <= |out| && InOrder(out, |tickets|) && i < |tickets|
    requires Different(tickets)
    ensures FiresOf(history + Noted(out, tickets, ts, n), tickets[i]) ==
              if ListedBefore(out, n, i) then FiresOf(history, tickets[i]) + [ts] else FiresOf(history, tickets[i])
    decreases n
  {
    if n == 0 {
      assert history + Noted(out, tickets, ts, 0) == history;
    } else {
      NotedFires(history, out, tickets, ts, n - 1, i);
      NotedSnoc(history, out, tickets, ts, n);
      ListedSnoc(out, n, i, |tickets|);
      var at := out[n - 1].index;
      assert tickets[at] == tickets[i] <==> at == i;
      OfSnoc(history + Noted(out, tickets, ts, n - 1), Handed(tickets[at], out[n - 1].name, ts), tickets[i]);
    }
  }

  lemma {:induction false} NotedOthers(history: seq<Entry>, out: seq<Fire>, tickets: seq<nat>, ts: real, n: nat, t: nat)
    requires n <= |out| && InOrder(out, |tickets|) && t !in tickets
    ensures FiresOf(history + Noted(out, tickets, ts, n), t) == FiresOf(history, t)
    decreases n
  {
    if n == 0 {
      assert history + Noted(out, tickets, ts, 0) == history;
    } else {
      NotedOthers(history, out, tickets, ts, n - 1, t);
      NotedSnoc(history, out, tickets, ts, n);
      var at := out[n - 1].index;
      assert tickets[at] in tickets;
      OfSnoc(history + Noted(out, tickets, ts, n - 1), Handed(tickets[at], out[n - 1].name, ts), t);
    }
  }

  /** With unique names, the fires under a rule's name are its own. */
  lemma {:induction false} NotedNames(history: seq<Entry>, out: seq<Fire>, tickets: seq<nat>, ts: real, n: nat,
                                      rules: seq<Rule>, i: nat)
    requires n <= |out| && InOrder(out, |tickets|) && |tickets| == |rules| && i < |rules| && UniqueNames(rules)
    requires forall k :: 0 <= k < |out| ==> out[k].name == rules[out[k].index].name
    ensures FiresSince(history + Noted(out, tickets, ts, n), rules[i].name) ==
              if ListedBefore(out, n, i) then FiresSince(history, rules[i].name) + [ts] else FiresSince(history, rules[i].name)
    decreases n
  {
    if n == 0 {
      assert history + Noted(out, tickets, ts, 0) == history;
    } else {
      NotedNames(history, out, tickets, ts, n - 1, rules, i);
      NotedSnoc(history, out, tickets, ts, n);
      ListedSnoc(out, n, i, |tickets|);
      var at := out[n - 1].index;
      assert rules[at].name == rules[i].name <==> at == i;
      SinceSnoc(history + Noted(out, tickets, ts, n - 1), Handed(tickets[at], out[n - 1].name, ts), rules[i].name);
    }
  }

  /** A rule fires iff it is among the fires handed out. */
  lemma {:induction false} FiredListed(rules: seq<Rule>, rules': seq<Rule>, text: seq<Byte>, start: nat, ts: real, maxOut: nat,
                                       out: seq<Fire>, i: nat)
    requires start <= |text| && Progress(rules, rules', text, start, ts, maxOut, |rules|, out) && i < |rules|
    ensures ListedBefore(out, |out|, i) <==> Selected(rules, text[start..], ts, maxOut, i)
  {
    if Selected(rules, text[start..], ts, maxOut, i) {
      assert Listed(out, i);
    }
    if k :| 0 <= k < |out| && out[k].index == i {
      assert FireOf(out[k], rules, text, start, ts, maxOut);
    }
  }

  lemma {:induction false} FedInOrder(rules: seq<Rule>, rules': seq<Rule>, text: seq<Byte>, start: nat, ts: real, maxOut: nat,
                                      out: seq<Fire>)
    requires start <= |text| && Progress(rules, rules', text, start, ts, maxOut, |rules|, out)
    ensures InOrder(out, |rules|) && forall k :: 0 <= k < |out| ==> out[k].name == rules[out[k].index].name
  {
    forall k | 0 <= k < |out| ensures out[k].name == rules[out[k].index].name {
      assert FireOf(out[k], rules, text, start, ts, maxOut);
    }
  }

  /** What one chunk does to the records. */
  lemma {:induction false} FedTicketed(rules: seq<Rule>, fires: seq<seq<real>>, rules': seq<Rule>, fires': seq<seq<real>>,
                                       text: seq<Byte>, start: nat, ts: real, maxOut: nat, out: seq<Fire>,
                                       tickets: seq<nat>, kinds: seq<Kind>, history: seq<Entry>)
    requires start <= |text| && Ticketed(rules, fires, tickets, kinds, history)
    requires Fed(rules, fires, rules', fires', text, start, ts, maxOut, out) && InOrder(out, |tickets|)
    ensures Ticketed(rules', fires', tickets, kinds, history + Noted(out, tickets, ts, |out|))
  {
    var history' := history + Noted(out, tickets, ts, |out|);
    forall i | 0 <= i < |rules| ensures Issued(rules'[i], fires'[i], tickets[i], kinds, history') {
      assert Issued(rules[i], fires[i], tickets[i], kinds, history);
      NotedFires(history, out, tickets, ts, |out|, i);
      FiredListed(rules, rules', text, start, ts, maxOut, out, i);
      assert rules'[i] == After(rules, text[start..], ts, maxOut, i);
    }
  }

  lemma {:induction false} FedKept(rules': seq<Rule>, fires': seq<seq<real>>, out: seq<Fire>, ts: real,
                                   tickets: seq<nat>, kinds: seq<Kind>, history: seq<Entry>)
    requires AllKept(kinds, history) && InOrder(out, |tickets|) && AllRecorded(rules', fires')
    requires Ticketed(rules', fires', tickets, kinds, history + Noted(out, tickets, ts, |out|))
    ensures AllKept(kinds, history + Noted(out, tickets, ts, |out|))
  {
    var history' := history + Noted(out, tickets, ts, |out|);
    forall t: nat
      ensures t < |kinds| ==> Kept(kinds[t], FiresOf(history', t))
      ensures t >= |kinds| ==> FiresOf(history', t) == []
    {
      if t in tickets {
        var i :| 0 <= i < |tickets| && tickets[i] == t;
        assert Issued(rules'[i], fires'[i], tickets[i], kinds, history') && Recorded(rules'[i], fires'[i]);
      } else {
        NotedOthers(history, out, tickets, ts, |out|, t);
        assert t < |kinds| ==> Kept(kinds[t], FiresOf(history, t));
      }
    }
  }

  lemma {:induction false} FedByName(rules: seq<Rule>, fires: seq<seq<real>>, rules': seq<Rule>, fires': seq<seq<real>>,
                                     text: seq<Byte>, start: nat, ts: real, maxOut: nat, out: seq<Fire>,
                                     tickets: seq<nat>, history: seq<Entry>)
    requires start <= |text| && |fires| == |rules| == |tickets| && UniqueNames(rules) && ByName(rules, fires, history)
    requires Fed(rules, fires, rules', fires', text, start, ts, maxOut, out) && InOrder(out, |tickets|)
    requires forall k :: 0 <= k < |out| ==> out[k].name == rules[out[k].index].name
    ensures ByName(rules', fires', history + Noted(out, tickets, ts, |out|))
  {
    FedNames(rules, fires, rules', fires', text, start, ts, maxOut, out);
    forall i | 0 <= i < |rules|
      ensures fires'[i] == FiresSince(history + Noted(out, tickets, ts, |out|), rules'[i].name)
    {
      NotedNames(history, out, tickets, ts, |out|, rules, i);
      FiredListed(rules, rules', text, start, ts, maxOut, out, i);
    }
  }

  // ----- Adding and removing -----

  /** Tickets after a rule went in at index i. */
  ghost function Reissued(tickets: seq<nat>, i: nat, t: nat): seq<nat>
    requires i <= |tickets|
  {
    if i < |tickets| then tickets[i := t] else tickets + [t]
  }

  lemma {:induction false} AddedTicketed(rules: seq<Rule>, fires: seq<seq<real>>, rules': seq<Rule>, fires': seq<seq<real>>,
                                         at: nat, name: string, r: Rule, tickets: seq<nat>, kinds: seq<Kind>, history: seq<Entry>,
                                         tickets': seq<nat>, kinds': seq<Kind>, history': seq<Entry>)
    requires Ticketed(rules, fires, tickets, kinds, history) && Installed(rules, fires, rules', fires', at, name, r)
    requires FiresOf(history, |kinds|) == [] && at <= |tickets| && tickets' == Reissued(tickets, at, |kinds|)
    requires kinds' == kinds + [Kind(r.cooldown, r.once)] && history' == history + [Added(|kinds|, r.name)]
    ensures Ticketed(rules', fires', tickets', kinds', history')
  {
    forall i | 0 <= i < |rules'| ensures Issued(rules'[i], fires'[i], tickets'[i], kinds', history') {
      OfSnoc(history, Added(|kinds|, r.name), tickets'[i]);
      if i != at {
        assert Issued(rules[i], fires[i], tickets[i], kinds, history);
        assert rules'[i] == rules[i] && tickets'[i] == tickets[i];
      }
    }
    forall i | 0 <= i < |tickets| ensures tickets[i] < |kinds| {
      assert Issued(rules[i], fires[i], tickets[i], kinds, history);
    }
  }

  lemma {:induction false} AddedKept(kinds: seq<Kind>, history: seq<Entry>, k: Kind, e: Entry)
    requires AllKept(kinds, history) && k.cooldown > 0.0 && e.Added?
    ensures AllKept(kinds + [k], history + [e])
  {
    var kinds', history' := kinds + [k], history + [e];
    forall u: nat
      ensures u < |kinds'| ==> Kept(kinds'[u], FiresOf(history', u))
      ensures u >= |kinds'| ==> FiresOf(history', u) == []
    {
      OfSnoc(history, e, u);
      assert u < |kinds| ==> Kept(kinds[u], FiresOf(history, u));
    }
  }

  lemma {:induction false} AddedByName(rules: seq<Rule>, fires: seq<seq<real>>, rules': seq<Rule>, fires': seq<seq<real>>,
                                       at: nat, name: string, r: Rule, t: nat, history: seq<Entry>)
    requires ByName(rules, fires, history) && UniqueNames(rules') && Installed(rules, fires, rules', fires', at, name, r)
    ensures ByName(rules', fires', history + [Added(t, r.name)])
  {
    forall i | 0 <= i < |rules'| ensures fires'[i] == FiresSince(history + [Added(t, r.name)], rules'[i].name) {
      SinceSnoc(history, Added(t, r.name), rules'[i].name);
      assert rules'[at].name == r.name;
      if i != at {
        assert rules'[i] == rules[i] && fires'[i] == fires[i];
        assert rules'[i].name != r.name;
      }
    }
  }

  lemma {:induction false} RemovedTicketed(rules: seq<Rule>, fires: seq<seq<real>>, at: nat, tickets: seq<nat>, kinds: seq<Kind>,
                                           history: seq<Entry>, name: string)
    requires Ticketed(rules, fires, tickets, kinds, history) && at < |rules|
    ensures Ticketed(rules[..at] + rules[at + 1..], fires[..at] + fires[at + 1..], tickets[..at] + tickets[at + 1..], kinds,
                     history + [Removed(name)])
  {
    var rules', fires' := rules[..at] + rules[at + 1..], fires[..at] + fires[at + 1..];
    var tickets' := tickets[..at] + tickets[at + 1..];
    forall i | 0 <= i < |rules'| ensures Issued(rules'[i], fires'[i], tickets'[i], kinds, history + [Removed(name)]) {
      var from := if i < at then i else i + 1;
      assert Issued(rules[from], fires[from], tickets[from], kinds, history);
      OfSnoc(history, Removed(name), tickets[from]);
    }
  }

  lemma {:induction false} RemovedKept(kinds: seq<Kind>, history: seq<Entry>, name: string)
    requires AllKept(kinds, history)
    ensures AllKept(kinds, history + [Removed(name)])
  {
    forall u: nat
      ensures u < |kinds| ==> Kept(kinds[u], FiresOf(history + [Removed(name)], u))
      ensures u >= |kinds| ==> FiresOf(history + [Removed(name)], u) == []
    {
      OfSnoc(history, Removed(name), u);
      assert u < |kinds| ==> Kept(kinds[u], FiresOf(history, u));
    }
  }

  lemma {:induction false} RemovedByName(rules: seq<Rule>, fires: seq<seq<real>>, i: nat, history: seq<Entry>, name: string)
    requires ByName(rules, fires, history) && i < |rules|
    ensures ByName(rules[..i] + rules[i + 1..], fires[..i] + fires[i + 1..], history + [Removed(name)])
  {
    var rules' := rules[..i] + rules[i + 1..];
    forall k | 0 <= k < |rules'|
      ensures (fires[..i] + fires[i + 1..])[k] == FiresSince(history + [Removed(name)], rules'[k].name)
    {
      SinceSnoc(history, Removed(name), rules'[k].name);
    }
  }

  // ----- Runs -----

  /** An autoresponder with everything that has happened to it. */
  /** A rule is taken if it is complete and there is room for it, or a rule to replace. */
  predicate Acceptable(rules: seq<Rule>, c: Call)
    requires c.AddRule?
  {
    && |c.name| > 0 && |c.pattern| > 0 && |c.response| <= 256 && c.compiled.Some?
    && (|rules| < 32 || Stored(rules, c.name))
  }

  class Session {
    const ar: Autoresponder
    ghost var tickets: seq<nat>      // of the installed rules
    ghost var kinds: seq<Kind>       // what each ticket was issued for
    ghost var history: seq<Entry>
    ghost var calls: seq<Call>       // what was asked for so far
    ghost var always: bool           // names have been unique in every state so far
    ghost var clean: bool            // no rule was added under a name whose cut form was taken

    ghost predicate Valid()
      reads this, ar, ar.window
    {
      && ar.Valid()
      && Ticketed(ar.rules, ar.fires, tickets, kinds, history)
      && AllKept(kinds, history)
      && (always <==> clean)
      && (always ==> UniqueNames(ar.rules) && ByName(ar.rules, ar.fires, history))
    }

    constructor ()
      ensures Valid() && clean && calls == [] && fresh(ar) && fresh(ar.window) && fresh(ar.window.buf)
    {
      ar := new Autoresponder();
      tickets, kinds, history, calls, always, clean := [], [], [], [], true, true;
    }

    method AddRule(c: Call)
      requires Valid() && c.AddRule?
      modifies this, ar
      ensures Valid() && calls == old(calls) && old(history) <= history && old(kinds) <= kinds && |kinds| - |old(kinds)| == |history| - |old(history)| <= 1
      ensures clean == (old(clean) && (kinds == old(kinds) || Clear(old(ar.rules), c.name)))
      ensures if Acceptable(old(ar.rules), c)
              then |kinds| == |old(kinds)| + 1 && history == old(history) + [Added(|old(kinds)|, Cut(c.name))]
              else kinds == old(kinds) && history == old(history)
    {
      ghost var rules, fires := ar.rules, ar.fires;
      var ok, i := ar.Add(c.name, c.pattern, c.compiled, c.response, c.once, c.cooldownMs);
      if ok {
        NoteAdded(rules, fires, i, c.name, NewRule(c.name, c.compiled.value, c.response, c.once, c.cooldownMs));
      }
    }

    ghost method NoteAdded(rules: seq<Rule>, fires: seq<seq<real>>, i: nat, name: string, r: Rule)
      requires ar.Valid() && Ticketed(rules, fires, tickets, kinds, history) && AllKept(kinds, history) && (always <==> clean)
      requires always ==> UniqueNames(rules) && ByName(rules, fires, history)
      requires Installed(rules, fires, ar.rules, ar.fires, i, name, r) && r.cooldown > 0.0
      requires UniqueNames(rules) ==> (UniqueNames(ar.rules) <==> Clear(rules, name))
      modifies this
      ensures Valid() && calls == old(calls) && clean == (old(clean) && Clear(rules, name))
      ensures kinds == old(kinds) + [Kind(r.cooldown, r.once)] && history == old(history) + [Added(|old(kinds)|, r.name)]
    {
      var kind, entry := Kind(r.cooldown, r.once), Added(|kinds|, r.name);
      var issued := Reissued(tickets, i, |kinds|);
      AddedTicketed(rules, fires, ar.rules, ar.fires, i, name, r, tickets, kinds, history, issued, kinds + [kind], history + [entry]);
      AddedKept(kinds, history, kind, entry);
      if always && UniqueNames(ar.rules) {
        AddedByName(rules, fires, ar.rules, ar.fires, i, name, r, |kinds|, history);
      }
      always, clean := always && UniqueNames(ar.rules), clean && Clear(rules, name);
      tickets, kinds, history := issued, kinds + [kind], history + [entry];
    }

    method RemoveRule(name: string)
      requires Valid()
      modifies this, ar
      ensures Valid() && calls == old(calls) && clean == old(clean) && kinds == old(kinds)
      ensures history == old(history) + if Stored(old(ar.rules), name) then [Removed(name)] else []
    {
      ghost var rules, fires := ar.rules, ar.fires;
      var removed, i := ar.Remove(name);
      if removed {
        NoteRemoved(rules, fires, i, name);
      }
    }

    ghost method NoteRemoved(rules: seq<Rule>, fires: seq<seq<real>>, i: nat, name: string)
      requires ar.Valid() && Ticketed(rules, fires, tickets, kinds, history) && AllKept(kinds, history) && (always <==> clean)
      requires always ==> UniqueNames(rules) && ByName(rules, fires, history)
      requires i < |rules| && ar.rules == rules[..i] + rules[i + 1..] && ar.fires == fires[..i] + fires[i + 1..]
      requires UniqueNames(rules) ==> UniqueNames(ar.rules)
      modifies this
      ensures Valid() && calls == old(calls) && clean == old(clean) && kinds == old(kinds) && history == old(history) + [Removed(name)]
    {
      RemovedTicketed(rules, fires, i, tickets, kinds, history, name);
      RemovedKept(kinds, history, name);
      if always {
        RemovedByName(rules, fires, i, history, name);
      }
      tickets, history := tickets[..i] + tickets[i + 1..], history + [Removed(name)];
    }

    method Output(data: seq<Byte>, ts: real, maxOut: nat) returns (out: seq<Fire>, ghost start: nat)
      requires Valid() && ts > 0.0
      modifies this, ar, ar.window, ar.window.buf
      ensures Valid() && calls == old(calls) && clean == old(clean) && kinds == old(kinds)
      ensures old(history) <= history && |history| == |old(history)| + |out|
      ensures Scanned(old(ar.Now()), ar.Now(), data, ts, maxOut, out, start)
    {
      ghost var rules, fires := ar.rules, ar.fires;
      var from;
      out, from := ar.Feed(data, ts, maxOut);
      start := from;
      if |data| != 0 && |rules| != 0 && maxOut != 0 {
        NoteFed(rules, fires, ar.window.Text(), start, ts, maxOut, out);
      }
    }

    /** One call of any kind. */
    method Step(c: Call)
      requires Valid() && (c.Output? ==> c.ts > 0.0)
      modifies this, ar, ar.window, ar.window.buf
      ensures Valid() && calls == old(calls) + [c]
      ensures old(clean) && (c.AddRule? ==> |c.name| <= FIELD_MAX) ==> clean
    {
      match c {
        case AddRule(_, _, _, _, _, _) => AddRule(c);
        case RemoveRule(name) => RemoveRule(name);
        case Output(data, ts, maxOut) => var _, _ := Output(data, ts, maxOut);
      }
      Note(c);
    }

    ghost method Note(c: Call)
      requires Valid()
      modifies this`calls
      ensures Valid() && calls == old(calls) + [c]
    {
      calls := calls + [c];
    }

    ghost method NoteFed(rules: seq<Rule>, fires: seq<seq<real>>, text: seq<Byte>, start: nat, ts: real, maxOut: nat, out: seq<Fire>)
      requires ar.Valid() && Ticketed(rules, fires, tickets, kinds, history) && AllKept(kinds, history) && (always <==> clean)
      requires always ==> UniqueNames(rules) && ByName(rules, fires, history)
      requires start <= |text| && Fed(rules, fires, ar.rules, ar.fires, text, start, ts, maxOut, out)
      modifies this
      ensures Valid() && calls == old(calls) && clean == old(clean) && kinds == old(kinds)
      ensures old(history) <= history && |history| == |old(history)| + |out|
    {
      FedInOrder(rules, ar.rules, text, start, ts, maxOut, out);
      FedTicketed(rules, fires, ar.rules, ar.fires, text, start, ts, maxOut, out, tickets, kinds, history);
      FedKept(ar.rules, ar.fires, out, ts, tickets, kinds, history);
      FedNames(rules, fires, ar.rules, ar.fires, text, start, ts, maxOut, out);
      if always {
        FedByName(rules, fires, ar.rules, ar.fires, text, start, ts, maxOut, out, tickets, history);
      }
      history := history + Noted(out, tickets, ts, |out|);
    }
  }

  datatype Call =
    | AddRule(name: string, pattern: string, compiled: Option<Pattern>, response: seq<Byte>, once: bool, cooldownMs: int)
    | RemoveRule(name: string)
    | Output(data: seq<Byte>, ts: real, maxOut: nat)

  ghost predicate ShortNames(script: seq<Call>) {
    forall k :: 0 <= k < |script| && script[k].AddRule? ==> |script[k].name| <= FIELD_MAX
  }

  /** Over any run, every rule ever added has kept to its cooldown and to once. Names
      have been unique throughout iff no rule was added under a name whose cut form was
      taken, as is the case when all names fit their field; and then the same is true of
      the fires handed out under a name. */
  method Run(script: seq<Call>) returns (s: Session)
    requires forall k :: 0 <= k < |script| && script[k].Output? ==> script[k].ts > 0.0
    ensures s.Valid() && s.calls == script && (s.always <==> s.clean) && (ShortNames(script) ==> s.clean)
    ensures forall t :: 0 <= t < |s.kinds| ==> Kept(s.kinds[t], FiresOf(s.history, t))
    ensures s.clean ==> && UniqueNames(s.ar.rules)
                        && forall i :: 0 <= i < |s.ar.rules| ==> Recorded(s.ar.rules[i], FiresSince(s.history, s.ar.rules[i].name))
  {
    s := new Session();
    for n := 0 to |script|
      invariant fresh(s) && fresh(s.ar) && fresh(s.ar.window) && fresh(s.ar.window.buf)
      invariant s.Valid() && s.calls == script[..n] && (ShortNames(script[..n]) ==> s.clean)
    {
      assert ShortNames(script[..n + 1]) ==>
               ShortNames(script[..n]) && (script[n].AddRule? ==> |script[..n + 1][n].name| <= FIELD_MAX);
      s.Step(script[n]);
    }
    assert script[..|script|] == script;
  }

  /** A call that adds a once-rule under a name that does not fit its field. */
  predicate LongOnce(c: Call) {
    c.AddRule? && |c.name| > FIELD_MAX && |c.pattern| > 0 && |c.response| <= RESPONSE_MAX && c.compiled.Some? && c.once
  }

  function RuleOf(c: Call): Rule
    requires LongOnce(c)
  {
    NewRule(c.name, c.compiled.value, c.response, true, c.cooldownMs)
  }

  method AddTwice(c: Call) returns (ar: Autoresponder)
    requires LongOnce(c)
    ensures ar.Valid() && fresh(ar) && fresh(ar.window) && fresh(ar.window.buf) && ar.window.len == 0
    ensures |ar.rules| == 2 && ar.rules[0] == ar.rules[1] == RuleOf(c)
  {
    ar := new Autoresponder();
    var ok, i := ar.Add(c.name, c.pattern, c.compiled, c.response, c.once, c.cooldownMs);
    assert ok && i == 0 && |ar.rules| == 1 && ar.rules[0] == RuleOf(c);
    assert !Stored(ar.rules, c.name);
    ok, i := ar.Add(c.name, c.pattern, c.compiled, c.response, c.once, c.cooldownMs);
  }

  lemma {:induction false} BothTriggered(rules: seq<Rule>, text: seq<Byte>, ts: real)
    requires |rules| == 2 && Triggered(rules[0], text, ts) && Triggered(rules[1], text, ts)
    ensures Triggers(rules, text, ts, 2) == 2
  {
    assert Triggers(rules, text, ts, 1) == 1 + Triggers(rules, text, ts, 0);
  }

  /** What feeding two equal rules hands out. */
  lemma {:induction false} BothFire(rules: seq<Rule>, fires: seq<seq<real>>, rules': seq<Rule>, fires': seq<seq<real>>,
                                    text: seq<Byte>, ts: real, maxOut: nat, out: seq<Fire>)
    requires |rules| == |fires| == 2 && rules[0] == rules[1] && Triggered(rules[0], text, ts) && maxOut >= 2
    requires Fed(rules, fires, rules', fires', text, 0, ts, maxOut, out)
    ensures |out| == 2 && out[0].name == out[1].name == rules[0].name && SameNames(rules, rules')
  {
    assert text[0..] == text;
    BothTriggered(rules, text, ts);
    FedInOrder(rules, rules', text, 0, ts, maxOut, out);
    FedNames(rules, fires, rules', fires', text, 0, ts, maxOut, out);
  }

  /** A once-rule added twice under a name that does not fit: there are two rules of one
      name, one chunk fires both, and the name they were added under removes neither. */
  method LongNameTwice(c: Call, data: seq<Byte>, ts: real, maxOut: nat) returns (ar: Autoresponder, out: seq<Fire>, removed: bool)
    requires LongOnce(c) && Matches(c.compiled.value, data) && 0 < |data| <= WINDOW_MAX && ts > 0.0 && maxOut >= 2
    ensures ar.Valid() && |ar.rules| == 2 && !UniqueNames(ar.rules)
    ensures |out| == 2 && out[0].name == out[1].name == Cut(c.name) && !removed
  {
    ar := AddTwice(c);
    ghost var rules, fires := ar.rules, ar.fires;
    var start;
    out, start := ar.Feed(data, ts, maxOut);
    ghost var text := ar.window.Text();
    assert text == data && start == 0;
    BothFire(rules, fires, ar.rules, ar.fires, text, ts, maxOut, out);
    var i;
    removed, i := ar.Remove(c.name);
  }
}
