/** What resolve() makes of the list it is given: consensus order, then the V29 de-duplication
    (packages/cairnx/src/resolve.ts:34-58); and exactly when the order and the repetitions of a feed matter. */
module Ordering {
  import opened Rules
  import opened Ledgers
  import opened Handlers
  import opened Replay

  /** Put `e` into an ordered list, after the events it ties with: the step of a stable sort. */
  function Insert(s: seq<Event>, e: Event): seq<Event> {
    if s == [] || !Before(e, s[|s| - 1]) then s + [e] else Insert(s[..|s| - 1], e) + [s[|s| - 1]]
  }

  function Sort(evs: seq<Event>): seq<Event> {
    if evs == [] then [] else Insert(Sort(evs[..|evs| - 1]), evs[|evs| - 1])
  }

  /** The ids the de-duplication has met in `s`: those of the events at or above V29. */
  function Seen(s: seq<Event>): set<Id> { set i | 0 <= i < |s| && s[i].height >= V29_HEIGHT :: s[i].id }

  predicate Repeats(s: seq<Event>, e: Event) { e.height >= V29_HEIGHT && e.id in Seen(s) }

  function Dedup(s: seq<Event>): seq<Event> {
    if s == [] then []
    else
      var rest, e := s[..|s| - 1], s[|s| - 1];
      if Repeats(rest, e) then Dedup(rest) else Dedup(rest) + [e]
  }

  /** The events resolve() applies, in the order it applies them. */
  function Applied(evs: seq<Event>): seq<Event> { Dedup(Sort(evs)) }

  /** resolve(): the settled ledger of a chain whose events are `evs`, as of `tip`. */
  function Resolve(evs: seq<Event>, tip: nat): Ledger { Seal(Run(Applied(evs)), tip) }

  // ----- sorting -----

  ghost predicate Sorted(s: seq<Event>) { forall i, j :: 0 <= i < j < |s| ==> !Before(s[j], s[i]) }

  lemma {:induction false} InsertAdds(s: seq<Event>, e: Event)
    ensures multiset(Insert(s, e)) == multiset(s) + multiset{e} && forall x :: x in Insert(s, e) ==> x in s || x == e
  {
    hide Before;
    if s != [] && Before(e, s[|s| - 1]) {
      assert s == s[..|s| - 1] + [s[|s| - 1]];
      InsertAdds(s[..|s| - 1], e);
    }
  }

  lemma {:induction false} InsertSorts(s: seq<Event>, e: Event)
    requires Sorted(s)
    ensures Sorted(Insert(s, e))
  {
    if s != [] && Before(e, s[|s| - 1]) {
      var rest, l := s[..|s| - 1], s[|s| - 1];
      InsertSorts(rest, e);
      InsertAdds(rest, e);
      var r := Insert(rest, e);
      forall i | 0 <= i < |r| ensures !Before(l, r[i]) {
        assert r[i] in rest || r[i] == e;
      }
    } else {
      forall i | 0 <= i < |s| ensures !Before(e, s[i]) { NotBefore(s[i], s[|s| - 1], e); }
    }
  }

  /** Ties and order compose: what may not overtake the last may not overtake what the last does not overtake. */
  lemma NotBefore(a: Event, b: Event, c: Event)
    requires (!Before(b, a) || a == b) && !Before(c, b)
    ensures !Before(c, a)
  {
  }

  lemma {:induction false} SortSorts(evs: seq<Event>)
    ensures Sorted(Sort(evs)) && multiset(Sort(evs)) == multiset(evs)
  {
    if evs != [] {
      SortSorts(evs[..|evs| - 1]);
      InsertSorts(Sort(evs[..|evs| - 1]), evs[|evs| - 1]);
      InsertAdds(Sort(evs[..|evs| - 1]), evs[|evs| - 1]);
      assert evs == evs[..|evs| - 1] + [evs[|evs| - 1]];
    }
  }

  lemma SameEvents(a: seq<Event>, b: seq<Event>)
    requires multiset(a) == multiset(b)
    ensures |a| == |b| && forall e :: e in a <==> e in b
  {
    assert |a| == |multiset(a)| && |b| == |multiset(b)|;
    forall e ensures e in a <==> e in b { assert e in multiset(a) <==> e in a; assert e in multiset(b) <==> e in b; }
  }

  // ----- de-duplication -----

  lemma {:induction false} DedupKeeps(s: seq<Event>)
    ensures forall e :: e in Dedup(s) ==> e in s
    ensures Seen(Dedup(s)) == Seen(s)
    ensures forall e :: e in s && e.height < V29_HEIGHT ==> e in Dedup(s)
  {
    if s != [] {
      var rest, e := s[..|s| - 1], s[|s| - 1];
      DedupKeeps(rest);
      SeenPush(rest, e);
      SeenPush(Dedup(rest), e);
      assert s == rest + [e];
    } else {
      assert Dedup(s) == s;
    }
  }

  lemma SeenPush(s: seq<Event>, e: Event)
    ensures Seen(s + [e]) == Seen(s) + (if e.height >= V29_HEIGHT then {e.id} else {})
  {
    var t := s + [e];
    forall x ensures x in Seen(t) <==> x in Seen(s) + (if e.height >= V29_HEIGHT then {e.id} else {}) {
      if x in Seen(s) { var i :| 0 <= i < |s| && s[i].height >= V29_HEIGHT && s[i].id == x; assert t[i] == s[i]; }
      if x == e.id && e.height >= V29_HEIGHT { assert t[|s|] == e; }
    }
  }

  /** The de-duplicated list is a sub-list in the same order: sorted stays sorted. */
  lemma {:induction false} DedupSorted(s: seq<Event>)
    requires Sorted(s)
    ensures Sorted(Dedup(s))
  {
    if s != [] {
      var rest, e := s[..|s| - 1], s[|s| - 1];
      DedupSorted(rest);
      DedupKeeps(rest);
      var d := Dedup(rest);
      forall i | 0 <= i < |d| ensures !Before(e, d[i]) {
        assert d[i] in rest;
      }
    }
  }

  // ----- how often an event is applied -----

  /** One transaction has one content: what an id names does not change from one delivery to the next. */
  ghost predicate OneContent(evs: seq<Event>) {
    forall e, f :: e in evs && f in evs && e.id == f.id ==> e == f
  }

  /** How often resolve() is to apply `e`: as often as it is delivered below V29, and once from V29 on. */
  ghost function Applications(evs: seq<Event>, e: Event): nat {
    if e.height < V29_HEIGHT then multiset(evs)[e] else if e in evs then 1 else 0
  }

  lemma {:induction false} DedupCounts(s: seq<Event>, x: Event)
    requires OneContent(s)
    ensures multiset(Dedup(s))[x] == Applications(s, x)
  {
    if s != [] {
      var rest, e := s[..|s| - 1], s[|s| - 1];
      assert s == rest + [e];
      DedupCounts(rest, x);
      RepeatsIs(rest, e);
    }
  }

  lemma RepeatsIs(rest: seq<Event>, e: Event)
    requires OneContent(rest + [e])
    ensures Repeats(rest, e) <==> e.height >= V29_HEIGHT && e in rest
  {
    if Repeats(rest, e) {
      var k :| 0 <= k < |rest| && rest[k].height >= V29_HEIGHT && rest[k].id == e.id;
      SameIdSameEvent(rest + [e], rest[k], e);
    }
    if e.height >= V29_HEIGHT && e in rest {
      var k :| 0 <= k < |rest| && rest[k] == e;
      assert rest[k].id in Seen(rest);
    }
  }

  /** The applied list is in consensus order and holds each event as often as it is to be applied. */
  lemma AppliedCounts(evs: seq<Event>)
    requires OneContent(evs)
    ensures var d := Applied(evs); Sorted(d) && OneContent(d) && forall e :: multiset(d)[e] == Applications(evs, e)
  {
    var s, d := Sort(evs), Applied(evs);
    SortSorts(evs);
    SameEvents(s, evs);
    DedupSorted(s);
    DedupKeeps(s);
    forall e ensures multiset(d)[e] == Applications(evs, e) { DedupCounts(s, e); }
  }

  /** Two lists in consensus order with the same events, each as often, are the same list: events that tie in the
      order have one id, so one content. */
  lemma {:induction false} SortedUnique(a: seq<Event>, b: seq<Event>)
    requires Sorted(a) && Sorted(b) && OneContent(a) && multiset(a) == multiset(b)
    ensures a == b
  {
    hide Before, Sorted, OneContent;
    SameEvents(a, b);
    if a != [] {
      var x, y := a[|a| - 1], b[|b| - 1];
      assert x in b && y in a;
      LastIsLatest(a, y);
      LastIsLatest(b, x);
      if x != y {
        TiesAreOne(x, y);
        SameIdSameEvent(a, x, y);
      }
      assert multiset(a[..|a| - 1]) == multiset(b[..|b| - 1]) by {
        WithoutLast(a);
        WithoutLast(b);
      }
      assert Sorted(a[..|a| - 1]) && Sorted(b[..|b| - 1]) && OneContent(a[..|a| - 1]) by {
        WithoutLast(a);
        WithoutLast(b);
      }
      SortedUnique(a[..|a| - 1], b[..|b| - 1]);
      assert a == a[..|a| - 1] + [x] && b == b[..|b| - 1] + [y];
    }
  }

  lemma WithoutLast(s: seq<Event>)
    requires Sorted(s) && s != []
    ensures var r := s[..|s| - 1]; Sorted(r) && multiset(r) == multiset(s) - multiset{s[|s| - 1]} && (OneContent(s) ==> OneContent(r))
  {
    hide Before;
    assert s == s[..|s| - 1] + [s[|s| - 1]];
  }

  lemma SameIdSameEvent(s: seq<Event>, x: Event, y: Event)
    requires OneContent(s) && x in s && y in s && x.id == y.id
    ensures x == y
  {
  }

  lemma LastIsLatest(s: seq<Event>, e: Event)
    requires Sorted(s) && e in s
    ensures e == s[|s| - 1] || !Before(s[|s| - 1], e)
  {
    hide Before;
  }

  lemma TiesAreOne(x: Event, y: Event)
    requires !Before(x, y) && !Before(y, x)
    ensures x.id == y.id
  {
  }

  /** What a feed's order and repetitions may change, exactly: two deliveries are applied alike if and only if they hold
      the same events at or above V29, in any order and any number, and below V29 the same ones equally often. */
  lemma AppliedAlikeExactly(a: seq<Event>, b: seq<Event>)
    requires OneContent(a) && OneContent(b)
    ensures Applied(a) == Applied(b) <==>
            && (forall e: Event :: e.height < V29_HEIGHT ==> multiset(a)[e] == multiset(b)[e])
            && (forall e: Event :: e.height >= V29_HEIGHT ==> (e in a <==> e in b))
  {
    hide Applied, Sorted, Before;
    AppliedCounts(a);
    AppliedCounts(b);
    if Applied(a) == Applied(b) {
      forall e: Event
        ensures (e.height < V29_HEIGHT ==> multiset(a)[e] == multiset(b)[e]) && (e.height >= V29_HEIGHT ==> (e in a <==> e in b))
      {
        assert Applications(a, e) == multiset(Applied(a))[e] == Applications(b, e);
      }
    }
    if (forall e: Event :: e.height < V29_HEIGHT ==> multiset(a)[e] == multiset(b)[e])
       && (forall e: Event :: e.height >= V29_HEIGHT ==> (e in a <==> e in b)) {
      forall e: Event ensures multiset(Applied(a))[e] == multiset(Applied(b))[e] {
        assert Applications(a, e) == Applications(b, e);
      }
      assert multiset(Applied(a)) == multiset(Applied(b));
      SortedUnique(Applied(a), Applied(b));
    }
  }

  /** One more copy of a delivered event is ignored if and only if the event is at or above V29. */
  lemma RepeatIgnoredExactly(evs: seq<Event>, e: Event)
    requires OneContent(evs) && e in evs
    ensures Applied(evs + [e]) == Applied(evs) <==> e.height >= V29_HEIGHT
  {
    hide Applied;
    assert multiset(evs + [e])[e] == multiset(evs)[e] + 1;
    AppliedAlikeExactly(evs + [e], evs);
  }

  // ----- feeds -----

  /** What an at-least-once source delivers, in any order: one transaction has one id and one content, and only a
      transaction at or above V29 may come more than once. */
  ghost predicate Delivered(evs: seq<Event>) {
    OneContent(evs) && forall e :: e in evs ==> EventOk(e) && (e.height < V29_HEIGHT ==> multiset(evs)[e] == 1)
  }

  /** Below V29 every event once: neither the order in which a chain's events are delivered nor how often each one from
      V29 on comes changes what resolve() makes of them. An at-least-once feed equals an exactly-once one. */
  lemma DeliveryDoesNotMatter(a: seq<Event>, b: seq<Event>, tip: nat)
    requires Delivered(a) && Delivered(b) && forall e :: e in a <==> e in b
    ensures Applied(a) == Applied(b) && Resolve(a, tip) == Resolve(b, tip)
  {
    hide Applied, EventOk;
    forall e: Event | e.height < V29_HEIGHT ensures multiset(a)[e] == multiset(b)[e] {
      assert e in a <==> e in multiset(a);
      assert e in b <==> e in multiset(b);
    }
    AppliedAlikeExactly(a, b);
  }

  lemma OnceIsDistinct(s: seq<Event>)
    requires OneContent(s) && forall e :: e in s ==> multiset(s)[e] == 1
    ensures forall i, j :: 0 <= i < j < |s| ==> s[i].id != s[j].id
  {
    forall i, j | 0 <= i < j < |s| ensures s[i].id != s[j].id {
      if s[i].id == s[j].id { SameIdSameEvent(s, s[i], s[j]); Twice(s, i, j); }
    }
  }

  lemma Twice(s: seq<Event>, i: nat, j: nat)
    requires i < j < |s| && s[i] == s[j]
    ensures multiset(s)[s[i]] >= 2
  {
    assert s == s[..j] + s[j..] && s[i] in s[..j] && s[j] in s[j..];
    assert multiset(s)[s[i]] == multiset(s[..j])[s[i]] + multiset(s[j..])[s[i]];
  }

  lemma {:induction false} OnceEach(s: seq<Event>)
    requires forall i, j :: 0 <= i < j < |s| ==> s[i].id != s[j].id
    ensures forall e :: e in s ==> multiset(s)[e] == 1
  {
    if s != [] {
      var rest, e := s[..|s| - 1], s[|s| - 1];
      OnceEach(rest);
      assert s == rest + [e];
      forall x | x in s ensures multiset(s)[x] == 1 {
        assert x in rest ==> x != e;
        assert x !in rest ==> multiset(rest)[x] == 0;
      }
    }
  }

  /** The list resolve() applies is a well-formed feed of exactly the delivered events, each once. */
  lemma AppliedIsFeed(evs: seq<Event>)
    requires Delivered(evs)
    ensures Feed(Applied(evs)) && forall e :: e in Applied(evs) <==> e in evs
  {
    hide Applied, EventOk;
    AppliedCounts(evs);
    var d := Applied(evs);
    forall e: Event ensures e in d <==> e in evs {
      assert e in d <==> e in multiset(d);
      assert e in evs <==> e in multiset(evs);
    }
    forall e | e in d ensures multiset(d)[e] == 1 { assert multiset(d)[e] == Applications(evs, e); }
    OnceIsDistinct(d);
    forall i | 0 <= i < |d| ensures EventOk(d[i]) { assert d[i] in evs; }
    forall i, j | 0 <= i < j < |d| ensures Before(d[i], d[j]) { assert !Before(d[j], d[i]) && d[i].id != d[j].id; }
  }

  /** An event's place in the chain: its block, the proposals of a block before its attests, its position there, its id. */
  function Place(e: Event): seq<nat> { [e.height, if e.Propose? then 0 else 1, e.pos, e.id] }

  /** The first place where they differ decides. */
  ghost predicate Sooner(a: seq<nat>, b: seq<nat>) {
    exists k :: 0 <= k < |a| && k < |b| && a[..k] == b[..k] && a[k] < b[k]
  }

  lemma SoonerIs(a: Event, b: Event)
    ensures Before(a, b) ==> Sooner(Place(a), Place(b))
  {
    var p, q := Place(a), Place(b);
    if Before(a, b) {
      var k := if p[0] != q[0] then 0 else if p[1] != q[1] then 1 else if p[2] != q[2] then 2 else 3;
      assert p[..k] == q[..k] && p[k] < q[k];
    }
  }

  /** What is applied goes by place: by block, then proposals before attests, then position, then id. */
  lemma AppliedInPlace(evs: seq<Event>, i: nat, j: nat)
    requires Delivered(evs) && i < j < |Applied(evs)|
    ensures Sooner(Place(Applied(evs)[i]), Place(Applied(evs)[j]))
  {
    hide Applied, Before, Sooner;
    AppliedIsFeed(evs);
    SoonerIs(Applied(evs)[i], Applied(evs)[j]);
  }

  /** A feed already in order with every id once is applied as it is. */
  lemma FeedIsApplied(evs: seq<Event>)
    requires Feed(evs)
    ensures Delivered(evs) && Applied(evs) == evs
  {
    hide Applied, EventOk;
    OnceEach(evs);
    forall e | e in evs ensures EventOk(e) { }
    AppliedCounts(evs);
    forall e: Event ensures multiset(Applied(evs))[e] == multiset(evs)[e] {
      assert e in evs <==> e in multiset(evs);
    }
    assert multiset(Applied(evs)) == multiset(evs);
    SortedUnique(Applied(evs), evs);
  }

  // ----- where a repeat matters -----

  /** The events a run does not pass over. */
  function Active(s: seq<Event>): seq<Event> {
    if s == [] then []
    else Active(s[..|s| - 1]) + if s[|s| - 1].height < ACTIVATION_HEIGHT then [] else [s[|s| - 1]]
  }

  lemma {:induction false} ActiveIs(s: seq<Event>)
    requires Sorted(s)
    ensures Run(Active(s)) == Run(s) && Sorted(Active(s))
    ensures forall e: Event :: multiset(Active(s))[e] == if e.height < ACTIVATION_HEIGHT then 0 else multiset(s)[e]
    ensures forall e :: e in Active(s) ==> e in s
  {
    hide Before, Handle, Prepare;
    if s != [] {
      var rest, e := s[..|s| - 1], s[|s| - 1];
      assert s == rest + [e];
      ActiveIs(rest);
      var d := Active(rest);
      if e.height < ACTIVATION_HEIGHT {
        assert Active(s) == d;
      } else {
        assert Active(s) == d + [e] && (d + [e])[..|d|] == d;
        forall i | 0 <= i < |d| ensures !Before(e, d[i]) { assert d[i] in rest; }
      }
    }
  }

  /** Deliveries that agree from the activation height on are resolved alike. */
  lemma ResolvedAlike(a: seq<Event>, b: seq<Event>, tip: nat)
    requires OneContent(a) && OneContent(b)
    requires forall e: Event :: e.height >= ACTIVATION_HEIGHT ==> Applications(a, e) == Applications(b, e)
    ensures Resolve(a, tip) == Resolve(b, tip)
  {
    hide Applied, Run, Seal, Sorted;
    AppliedCounts(a);
    AppliedCounts(b);
    ActiveIs(Applied(a));
    ActiveIs(Applied(b));
    var x, y := Active(Applied(a)), Active(Applied(b));
    assert multiset(x) == multiset(y);
    SortedUnique(x, y);
  }

  /** A well-formed list that resolves otherwise when one of its events, at height `h`, comes once more. */
  ghost predicate RepeatMatters(evs: seq<Event>, e: Event, h: nat, tip: nat) {
    && OneContent(evs) && (forall x :: x in evs ==> EventOk(x)) && e in evs && e.height == h
    && Resolve(evs + [e], tip) != Resolve(evs, tip)
  }

  /** The heights at which a repeated event can change what is served, exactly: from activation up to V29. */
  lemma RepeatMattersExactly(h: nat)
    ensures (exists evs: seq<Event>, e: Event, tip: nat :: RepeatMatters(evs, e, h, tip)) <==>
            ACTIVATION_HEIGHT <= h < V29_HEIGHT
  {
    hide Resolve, EventOk;
    if evs: seq<Event>, e: Event, tip: nat :| RepeatMatters(evs, e, h, tip) {
      if !(ACTIVATION_HEIGHT <= h < V29_HEIGHT) {
        forall x: Event | x.height >= ACTIVATION_HEIGHT ensures Applications(evs + [e], x) == Applications(evs, x) { }
        ResolvedAlike(evs + [e], evs, tip);
      }
    }
    if ACTIVATION_HEIGHT <= h < V29_HEIGHT {
      var D, M := Deployed(1, 7, "ABC", 10, h), Minted(2, 7, "ABC", 3, h);
      RepeatsCountBelowV29(1, 2, 7, "ABC", 10, 3, h, h);
      assert [D, M] + [M] == [D, M, M];
      DeployMintOk(D, M);
      assert RepeatMatters([D, M], M, h, h);
    }
  }

  lemma DeployMintOk(d: Event, m: Event)
    requires d == Deployed(1, 7, "ABC", 10, d.height) && m == Minted(2, 7, "ABC", 3, m.height)
    ensures EventOk(d) && EventOk(m)
  {
  }

  function Deployed(id: Id, who: Addr, ticker: string, supply: nat, h: nat): Event {
    Propose(id, who, Some(Deploy(ticker, supply, None)), 0, h, 0, map[TREASURY_ADDR := DEPLOY_FEE])
  }

  function Minted(id: Id, who: Addr, ticker: string, amount: nat, h: nat): Event {
    Propose(id, who, Some(Mint(ticker, Some(amount))), 0, h, 1, map[])
  }

  predicate NoOffers(L: Ledger) { L.market == Market([], map[], map[], []) && L.pendingCancels == [] }

  lemma StepNoOffers(L: Ledger, ev: Event)
    requires NoOffers(L) && ev.Propose? && ev.height >= ACTIVATION_HEIGHT
    requires ev.rec.Some? && (ev.rec.value.Deploy? || ev.rec.value.Mint?)
    ensures NoOffers(Step(L, ev)) && Step(L, ev).assets == ApplyPropose(L, ev).assets
  {
  }

  lemma AppliedPush(s: seq<Event>, e: Event)
    requires Sort(s) == s && Dedup(s) == s && (s == [] || !Before(e, s[|s| - 1])) && e.height < V29_HEIGHT
    ensures Sort(s + [e]) == s + [e] && Dedup(s + [e]) == s + [e] && Run(s + [e]) == Step(Run(s), e)
  {
    assert (s + [e])[..|s|] == s;
  }

  /** What a deploy and then one or two mints make of an empty ledger. */
  lemma MintedTwice(D: Event, M: Event)
    requires D.Propose? && ACTIVATION_HEIGHT <= D.height && M.Propose? && ACTIVATION_HEIGHT <= M.height
    requires D.proposer == M.proposer
    requires D.rec.Some? && D.rec.value.Deploy? && D.rec.value.mintLimit == None && Pt(D.paidTo, TREASURY_ADDR) >= DEPLOY_FEE
    requires M.rec.Some? && M.rec.value.Mint? && M.rec.value.ticker == D.rec.value.ticker && M.rec.value.mintAmount.Some?
    requires 0 < 2 * M.rec.value.mintAmount.value <= D.rec.value.supply
    ensures var L1 := Step(EMPTY, D); var L2 := Step(L1, M); var L3 := Step(L2, M);
      var who, t, x := M.proposer, M.rec.value.ticker, M.rec.value.mintAmount.value;
      && NoOffers(L2) && BalOf(L2.assets.balances, t, who).available == x
      && NoOffers(L3) && BalOf(L3.assets.balances, t, who).available == 2 * x
  {
    hide Step;
    var L1 := Step(EMPTY, D);
    var L2 := Step(L1, M);
    StepNoOffers(EMPTY, D);
    StepNoOffers(L1, M);
    StepNoOffers(L2, M);
    assert L2.assets.tokens[M.rec.value.ticker].minted == M.rec.value.mintAmount.value;
  }

  /** Below V29 a repeated transaction applies again: at any height from activation on, a mint within the supply of a
      token just deployed, delivered twice, credits twice its amount. */
  lemma RepeatsCountBelowV29(deploy: Id, mint: Id, who: Addr, ticker: string, supply: nat, amount: nat, h: nat, tip: nat)
    requires ACTIVATION_HEIGHT <= h < V29_HEIGHT && 0 < 2 * amount <= supply
    ensures var D, M := Deployed(deploy, who, ticker, supply, h), Minted(mint, who, ticker, amount, h);
      && BalOf(Resolve([D, M], tip).assets.balances, ticker, who).available == amount
      && BalOf(Resolve([D, M, M], tip).assets.balances, ticker, who).available == 2 * amount
  {
    hide Step, Seal, Sort, Dedup, BalOf, Before;
    var D, M := Deployed(deploy, who, ticker, supply, h), Minted(mint, who, ticker, amount, h);
    MintApplied(D, M);
    MintedTwice(D, M);
    var L2 := Step(Step(EMPTY, D), M);
    SealNoOffers(L2, tip);
    SealNoOffers(Step(L2, M), tip);
  }

  lemma NothingApplied()
    ensures Sort([]) == [] && Dedup([]) == [] && Run([]) == EMPTY
  {
  }

  lemma MintApplied(D: Event, M: Event)
    requires D.Propose? && M.Propose? && D.height == M.height < V29_HEIGHT && D.pos < M.pos
    ensures Run(Applied([D, M])) == Step(Step(EMPTY, D), M)
    ensures Run(Applied([D, M, M])) == Step(Step(Step(EMPTY, D), M), M)
  {
    hide Step, Insert, Sort, Dedup, Run;
    NothingApplied();
    AppliedPush([], D);
    assert [] + [D] == [D] && [D] + [M] == [D, M] && [D, M] + [M] == [D, M, M];
    AppliedPush([D], M);
    AppliedPush([D, M], M);
  }

  lemma SealNoOffers(L: Ledger, tip: nat)
    requires NoOffers(L)
    ensures Seal(L, tip).assets == L.assets
  {
  }
}
