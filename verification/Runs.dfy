/** The invariants at the surface: what resolve() guarantees for every chain and every tip. */
module Runs {
  import opened Ledgers
  import opened Handlers
  import opened Replay
  import opened OfferInvariants
  import opened HoldCap

  lemma FeedParts(a: seq<Event>, b: seq<Event>)
    requires Feed(a + b)
    ensures Feed(a) && Feed(b) && Ids(a) !! Ids(b)
    ensures forall x, y :: x in a && y in b ==> Before(x, y)
  {
    var all := a + b;
    assert forall i :: 0 <= i < |a| ==> all[i] == a[i];
    assert forall i :: 0 <= i < |b| ==> all[|a| + i] == b[i];
    forall x | x in Ids(a) ensures x !in Ids(b) {
      var i :| 0 <= i < |a| && a[i].id == x;
      assert all[i].id == x;
    }
  }

  /** A feed cut in two: the first part reaches a sound ledger, and the rest continues it. */
  lemma Continues(a: seq<Event>, b: seq<Event>)
    requires Feed(a + b)
    ensures Feed(a) && Inv(Run(a)) && Follows(Run(a), b) && Run(a + b) == RunFrom(Run(a), b)
    ensures Run(a).block <= (if a == [] then -1 else a[|a| - 1].height)
  {
    hide Step, Inv, Before;
    FeedParts(a, b);
    EmptyInv();
    RunKeepsInv(EMPTY, a);
    RunFromAppend(EMPTY, a, b);
    forall i | 0 <= i < |b| ensures b[i].height >= Run(a).block {
      if a != [] { NotEarlier(a[|a| - 1], b[i]); }
    }
  }

  lemma NotEarlier(x: Event, y: Event)
    requires Before(x, y)
    ensures x.height <= y.height
  {
  }

  /** A continuation that ends in `fin` reaches it through a ledger that `fin` can follow. */
  lemma BeforeLast(L: Ledger, evs: seq<Event>, fin: Event)
    requires Inv(L) && Follows(L, evs + [fin])
    ensures Follows(L, evs) && Inv(RunFrom(L, evs)) && Next(RunFrom(L, evs), fin)
    ensures RunFrom(L, evs + [fin]) == Step(RunFrom(L, evs), fin)
    ensures forall i :: 0 <= i < |evs| ==> evs[i].height <= fin.height
  {
    hide Step, Inv;
    var all := evs + [fin];
    assert all[..|all| - 1] == evs && all[|all| - 1] == fin;
    assert forall i :: 0 <= i < |evs| ==> all[i] == evs[i] && Before(all[i], fin);
    RestFollows(L, all);
    RunKeepsInv(L, evs);
    LastNext(L, RunFrom(L, evs), all);
  }

  /** The closing view a client reads at `tip` is the ledger the first handler of the next block sees. */
  lemma SealIsPrepare(L: Ledger, tip: nat)
    requires L.block <= tip
    ensures Seal(L, tip) == Prepare(L, tip + 1)
  {
  }

  /** The last event of a feed is a step from a sound ledger. */
  lemma LastStep(a: seq<Event>, ev: Event)
    requires Feed(a + [ev])
    ensures Feed(a) && Inv(Run(a)) && Next(Run(a), ev) && Run(a + [ev]) == Step(Run(a), ev)
  {
    hide Step, Inv, Next, Before;
    Continues(a, [ev]);
    assert [] + [ev] == [ev];
    BeforeLast(Run(a), [], ev);
  }
}
