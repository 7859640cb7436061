/** The guarantees a reader of resolve() relies on, for every chain and every tip: what the invariants of a run say
    of the state that is served. */
module Surface {
  import opened Rules
  import opened Ledgers
  import opened Handlers
  import opened Replay
  import opened Ordering
  import opened Closing
  import opened OfferInvariants
  import opened Conservation
  import opened NameSafety
  import opened HoldCap
  import opened Runs
  import opened Preflight
  import Arith

  /** A chain as it is handed to resolve(): every event at or below the tip, in any order, repeated or not from V29. */
  ghost predicate Chain(evs: seq<Event>, tip: nat) { Delivered(evs) && forall e :: e in evs ==> e.height <= tip }

  /** What is applied of a chain is a feed that reaches a sound ledger no later than the tip. */
  lemma AppliedRuns(evs: seq<Event>, tip: nat)
    requires Chain(evs, tip)
    ensures Feed(Applied(evs)) && Inv(Run(Applied(evs))) && Run(Applied(evs)).block <= tip
  {
    hide Inv, Run, Applied, Delivered, Feed;
    var past := Applied(evs);
    AppliedIsFeed(evs);
    assert past + [] == past;
    Continues(past, []);
    if past != [] { assert past[|past| - 1] in evs; }
  }

  lemma ServedIsSound(evs: seq<Event>, tip: nat)
    requires Chain(evs, tip)
    ensures Inv(Resolve(evs, tip)) && Resolve(evs, tip).block == tip + 1
  {
    hide Inv, Run, Prepare, Seal, Applied, Feed, Chain;
    var past := Applied(evs);
    AppliedRuns(evs, tip);
    SealIsPrepare(Run(past), tip);
    PrepareKeepsInv(Run(past), tip + 1);
  }

  /** Tokens are conserved: what circulates of a ticker is what was minted, never more than its supply; no balance is
      negative; and what is locked of a seller's tokens is what its open offers still have to deliver. */
  lemma TokensConserved(evs: seq<Event>, tip: nat)
    requires Chain(evs, tip)
    ensures var S := Resolve(evs, tip);
      && (forall t :: t in S.assets.tokens ==>
            Circulating(S.assets.balances, t) == S.assets.tokens[t].minted <= S.assets.tokens[t].supply)
      && (forall t :: t !in S.assets.tokens ==> Circulating(S.assets.balances, t) == 0)
      && (forall t: string, a: Addr ::
            BalOf(S.assets.balances, t, a).available >= 0
            && BalOf(S.assets.balances, t, a).locked == Undelivered(S.market, S.market.offerIds, t, a) >= 0)
  {
    hide Resolve, Chain, Inv;
    ServedIsSound(evs, tip);
    var S := Resolve(evs, tip);
    TokenParts(S);
    forall t: string, a: Addr ensures BalOf(S.assets.balances, t, a).locked == Undelivered(S.market, S.market.offerIds, t, a) >= 0 {
      LocksAreUndelivered(S.market, S.assets.tokens, S.market.offerIds, t, a);
    }
  }

  /** What the open offers of `a` in `t` still have to deliver. */
  function Undelivered(m: Market, ids: seq<Id>, t: string, a: Addr): int {
    if ids == [] then 0
    else
      var id := ids[|ids| - 1];
      Undelivered(m, ids[..|ids| - 1], t, a)
      + if id in m.offers && m.offers[id].status.Open? && m.offers[id].seller == a
           && m.offers[id].give.TokenGive? && m.offers[id].give.ticker == t
        then m.offers[id].give.amount - m.offers[id].delivered else 0
  }

  lemma TokenParts(S: Ledger)
    requires Inv(S)
    ensures TokenInv(S) && forall id :: id in S.market.offers ==> OfferOk(id, S.market.offers[id])
  {
  }

  lemma {:induction false} LocksAreUndelivered(m: Market, tokens: map<string, Token>, ids: seq<Id>, t: string, a: Addr)
    requires LockOk(m, tokens) && forall id :: id in m.offers ==> OfferOk(id, m.offers[id])
    ensures LockSum(m, ids, t, a) == Undelivered(m, ids, t, a) >= 0
  {
    if ids != [] {
      var id := ids[|ids| - 1];
      LocksAreUndelivered(m, tokens, ids[..|ids| - 1], t, a);
      if id in m.offers && m.offers[id].status.Open? && m.offers[id].give.TokenGive? {
        DeliveredWithinGive(id, m.offers[id]);
      }
    }
  }

  lemma DeliveredWithinGive(id: Id, o: Offer)
    requires OfferOk(id, o) && o.give.TokenGive?
    ensures o.delivered <= o.give.amount
  {
    if IsPartial(o) { DeliveredBound(o); }
  }

  /** A listed name is there, registered, the seller's, locked by that one offer, and its lease has not lapsed. */
  lemma ListedNamesSafe(evs: seq<Event>, tip: nat, id: Id)
    requires Chain(evs, tip)
    requires var S := Resolve(evs, tip); id in S.market.offers && S.market.offers[id].status.Open? && S.market.offers[id].give.NameGive?
    ensures var S := Resolve(evs, tip); var o := S.market.offers[id]; var nm := o.give.name;
      && nm in S.registry.names
      && S.registry.names[nm].owner == o.seller && !S.registry.names[nm].pending && S.registry.names[nm].locked
      && !Lapsed(S.registry.names[nm], EpochOf(tip + 1))
      && (forall j :: j in S.market.offers && S.market.offers[j].status.Open? && S.market.offers[j].give == NameGive(nm) ==> j == id)
  {
    hide Resolve, Chain;
    ServedIsSound(evs, tip);
    var S := Resolve(evs, tip);
    var nm := S.market.offers[id].give.name;
    assert Lists(S.market.offers, id, nm);
    ListedNotLapsed(S, id, nm, tip + 1);
    forall j | j in S.market.offers && S.market.offers[j].status.Open? && S.market.offers[j].give == NameGive(nm) ensures j == id {
      assert Lists(S.market.offers, j, nm);
    }
  }

  /** No address ever holds more than three open offers at once. */
  lemma HoldsCapped(evs: seq<Event>, tip: nat, who: Addr)
    requires Chain(evs, tip)
    ensures |OpenHolds(Resolve(evs, tip).market.offers, who, tip + 1)| <= MAX_ACTIVE_CLAIMS
  {
    hide Resolve, Chain;
    ServedIsSound(evs, tip);
  }

  /** The account of an offer sold in portions, after any run of fills. */
  lemma PortionsAddUp(evs: seq<Event>, tip: nat, id: Id)
    requires Chain(evs, tip)
    requires var S := Resolve(evs, tip); id in S.market.offers && IsPartial(S.market.offers[id])
    ensures var o := Resolve(evs, tip).market.offers[id];
      && o.want.value > 0 && o.paid <= o.want.value
      && o.delivered == (o.give.amount * o.paid) / o.want.value
      && SumPaid(o.fills) == o.paid && SumGot(o.fills) == o.delivered
      && (o.status.Filled? <==> o.paid == o.want.value) && (o.status.Filled? ==> o.delivered == o.give.amount)
      && FeeAt(o.paid, o.feeBps) <= SumFee(o.fills)
      && SumFee(o.fills) <= FeeAt(o.paid, o.feeBps) + (if o.fills == [] then 0 else |o.fills| - 1)
  {
    hide Resolve, Chain;
    ServedIsSound(evs, tip);
    var o := Resolve(evs, tip).market.offers[id];
    assert OfferOk(id, o);
    if o.paid == o.want.value { Arith.MulDiv(o.give.amount, o.want.value); }
  }

  /** At every height a run can reach, the sweep over the private indexes settles what a scan of every row would. */
  lemma SweptIsScanned(past: seq<Event>, height: nat)
    requires Feed(past)
    ensures Prepare(Run(past), height) == FullScan(EnterBlock(Run(past), height), height)
  {
    hide Run, SweepExpired, FullScan, EnterBlock, IndexInv;
    assert past + [] == past;
    Continues(past, []);
    PrepareIs(Run(past), height);
    IndexedSweepIsFullScan(EnterBlock(Run(past), height), height);
  }

  /** So does the closing sweep, and with it resolve(): its result is a full scan of the replayed ledger after the last
      block's deferred cancels. The indexes are exactly the open rows, and nothing left open has expired. */
  lemma ServedIsSettled(evs: seq<Event>, tip: nat)
    requires Chain(evs, tip)
    ensures var S := Resolve(evs, tip);
      && (forall id :: id in S.market.openOffers <==> id in S.market.offers && S.market.offers[id].status.Open?)
      && S.bidBook.openBids == (set id | id in S.bidBook.bids && S.bidBook.bids[id].status.BidOpen?)
      && S.registry.pendingNames == (set nm | nm in S.registry.names && S.registry.names[nm].pending)
      && S == FullScan(FlushCancels(Run(Applied(evs))).(block := tip + 1), tip + 1)
      && (forall id :: id in S.market.offers && S.market.offers[id].status.Open? ==>
            tip + 1 < OfferExpiryHeightOf(S.market.offers[id].expiresEpoch, S.market.offers[id].height))
  {
    hide Resolve, Chain, FullScan, FlushCancels, Run, Applied;
    ServedIsSound(evs, tip);
    var S := Resolve(evs, tip);
    ClosingScan(evs, tip);
    forall id ensures id in S.market.openOffers <==> id in S.market.offers && S.market.offers[id].status.Open? {
      OpenAmongIn(S.market.offerIds, S.market.offers, id);
    }
    forall id | id in S.market.offers && S.market.offers[id].status.Open?
      ensures tip + 1 < OfferExpiryHeightOf(S.market.offers[id].expiresEpoch, S.market.offers[id].height)
    {
      ExpiryHeightExact(S.market.offers[id], tip + 1);
    }
  }

  lemma ClosingScan(evs: seq<Event>, tip: nat)
    requires Chain(evs, tip)
    ensures Resolve(evs, tip) == FullScan(FlushCancels(Run(Applied(evs))).(block := tip + 1), tip + 1)
  {
    hide Run, Applied, SweepExpired, FullScan, FlushCancels, Inv, Feed, Chain;
    AppliedRuns(evs, tip);
    SweptIsScanned(Applied(evs), tip + 1);
  }

  /** At every event of every chain, the offers a fill can meet can deliver: the name is there or the lock is, and a
      partial offer's price is positive and not overpaid. The branches that handle the contrary never run. */
  lemma DeadBranches(past: seq<Event>, ev: Event, id: Id)
    requires Feed(past + [ev])
    requires var P := Prepare(Run(past), ev.height); id in P.market.offers && P.market.offers[id].status.Open?
    ensures var P := Prepare(Run(past), ev.height); var o := P.market.offers[id];
      GiveReady(P, o) && (IsPartial(o) ==> PartialSane(o)) && !Due(Sweep(ev.height), o)
  {
    hide Prepare, Run;
    LastStep(past, ev);
    PrepareKeepsInv(Run(past), ev.height);
    var P := Prepare(Run(past), ev.height);
    OpenOffersReady(P, id);
    assert OfferOk(id, P.market.offers[id]);
  }
}
