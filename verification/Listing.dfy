/** What the market records do, in plain terms (packages/cairnx/src/resolve/market.ts, attest.ts:28-75): which offers and bids
    are accepted and what they tie up, which cancels take and when, and that a firm quote is never cancelled. */
module Listings {
  import opened Rules
  import opened Ledgers
  import opened Handlers
  import opened Replay
  import opened Closing
  import opened HeightInvariants
  import opened Conservation
  import opened Naming
  import opened Pricing

  // ----- offers -----

  predicate IsOfferEvent(ev: Event) { ev.Propose? && ev.rec.Some? && ev.rec.value.OfferRec? }

  /** Where the price goes: the address the record names, or its author. */
  function PriceTo(ev: Event): Addr
    requires IsOfferEvent(ev)
  {
    match ev.rec.value.want.payto
    case None => ev.proposer
    case Some(a) => a
  }

  /** Terms the rules accept at this height: no token price, minimum or bid link before 30_300; no open CSD-priced offer in
      [31_100, 34_000); no name before 29_960; an end no earlier than the current epoch, a safe integer, and in
      [40_100, 41_300) at most 168 epochs off; and never the treasury as payee. */
  predicate Acceptable(ev: Event)
    requires IsOfferEvent(ev)
  {
    var rec, h, end := ev.rec.value, ev.height, ev.expiresEpoch;
    && (h < 30_300 ==> rec.want.ValueSpec? && rec.min.None? && rec.bid.None?)
    && (31_100 <= h < 34_000 ==> rec.want.AmountSpec? || rec.taker.Some?)
    && (h < 29_960 ==> rec.give.TokenGive?)
    && h < (end + 1) * 30 && end < 0x20_0000_0000_0000
    && (40_100 <= h < 41_300 ==> end * 30 <= (h / 30 + 168) * 30)
    && PriceTo(ev) != TREASURY_ADDR
  }

  /** May its author sell the name: it is the author's, registered and not listed; from 31_100 on one that was not bought is
      anchored over 240 blocks back - eight, from 46_520; and from 32_000 on its lease outlives the offer. */
  ghost predicate MaySell(n: NameRec, ev: Event)
    requires ev.Propose?
  {
    && n.owner == ev.proposer && !n.pending && !n.locked
    && (ev.height >= 31_100 && !n.viaFill ==> ev.height > n.effHeight + (if ev.height < 46_520 then 240 else 8))
    && (ev.height >= 32_000 ==> exists end: nat :: LeaseEnds(n, end) && ev.expiresEpoch <= end)
  }

  /** Can the give be tied up: a name its author may sell, or tokens that are there. */
  ghost predicate CanTie(L: Ledger, ev: Event)
    requires IsOfferEvent(ev)
  {
    match ev.rec.value.give
    case NameGive(nm) => nm in L.registry.names && MaySell(L.registry.names[nm], ev)
    case TokenGive(t, amount) => t in L.assets.tokens && BalOf(L.assets.balances, t, ev.proposer).available >= amount
  }

  /** A new offer carries the record's terms, its author, place and end, and the rate of its height. */
  predicate Carries(o: Offer, ev: Event)
    requires IsOfferEvent(ev)
  {
    var rec := ev.rec.value;
    && o.id == ev.id && o.seller == ev.proposer && o.give == rec.give && o.taker == rec.taker && o.min == rec.min && o.bid == rec.bid
    && o.status.Open? && o.expiresEpoch == ev.expiresEpoch && o.height == ev.height && RateAt(o.feeBps, ev.height)
    && (match rec.want
        case ValueSpec(v, _) => o.want == CsdWant(v, PriceTo(ev))
        case AmountSpec(t, x, _) => o.want == TokenWant(t, x, PriceTo(ev)))
    && o.paid == 0 && o.delivered == 0 && o.fills == [] && o.fill.None? && o.hold.None? && o.claimTxid.None?
  }

  /** `x` units of the author's `ticker` are locked, under the offer's id. */
  ghost predicate Ties(L: Ledger, M: Ledger, ev: Event, ticker: string, x: nat)
    requires ev.Propose?
  {
    && M.registry == L.registry && M.assets.tokens == L.assets.tokens && M.market.offerLock == L.market.offerLock[ev.id := x]
    && forall t: string, a: Addr ::
         var b, d := BalOf(L.assets.balances, t, a), if t == ticker && a == ev.proposer then x else 0;
         BalOf(M.assets.balances, t, a) == Bal(b.available - d, b.locked + d)
  }

  lemma AcceptableIs(ev: Event)
    requires IsOfferEvent(ev)
    ensures Acceptable(ev) <==> !EnvelopeRefused(ev.rec.value, ev.proposer, ev.height, ev.expiresEpoch)
  {
  }

  lemma MaySellIs(n: NameRec, ev: Event)
    requires ev.Propose?
    ensures MaySell(n, ev) <==> Listable(n, ev.proposer, ev.height, ev.expiresEpoch)
  {
    var end := PaidThrough(n);
    assert LeaseEnds(n, end);
  }

  /** An offer is listed if and only if its terms are acceptable and its give can be tied up; the book then carries it as
      the record states it, and its give is locked: the name, or the tokens. */
  lemma OfferListed(L: Ledger, ev: Event)
    requires IsOfferEvent(ev)
    ensures var M := Handle(L, ev);
      if Acceptable(ev) && CanTie(L, ev) then
        && ev.id in M.market.offers && Carries(M.market.offers[ev.id], ev)
        && M.market.offers == L.market.offers[ev.id := M.market.offers[ev.id]]
        && M.feesPaid == L.feesPaid && M.fclaims == L.fclaims && M.bidBook == L.bidBook
        && (match ev.rec.value.give
            case TokenGive(t, x) => Ties(L, M, ev, t, x)
            case NameGive(nm) =>
              M.assets == L.assets && M.market.offerLock == L.market.offerLock
              && M.registry == L.registry.(names := L.registry.names[nm := L.registry.names[nm].(locked := true)]))
      else M == L
  {
    hide EnvelopeRefused, Listable, Acceptable, MaySell, Credit, BalOf;
    AcceptableIs(ev);
    match ev.rec.value.give
    case NameGive(nm) => if nm in L.registry.names { MaySellIs(L.registry.names[nm], ev); }
    case TokenGive(t, x) =>
      forall u: string, a: Addr { CreditBalance(L.assets.balances, t, ev.proposer, 0 - x, x, u, a); }
  }

  // ----- bids -----

  /** A bid is booked open from height 30_300 on, if it is not over yet, under the bounds an offer's end has. */
  lemma BidBooked(L: Ledger, ev: Event)
    requires ev.Propose? && ev.rec == Some(BidRec)
    ensures var M, h, end := Handle(L, ev), ev.height, ev.expiresEpoch;
      if h >= 30_300 && h < (end + 1) * 30 && end < 0x20_0000_0000_0000
         && (40_100 <= h < 41_300 ==> end * 30 <= (h / 30 + 168) * 30) then
        && M.bidBook.bids == L.bidBook.bids[ev.id := Bid(ev.proposer, BidOpen, end, h)]
        && M.bidBook.openBids == L.bidBook.openBids + {ev.id} && M == L.(bidBook := M.bidBook)
      else M == L
  {
  }

  /** The last height a bid is good for: the end of its epoch; for one from below 41_300 while [40_100, ..) caps it, 168
      epochs after its own. */
  predicate BidOver(b: Bid, height: nat) {
    || height >= (b.expiresEpoch + 1) * 30
    || (b.height < 41_300 && height >= 40_100 && height >= (b.height / 30 + 169) * 30)
  }

  /** The sweep before an event expires exactly the open bids that are over. */
  lemma BidsExpire(L: Ledger, height: nat, id: Id)
    requires IndexInv(L) && id in L.bidBook.bids
    ensures var P, b := Prepare(L, height), L.bidBook.bids[id];
      id in P.bidBook.bids && P.bidBook.bids[id] == if b.status.BidOpen? && BidOver(b, height) then b.(status := BidExpired) else b
  {
    hide SweptOffers, MarketIndex, NameIndex, IndexInv, BidDue, BidOver;
    BidIndexOf(L);
    PrepareIs(L, height);
    BidsOfPass(L, height);
    OverIsDue(L.bidBook.bids[id], height);
  }

  lemma BidIndexOf(L: Ledger)
    requires IndexInv(L)
    ensures BidIndex(L.bidBook)
  {
  }

  lemma BidsOfPass(L: Ledger, height: nat)
    requires IndexInv(L)
    ensures SweptOffers(L, height).bidBook == L.bidBook
  {
    hide CloseAll, FlushFrom, IndexInv;
    FlushWinds(L, L.pendingCancels);
    var E := EnterBlock(L, height);
    CloseAllEffect(E, E.market.offerIds, Sweep(height));
  }

  lemma OverIsDue(b: Bid, height: nat)
    ensures BidDue(b, height) <==> b.status.BidOpen? && BidOver(b, height)
  {
  }
}
