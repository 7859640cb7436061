/** What a fill hands over, in plain terms (packages/cairnx/src/resolve/attest.ts:77-226, context.ts): the name with its new
    anchor, or the tokens out of the seller's lock; and what becomes of the bid it answers. */
module Deliveries {
  import opened Rules
  import opened Ledgers
  import opened Handlers
  import opened Replay
  import opened OfferInvariants
  import opened Conservation
  import opened HoldCap
  import opened Preflight
  import opened Pricing

  /** A sold name is the buyer's and off the market; from height 31_100 on it is anchored at the sale, and bought. The lease
      runs on. */
  predicate Sold(n: NameRec, m: NameRec, ev: Event)
    requires ev.Attest?
  {
    && m.owner == ev.attester && !m.locked
    && m.paidThroughEpoch == n.paidThroughEpoch && m.pending == n.pending && m.finalizeBy == n.finalizeBy
    && (if ev.height < 31_100 then
          m.effHeight == n.effHeight && m.pos == n.pos && m.id == n.id && m.height == n.height && m.viaFill == n.viaFill
        else m.effHeight == ev.height && m.pos == ev.pos && m.id == ev.id && m.height == ev.height && m.viaFill)
  }

  /** `x` units of the give pass from the seller's locked balance to the buyer's available one; a name passes whole. The
      balances are those of `bs` before. */
  ghost predicate HandsOver(L: Ledger, M: Ledger, bs: Balances, o: Offer, ev: Event, x: nat)
    requires ev.Attest?
  {
    match o.give
    case NameGive(nm) =>
      && nm in L.registry.names && nm in M.registry.names && Sold(L.registry.names[nm], M.registry.names[nm], ev)
      && M.registry == L.registry.(names := L.registry.names[nm := M.registry.names[nm]]) && M.assets.balances == bs
    case TokenGive(ticker, _) =>
      && M.registry == L.registry
      && forall t: string, a: Addr ::
           BalOf(M.assets.balances, t, a)
           == Bal(BalOf(bs, t, a).available + (if t == ticker && a == ev.attester then x else 0),
                  BalOf(bs, t, a).locked - (if t == ticker && a == o.seller then x else 0))
  }

  /** A bid that a completed fill answers is done, if it is open and its bidder's own fill; every other bid stands. */
  predicate BidAnswered(B: BidBook, C: BidBook, o: Offer, who: Addr) {
    if o.bid.Some? && o.bid.value in B.bids && B.bids[o.bid.value].status.BidOpen? && B.bids[o.bid.value].bidder == who then
      C == BidBook(B.bids[o.bid.value := B.bids[o.bid.value].(status := BidDone)], B.openBids - {o.bid.value})
    else C == B
  }

  lemma GiveHandsOver(L: Ledger, bs: Balances, o: Offer, ev: Event, x: nat)
    requires ev.Attest? && GiveReady(L, o) && (o.give.TokenGive? ==> L.market.offerLock[o.id] == x)
    ensures var P := Pay(L, bs); var D := DeliverGive(P, o, ev.attester, ev);
      HandsOver(L, D, bs, o, ev, x) && D.assets.tokens == L.assets.tokens && D.bidBook == L.bidBook
  {
    hide Credit, BalOf;
    if o.give.TokenGive? {
      forall t: string, a: Addr { ReleasedBalance(bs, o.give.ticker, o.seller, ev.attester, x, t, a); }
    }
  }

  lemma FillAnswers(D: Ledger, oid: Id, entry: FillEntry)
    requires oid in D.market.offers
    ensures var M := FinishFill(D, oid, entry);
      BidAnswered(D.bidBook, M.bidBook, D.market.offers[oid], entry.buyer) && M.assets == D.assets && M.registry == D.registry
      && M.feesPaid == D.feesPaid
  {
  }

  /** An applied fill of a whole CSD-priced offer hands over its whole give and answers its bid. */
  lemma WholeFillDelivers(L: Ledger, ev: Event, oid: Id)
    requires Inv(L) && ev.Attest? && ev.score == SCORE_FILL && Routed(L, ev) == Some(oid) && Handle(L, ev) != L
    requires L.market.offers[oid].want.CsdWant? && (L.market.offers[oid].min.None? || L.market.offers[oid].give.NameGive?)
    ensures var o, M := L.market.offers[oid], Handle(L, ev);
      && HandsOver(L, M, L.assets.balances, o, ev, if o.give.TokenGive? then o.give.amount else 0)
      && BidAnswered(L.bidBook, M.bidBook, o, ev.attester) && M.assets.tokens == L.assets.tokens
  {
    hide Inv, FillBarred, Dominates, Needs, DeliverGive, FeeAt, HandsOver, BidAnswered, MarkBidDone, FinishFill;
    var o := L.market.offers[oid];
    SoundOffer(L, oid);
    WholeOnly(o);
    assert Handle(L, ev) == ApplyFill(L, ev, oid);
    assert !FillBarred(o, ev) && GiveReady(L, o);
    if o.give.TokenGive? { WholeLock(L, oid, ev); }
    var x := if o.give.TokenGive? then o.give.amount else 0;
    var fee := FeeAt(o.want.value, o.feeBps);
    GiveHandsOver(L, L.assets.balances, o, ev, x);
    var D := DeliverGive(L, o, ev.attester, ev);
    assert Pay(L, L.assets.balances) == L;
    GiveDelivered(L, o, ev.attester, ev);
    FillAnswers(D.(feesPaid := L.feesPaid + fee), oid, FillEntry(ev.attester, ev.id, ev.height, Pt(ev.paidTo, o.want.payto), fee, 0));
    SameHandsOver(L, D, Handle(L, ev), L.assets.balances, o, ev, x);
  }

  lemma SameHandsOver(L: Ledger, D: Ledger, M: Ledger, bs: Balances, o: Offer, ev: Event, x: nat)
    requires ev.Attest? && HandsOver(L, D, bs, o, ev, x) && M.assets == D.assets && M.registry == D.registry
    ensures HandsOver(L, M, bs, o, ev, x)
  {
    hide BalOf;
  }

  /** An applied fill of a token-priced offer does so too, over the balances the payment leaves. */
  lemma TokenFillDelivers(L: Ledger, ev: Event, oid: Id)
    requires Inv(L) && ev.Attest? && ev.score == SCORE_FILL && Routed(L, ev) == Some(oid) && Handle(L, ev) != L
    requires L.market.offers[oid].want.TokenWant?
    ensures var o, M := L.market.offers[oid], Handle(L, ev);
      && HandsOver(L, M, SettleTokens(L.assets.balances, o.want, ev.attester, FeeAt(o.want.amount, o.feeBps)), o, ev,
                   if o.give.TokenGive? then o.give.amount else 0)
      && BidAnswered(L.bidBook, M.bidBook, o, ev.attester) && M.assets.tokens == L.assets.tokens && M.feesPaid == L.feesPaid
  {
    hide Inv, DeliverGive, FeeAt, HandsOver, BidAnswered, MarkBidDone, FinishFill, SettleTokens, BalOf;
    var o, who := L.market.offers[oid], ev.attester;
    SoundOffer(L, oid);
    assert Handle(L, ev) == ApplyTokenFill(L, ev, oid);
    assert o.status.Open? && GiveReady(L, o);
    if o.give.TokenGive? { TokenLock(L, oid); }
    var x := if o.give.TokenGive? then o.give.amount else 0;
    var fee := FeeAt(o.want.amount, o.feeBps);
    var bs := SettleTokens(L.assets.balances, o.want, who, fee);
    GiveHandsOver(L, bs, o, ev, x);
    var D := DeliverGive(Pay(L, bs), o, who, ev);
    GiveDelivered(Pay(L, bs), o, who, ev);
    FillAnswers(D, oid, FillEntry(who, ev.id, ev.height, o.want.amount, fee, 0));
    SameHandsOver(L, D, Handle(L, ev), bs, o, ev, x);
  }

  /** What a portion leaves: the undelivered rest under the offer's lock, or, of a filled offer, none. */
  predicate LeavesLocked(L: Ledger, M: Ledger, oid: Id, who: Addr)
    requires oid in L.market.offers && oid in M.market.offers && M.market.offers[oid].give.TokenGive?
  {
    var n := M.market.offers[oid];
    if n.status.Filled? then
      M.market.offerLock == L.market.offerLock - {oid} && BidAnswered(L.bidBook, M.bidBook, L.market.offers[oid], who)
    else M.market.offerLock == L.market.offerLock[oid := n.give.amount - n.delivered] && M.bidBook == L.bidBook
  }

  /** An applied portion hands over what it adds to the delivered total; the lock shrinks by as much, and goes with the last
      portion, which answers the bid. */
  lemma PortionDelivers(L: Ledger, ev: Event, oid: Id)
    requires Inv(L) && ev.Attest? && ev.score == SCORE_FILL && Routed(L, ev) == Some(oid) && Handle(L, ev) != L
    requires var o := L.market.offers[oid]; o.want.CsdWant? && o.min.Some? && o.give.TokenGive?
    ensures var o, M := L.market.offers[oid], Handle(L, ev);
      && oid in M.market.offers && M.market.offers[oid].delivered > o.delivered && M.assets.tokens == L.assets.tokens
      && HandsOver(L, M, L.assets.balances, o, ev, M.market.offers[oid].delivered - o.delivered)
      && LeavesLocked(L, M, oid, ev.attester)
  {
    hide Inv, OffersInv, FillBarred, PartialRefused, PortionEntry, AfterPortion, PortionOf, ApplyPartialFill, Handle;
    hide HandsOver, BidAnswered, MarkBidDone;
    var o := L.market.offers[oid];
    SoundParts(L);
    PartialRoute(L, ev, oid);
    PartialFillOffers(L, ev, oid);
    PortionLock(L, ev, oid);
    OpenWhenLet(o, ev);
    PortionState(L, ev, oid);
    var entry := PortionEntry(o, ev);
    AfterIs(o, entry);
    PortionHandsOver(L, Handle(L, ev), o, ev, entry.got);
    DoneAnswers(L.bidBook, o, ev.attester);
  }

  lemma PortionState(L: Ledger, ev: Event, oid: Id)
    requires ev.Attest? && oid in L.market.offers && IsPartial(L.market.offers[oid])
    requires var o := L.market.offers[oid]; o.id == oid && PartialSane(o) && !FillBarred(o, ev) && !PartialRefused(L, ev, o)
    requires var o := L.market.offers[oid]; o.delivered <= PortionOf(o, Pt(ev.paidTo, o.want.payto)).newDelivered
    ensures var o, M := L.market.offers[oid], ApplyPartialFill(L, ev, oid); var entry := PortionEntry(o, ev);
      && entry.got > 0 && M.registry == L.registry && M.assets.tokens == L.assets.tokens
      && M.assets.balances == Released(L.assets.balances, o.give.ticker, o.seller, ev.attester, entry.got)
      && (if o.paid + entry.paid == o.want.value then
            M.market.offerLock == L.market.offerLock - {oid} && M.bidBook == MarkBidDone(L.bidBook, o.bid, ev.attester)
          else M.market.offerLock == L.market.offerLock[oid := L.market.offerLock[oid] - entry.got] && M.bidBook == L.bidBook)
  {
    hide FillBarred, FeeAt, ProRata, Credit, MarkBidDone;
  }

  lemma PortionHandsOver(L: Ledger, M: Ledger, o: Offer, ev: Event, x: nat)
    requires ev.Attest? && o.give.TokenGive? && M.registry == L.registry
    requires M.assets.balances == Released(L.assets.balances, o.give.ticker, o.seller, ev.attester, x)
    ensures HandsOver(L, M, L.assets.balances, o, ev, x)
  {
    hide BalOf, Released;
    forall t: string, a: Addr { ReleasedBalance(L.assets.balances, o.give.ticker, o.seller, ev.attester, x, t, a); }
  }

  lemma OpenWhenLet(o: Offer, ev: Event)
    requires ev.Attest? && !FillBarred(o, ev)
    ensures o.status.Open?
  {
  }

  lemma AfterIs(o: Offer, entry: FillEntry)
    requires IsPartial(o) && o.status.Open?
    ensures var n := AfterPortion(o, entry);
      && n.delivered == o.delivered + entry.got && n.give == o.give && (n.status.Filled? <==> o.paid + entry.paid == o.want.value)
  {
  }

  lemma DoneAnswers(B: BidBook, o: Offer, who: Addr)
    ensures BidAnswered(B, MarkBidDone(B, o.bid, who), o, who)
  {
  }

  lemma PortionLock(L: Ledger, ev: Event, oid: Id)
    requires Inv(L) && ev.Attest? && oid in L.market.offers && IsPartial(L.market.offers[oid]) && ApplyPartialFill(L, ev, oid) != L
    ensures var o := L.market.offers[oid];
      && o.id == oid && PartialSane(o) && !FillBarred(o, ev) && !PartialRefused(L, ev, o)
      && oid in L.market.offerLock && L.market.offerLock[oid] == o.give.amount - o.delivered
      && o.delivered <= PortionOf(o, Pt(ev.paidTo, o.want.payto)).newDelivered
  {
    assert OfferOk(oid, L.market.offers[oid]);
  }
}
