/** What a closing pass over offers (sweep, flush, void, cancel) does and leaves alone, and the private
    indexes: the indexed sweep is the full scan of conformance/cairnx_ref.py. */
module Closing {
  import opened Rules
  import opened Ledgers
  import opened Handlers
  import opened Replay

  ghost predicate Distinct(s: seq<Id>) { forall i, j :: 0 <= i < j < |s| ==> s[i] != s[j] }

  function Prefix(s: seq<Id>): seq<Id> requires s != [] { s[..|s| - 1] }
  function Last(s: seq<Id>): Id requires s != [] { s[|s| - 1] }

  lemma InPrefix(s: seq<Id>, x: Id)
    requires s != []
    ensures x in s <==> x in Prefix(s) || x == Last(s)
  {
    assert s == Prefix(s) + [Last(s)];
  }

  /** The fields no closing pass touches agree. */
  ghost predicate SameBesides(L: Ledger, M: Ledger) {
    && L.assets.tokens == M.assets.tokens
    && L.registry.pendingNames == M.registry.pendingNames && L.registry.commits == M.registry.commits
    && L.registry.recaptures == M.registry.recaptures
    && L.market.offerIds == M.market.offerIds && L.market.offerLock == M.market.offerLock
    && L.bidBook == M.bidBook
    && L.fclaims == M.fclaims && L.pendingCancels == M.pendingCancels && L.feesPaid == M.feesPaid && L.block == M.block
  }

  ghost predicate ClosesIn(offers: map<Id, Offer>, id: Id, why: Reason) {
    id in offers && offers[id].status.Open? && Due(why, offers[id])
  }

  /** `b` is `a` with each visited offer that was open and due closed. */
  ghost predicate OffersClosed(a: map<Id, Offer>, b: map<Id, Offer>, ids: seq<Id>, why: Reason) {
    b.Keys == a.Keys
    && forall id :: id in a ==>
         b[id] == if id in ids && ClosesIn(a, id, why) then a[id].(status := Outcome(why)) else a[id]
  }

  /** Does a pass over `ids` close an offer of the name? */
  ghost predicate ClosesName(offers: map<Id, Offer>, ids: seq<Id>, why: Reason, nm: string) {
    exists id :: id in ids && ClosesIn(offers, id, why) && offers[id].give == NameGive(nm)
  }

  /** `b` is `a` with the names of the closed offers unlocked. */
  ghost predicate NamesUnlocked(offers: map<Id, Offer>, a: map<string, NameRec>, b: map<string, NameRec>, ids: seq<Id>, why: Reason) {
    b.Keys == a.Keys
    && forall nm :: nm in a ==> b[nm] == if ClosesName(offers, ids, why, nm) then a[nm].(locked := false) else a[nm]
  }

  /** What a closing pass over `ids` does beside moving balances and the open index. */
  ghost predicate PassEffect(L: Ledger, M: Ledger, ids: seq<Id>, why: Reason) {
    SameBesides(L, M) && OffersClosed(L.market.offers, M.market.offers, ids, why)
    && NamesUnlocked(L.market.offers, L.registry.names, M.registry.names, ids, why)
  }

  lemma CloseEffect(L: Ledger, id: Id, status: Status)
    requires id in L.market.offers
    ensures var M := Close(L, id, status);
      && SameBesides(L, M) && M.market.offers == L.market.offers[id := L.market.offers[id].(status := status)]
      && M.registry.names == (if L.market.offers[id].give.NameGive?
                              then SetLocked(L.registry, L.market.offers[id].give.name, false) else L.registry).names
  {
  }

  lemma ExtendOffersClosed(a: map<Id, Offer>, b: map<Id, Offer>, c: map<Id, Offer>, ids: seq<Id>, x: Id, why: Reason)
    requires OffersClosed(a, b, ids, why)
    requires c == if ClosesIn(b, x, why) then b[x := b[x].(status := Outcome(why))] else b
    ensures OffersClosed(a, c, ids + [x], why)
  {
  }

  lemma ExtendNamesUnlocked(offers: map<Id, Offer>, now: map<Id, Offer>, a: map<string, NameRec>, b: map<string, NameRec>,
                            c: map<string, NameRec>, ids: seq<Id>, x: Id, why: Reason)
    requires OffersClosed(offers, now, ids, why) && NamesUnlocked(offers, a, b, ids, why)
    requires c == if ClosesIn(now, x, why) && now[x].give.NameGive? && now[x].give.name in b
                  then b[now[x].give.name := b[now[x].give.name].(locked := false)] else b
    ensures NamesUnlocked(offers, a, c, ids + [x], why)
  {
    forall nm | nm in a
      ensures ClosesName(offers, ids + [x], why, nm)
              <==> ClosesName(offers, ids, why, nm) || (ClosesIn(offers, x, why) && offers[x].give == NameGive(nm))
    {
      if ClosesIn(offers, x, why) && offers[x].give == NameGive(nm) { assert x in ids + [x]; }
      if ClosesName(offers, ids, why, nm) {
        var id :| id in ids && ClosesIn(offers, id, why) && offers[id].give == NameGive(nm);
        assert id in ids + [x];
      }
    }
  }

  /** A closing pass changes offers exactly by closing, once, each visited offer that is open and due, and names
      exactly by unlocking those the closed offers list; only balances and the open index move beside them. */
  lemma {:induction false} CloseAllEffect(L: Ledger, ids: seq<Id>, why: Reason)
    ensures PassEffect(L, CloseAll(L, ids, why), ids, why)
  {
    hide Close, Due;
    if ids == [] {
    } else {
      var x, M := Last(ids), CloseAll(L, Prefix(ids), why);
      CloseAllEffect(L, Prefix(ids), why);
      var N := CloseOne(M, x, why);
      if Closes(M, x, why) { CloseEffect(M, x, Outcome(why)); }
      ExtendOffersClosed(L.market.offers, M.market.offers, N.market.offers, Prefix(ids), x, why);
      ExtendNamesUnlocked(L.market.offers, M.market.offers, L.registry.names, M.registry.names, N.registry.names, Prefix(ids), x, why);
      assert ids == Prefix(ids) + [x];
    }
  }

  // ----- the open-offer index -----

  /** The open offers among `ids`, in order. */
  function OpenAmong(ids: seq<Id>, offers: map<Id, Offer>): seq<Id> {
    if ids == [] then []
    else
      var id, rest := ids[|ids| - 1], OpenAmong(ids[..|ids| - 1], offers);
      if id in offers && offers[id].status.Open? then rest + [id] else rest
  }

  ghost predicate MarketIndex(m: Market) {
    Distinct(m.offerIds) && (forall id :: id in m.offerIds <==> id in m.offers)
    && m.openOffers == OpenAmong(m.offerIds, m.offers)
  }

  ghost predicate BidIndex(B: BidBook) { B.openBids == set id | id in B.bids && B.bids[id].status.BidOpen? }

  ghost predicate NameIndex(r: Registry) { r.pendingNames == set nm | nm in r.names && r.names[nm].pending }

  /** Every private index lists exactly the open or pending rows of its map, in insertion order. */
  ghost predicate IndexInv(L: Ledger) { MarketIndex(L.market) && BidIndex(L.bidBook) && NameIndex(L.registry) }

  lemma {:induction false} OpenAmongIn(ids: seq<Id>, offers: map<Id, Offer>, id: Id)
    ensures id in OpenAmong(ids, offers) <==> id in ids && id in offers && offers[id].status.Open?
  {
    if ids != [] {
      OpenAmongIn(Prefix(ids), offers, id);
      InPrefix(ids, id);
    }
  }

  /** The index depends only on which of the ids are open. */
  lemma {:induction false} OpenAmongSame(ids: seq<Id>, a: map<Id, Offer>, b: map<Id, Offer>)
    requires forall id :: id in ids ==> ((id in a && a[id].status.Open?) <==> (id in b && b[id].status.Open?))
    ensures OpenAmong(ids, a) == OpenAmong(ids, b)
  {
    if ids != [] {
      forall id | id in Prefix(ids) ensures id in ids { InPrefix(ids, id); }
      assert Last(ids) in ids;
      OpenAmongSame(Prefix(ids), a, b);
    }
  }

  /** Closing one offer removes exactly its index entry. */
  lemma {:induction false} OpenAmongClose(ids: seq<Id>, a: map<Id, Offer>, x: Id, closed: Offer)
    requires x in a && a[x].status.Open? && !closed.status.Open?
    ensures OpenAmong(ids, a[x := closed]) == Without(OpenAmong(ids, a), x)
  {
    if ids != [] {
      OpenAmongClose(Prefix(ids), a, x, closed);
      var id := Last(ids);
      if id in a && a[id].status.Open? {
        var s := OpenAmong(ids, a);
        assert s[..|s| - 1] == OpenAmong(Prefix(ids), a) && s[|s| - 1] == id;
      }
    }
  }

  lemma {:induction false} WithoutAbsent(s: seq<Id>, x: Id)
    requires x !in s
    ensures Without(s, x) == s
  {
    if s != [] {
      forall y | y in Prefix(s) ensures y in s { InPrefix(s, y); }
      assert Last(s) in s;
      WithoutAbsent(Prefix(s), x);
    }
  }

  lemma CloseOneIndex(L: Ledger, id: Id, why: Reason)
    requires IndexInv(L)
    ensures IndexInv(CloseOne(L, id, why))
  {
    if Closes(L, id, why) {
      CloseEffect(L, id, Outcome(why));
      OpenAmongClose(L.market.offerIds, L.market.offers, id, L.market.offers[id].(status := Outcome(why)));
    }
  }

  lemma {:induction false} CloseAllIndex(L: Ledger, ids: seq<Id>, why: Reason)
    requires IndexInv(L)
    ensures IndexInv(CloseAll(L, ids, why))
  {
    if ids != [] {
      CloseAllIndex(L, Prefix(ids), why);
      CloseOneIndex(CloseAll(L, Prefix(ids), why), Last(ids), why);
    }
  }

  // ----- the indexed sweep is the full scan -----

  /** Visiting only the open ids is visiting them all. */
  lemma {:induction false} CloseOnlyOpen(L: Ledger, ids: seq<Id>, why: Reason)
    ensures CloseAll(L, OpenAmong(ids, L.market.offers), why) == CloseAll(L, ids, why)
  {
    if ids != [] {
      CloseOnlyOpen(L, Prefix(ids), why);
      var s := OpenAmong(ids, L.market.offers);
      if IsOpen(L, Last(ids)) {
        assert s[..|s| - 1] == OpenAmong(Prefix(ids), L.market.offers) && s[|s| - 1] == Last(ids);
      } else {
        CloseAllEffect(L, Prefix(ids), why);
      }
    }
  }

  /** Over distinct open ids the indexed visit never meets a stale entry. */
  lemma {:induction false} SweepIsClose(L: Ledger, ids: seq<Id>, height: nat)
    requires Distinct(ids) && forall id :: id in ids ==> IsOpen(L, id)
    ensures SweepOffers(L, ids, height) == CloseAll(L, ids, Sweep(height))
  {
    if ids != [] {
      var x := Last(ids);
      forall id | id in Prefix(ids) ensures id in ids { InPrefix(ids, id); }
      SweepIsClose(L, Prefix(ids), height);
      CloseAllEffect(L, Prefix(ids), Sweep(height));
      assert x in ids && x !in Prefix(ids);
    }
  }

  lemma {:induction false} OpenAmongDistinct(ids: seq<Id>, offers: map<Id, Offer>)
    requires Distinct(ids)
    ensures Distinct(OpenAmong(ids, offers))
  {
    if ids != [] {
      OpenAmongDistinct(Prefix(ids), offers);
      forall id ensures id in OpenAmong(Prefix(ids), offers) ==> id in Prefix(ids) {
        OpenAmongIn(Prefix(ids), offers, id);
      }
      assert Last(ids) !in Prefix(ids);
    }
  }

  lemma SweepOffersIsClose(L: Ledger, height: nat)
    requires IndexInv(L)
    ensures SweepOffers(L, L.market.openOffers, height) == CloseAll(L, L.market.offerIds, Sweep(height))
  {
    OpenAmongDistinct(L.market.offerIds, L.market.offers);
    forall id | id in L.market.openOffers ensures IsOpen(L, id) { OpenAmongIn(L.market.offerIds, L.market.offers, id); }
    SweepIsClose(L, L.market.openOffers, height);
    CloseOnlyOpen(L, L.market.offerIds, Sweep(height));
  }

  /** With the indexes in step, the sweep that walks only them settles exactly what a scan of every row settles. */
  lemma IndexedSweepIsFullScan(L: Ledger, height: nat)
    requires IndexInv(L)
    ensures SweepExpired(L, height) == FullScan(L, height)
  {
    hide CloseAll, SweepOffers, MarketIndex, LiveRecaptures;
    SweepOffersIsClose(L, height);
    var L1 := CloseAll(L, L.market.offerIds, Sweep(height));
    CloseAllEffect(L, L.market.offerIds, Sweep(height));
    var S, F := SweepExpired(L, height), FullScan(L, height);
    assert S.bidBook == F.bidBook;
    assert forall nm :: nm in L1.registry.names ==> L1.registry.names[nm].pending == L.registry.names[nm].pending;
    assert S.registry == F.registry;
  }

  lemma {:induction false} FlushIndex(L: Ledger, cancels: seq<Deferred>)
    requires IndexInv(L)
    ensures IndexInv(FlushFrom(L, cancels))
  {
    if cancels != [] {
      var c := cancels[|cancels| - 1];
      FlushIndex(L, cancels[..|cancels| - 1]);
      CloseAllIndex(FlushFrom(L, cancels[..|cancels| - 1]), c.targets, Flush(c.height));
    }
  }

  /** The offers pass of the sweep that starts a block's events. */
  function SweptOffers(L: Ledger, height: nat): Ledger {
    var E := EnterBlock(L, height);
    CloseAll(E, E.market.offerIds, Sweep(height))
  }

  /** What a handler is handed: the flush, the closing pass over every offer, then the reaped bids and names. */
  lemma PrepareIs(L: Ledger, height: nat)
    requires IndexInv(L)
    ensures IndexInv(EnterBlock(L, height))
    ensures var S := SweptOffers(L, height);
      IndexInv(S) && Prepare(L, height) == S.(bidBook := SweepBids(S.bidBook, height), registry := SweepNames(S.registry, height))
  {
    FlushIndex(L, L.pendingCancels);
    var E := EnterBlock(L, height);
    SweepOffersIsClose(E, height);
    CloseAllIndex(E, E.market.offerIds, Sweep(height));
  }

  lemma SweepIndex(L: Ledger, height: nat)
    requires IndexInv(L)
    ensures IndexInv(SweepExpired(L, height))
  {
    SweepOffersIsClose(L, height);
    CloseAllIndex(L, L.market.offerIds, Sweep(height));
  }

  /** offerExpiryHeightOf names exactly the first height at which the sweep finds the offer expired. */
  lemma ExpiryHeightExact(o: Offer, height: nat)
    ensures Due(Sweep(height), o) <==> height >= OfferExpiryHeightOf(o.expiresEpoch, o.height)
  {
  }

  // ----- the shape of the name handlers -----

  /** Everything but the registry and the fees agrees. */
  predicate SameTrade(L: Ledger, M: Ledger) {
    L.assets == M.assets && L.market == M.market && L.bidBook == M.bidBook && L.fclaims == M.fclaims
    && L.pendingCancels == M.pendingCancels && L.block == M.block
  }

  /** A name record leaves the trading side alone, or voids the open offers of its name. */
  lemma NameShape(L: Ledger, ev: Event, nm: string, revealed: Option<Hash>)
    requires ev.Propose?
    ensures var M := ApplyName(L, ev, nm, revealed);
      SameTrade(L, M) || SameTrade(VoidOpenNameOffers(L, nm, ev.height), M)
  {
    hide VoidOpenNameOffers, EffHeight, Beats, NameRegFee, ExpiredClaimFee, PendingOf, RecapturesOf;
    hide Current, IsLapsedClaim, Lapsed, PaidThrough, EarlierAnchor, FinalizeBy, PutName, Pt, EpochOf;
  }

  lemma NfinalizeShape(L: Ledger, ev: Event, nm: string, opening: Hash)
    requires ev.Propose?
    ensures var M := ApplyNfinalize(L, ev, nm, opening);
      SameTrade(L, M) || SameTrade(VoidOpenNameOffers(L, nm, ev.height), M)
  {
    hide VoidOpenNameOffers, Finalizable, NameRegFee, ExpiredClaimFee;
  }

  // ----- the shape of the attest handlers -----

  /** What an attest may do to a bid: close it. */
  ghost predicate BidsShape(B: BidBook, C: BidBook) {
    C == B || exists id, st: BidStatus :: id in B.bids && !st.BidOpen? && C == CloseBid(B, id, st)
  }

  /** What an attest may do to the names: hand one over, or unlock one. */
  ghost predicate NamesShape(r: Registry, q: Registry, ev: Event)
    requires ev.Attest?
  {
    q == r
    || exists nm :: (nm in r.names
                     && (q == SetLocked(r, nm, false)
                         || q == r.(names := r.names[nm := Deliver(r.names[nm], ev.attester, ev)])))
  }

  ghost predicate FillShape(L: Ledger, M: Ledger, ev: Event)
    requires ev.Attest?
  {
    M.block == L.block && M.fclaims == L.fclaims && M.pendingCancels == L.pendingCancels
    && BidsShape(L.bidBook, M.bidBook) && NamesShape(L.registry, M.registry, ev)
  }

  lemma BidDoneShape(B: BidBook, bid: Option<Id>, who: Addr)
    ensures BidsShape(B, MarkBidDone(B, bid, who))
  {
  }

  lemma DeliverShape(L: Ledger, o: Offer, who: Addr, ev: Event)
    requires GiveReady(L, o) && ev.Attest? && who == ev.attester
    ensures FillShape(L, DeliverGive(L, o, who, ev), ev) && DeliverGive(L, o, who, ev).bidBook == L.bidBook
  {
    if o.give.NameGive? {
      var r, nm := L.registry, o.give.name;
      assert DeliverGive(L, o, who, ev).registry == r.(names := r.names[nm := Deliver(r.names[nm], ev.attester, ev)]);
    }
  }

  lemma TokenFillShape(L: Ledger, ev: Event, oid: Id)
    requires ev.Attest? && oid in L.market.offers && L.market.offers[oid].want.TokenWant?
    ensures FillShape(L, ApplyTokenFill(L, ev, oid), ev)
  {
    var o := L.market.offers[oid];
    if !TokenFillRefused(L, ev, o) {
      DeliverShape(Pay(L, SettleTokens(L.assets.balances, o.want, ev.attester, FeeAt(o.want.amount, o.feeBps))), o, ev.attester, ev);
      BidDoneShape(L.bidBook, o.bid, ev.attester);
    }
  }

  lemma PartialFillShape(L: Ledger, ev: Event, oid: Id)
    requires ev.Attest? && oid in L.market.offers && IsPartial(L.market.offers[oid])
    ensures FillShape(L, ApplyPartialFill(L, ev, oid), ev)
  {
    BidDoneShape(L.bidBook, L.market.offers[oid].bid, ev.attester);
  }

  lemma WholeFillShape(L: Ledger, ev: Event, oid: Id)
    requires ev.Attest? && oid in L.market.offers && L.market.offers[oid].want.CsdWant?
    ensures FillShape(L, ApplyFill(L, ev, oid), ev)
  {
    var o := L.market.offers[oid];
    if GiveReady(L, o) { DeliverShape(L, o, ev.attester, ev); }
    BidDoneShape(L.bidBook, o.bid, ev.attester);
  }

  /** Everything an attest can do beside the market and the balances. */
  ghost predicate AttestShape(L: Ledger, M: Ledger, ev: Event)
    requires ev.Attest?
  {
    && M.block == L.block && M.fclaims == L.fclaims
    && (M.pendingCancels == L.pendingCancels
        || exists oid :: M.pendingCancels == L.pendingCancels + [Deferred([oid], ev.height)])
    && BidsShape(L.bidBook, M.bidBook) && NamesShape(L.registry, M.registry, ev)
  }

  lemma CancelShape(L: Ledger, ev: Event, oid: Id)
    requires ev.Attest? && oid in L.market.offers
    ensures AttestShape(L, ApplyCancel(L, ev, oid), ev)
  {
    if Closes(L, oid, Immediate) {
      CloseEffect(L, oid, Cancelled);
      var o := L.market.offers[oid];
      if o.give.NameGive? { assert ReleaseGive(L, o).registry == SetLocked(L.registry, o.give.name, false); }
    }
  }

  lemma AttestHasShape(L: Ledger, ev: Event)
    requires ev.Attest?
    ensures AttestShape(L, ApplyAttest(L, ev), ev)
  {
    hide ApplyCancel, ApplyTokenFill, ApplyPartialFill, ApplyFill;
    var target := Routed(L, ev);
    if target.Some? {
      var oid := target.value;
      var o := L.market.offers[oid];
      CancelShape(L, ev, oid);
      if o.want.TokenWant? {
        TokenFillShape(L, ev, oid);
      } else {
        WholeFillShape(L, ev, oid);
        if IsPartial(o) { PartialFillShape(L, ev, oid); }
      }
    } else if ev.proposalId in L.bidBook.bids {
      assert CloseBid(L.bidBook, ev.proposalId, BidCancelled).bids.Keys == L.bidBook.bids.Keys;
    }
  }
}
