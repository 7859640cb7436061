/** Every event keeps the private indexes in step with their maps. */
module IndexInvariants {
  import opened Rules
  import opened Ledgers
  import opened Handlers
  import opened Replay
  import opened Closing
  import opened OfferInvariants
  import opened Moves

  lemma AddKeepsIndex(m: Market, o: Offer)
    requires MarketIndex(m) && o.id !in m.offers && o.status.Open?
    ensures MarketIndex(AddOffer(m, o))
  {
    hide Without, OpenAmong, Distinct;
    var n := AddOffer(m, o);
    assert o.id !in m.openOffers by { OpenAmongIn(m.offerIds, m.offers, o.id); }
    assert Distinct(n.offerIds) by { DistinctPush(m.offerIds, o.id); }
    OpenAmongSame(m.offerIds, m.offers, n.offers);
    OpenAmongPush(m.offerIds, o.id, n.offers);
  }

  lemma DistinctPush(ids: seq<Id>, id: Id)
    requires Distinct(ids) && id !in ids
    ensures Distinct(ids + [id])
  {
  }

  lemma OpenAmongPush(ids: seq<Id>, id: Id, offers: map<Id, Offer>)
    requires id in offers && offers[id].status.Open?
    ensures OpenAmong(ids + [id], offers) == OpenAmong(ids, offers) + [id]
  {
    assert (ids + [id])[..|ids|] == ids;
  }

  /** Replacing an open offer by an open one moves no index entry. */
  lemma PutKeepsIndex(m: Market, n: Market, oid: Id, o: Offer)
    requires MarketIndex(m) && oid in m.offers && m.offers[oid].status.Open? && o.status.Open?
    requires n.offers == m.offers[oid := o] && n.offerIds == m.offerIds && n.openOffers == m.openOffers
    ensures MarketIndex(n)
  {
    OpenAmongSame(m.offerIds, m.offers, n.offers);
  }

  lemma FinishKeepsIndex(m: Market, oid: Id, entry: FillEntry)
    requires MarketIndex(m) && oid in m.offers && m.offers[oid].status.Open?
    ensures MarketIndex(FinishMarket(m, oid, entry))
  {
    OpenAmongClose(m.offerIds, m.offers, oid, m.offers[oid].(status := Filled));
    var n := SetStatus(m, oid, Filled);
    OpenAmongSame(m.offerIds, n.offers, FinishMarket(m, oid, entry).offers);
  }

  lemma SettleKeepsIndex(m: Market, oid: Id, o: Offer, lock: int, entry: FillEntry)
    requires MarketIndex(m) && oid in m.offers && m.offers[oid].status.Open? && o.status.Open? && o.want.CsdWant?
    ensures MarketIndex(SettlePortion(m, oid, o, lock, entry))
  {
    var n := m.(offers := m.offers[oid := o]);
    PutKeepsIndex(m, n, oid, o);
    FinishKeepsIndex(n.(offerLock := n.offerLock - {o.id}), oid, entry);
  }

  lemma PartialKeepsIndex(L: Ledger, ev: Event, oid: Id)
    requires MarketIndex(L.market) && ev.Attest? && oid in L.market.offers && IsPartial(L.market.offers[oid])
    ensures MarketIndex(ApplyPartialFill(L, ev, oid).market)
  {
    var o := L.market.offers[oid];
    if PartialSane(o) && !FillBarred(o, ev) && !PartialRefused(L, ev, o) {
      var entry := PortionEntry(o, ev);
      SettleKeepsIndex(L.market, oid, Progressed(o, entry), L.market.offerLock[o.id] - entry.got, entry);
    }
  }

  lemma WholeKeepsIndex(L: Ledger, D: Ledger, oid: Id, entry: FillEntry)
    requires MarketIndex(L.market) && oid in L.market.offers && L.market.offers[oid].status.Open?
    requires D.market.offers == L.market.offers && D.market.offerIds == L.market.offerIds
    requires D.market.openOffers == L.market.openOffers
    ensures MarketIndex(FinishFill(D, oid, entry).market)
  {
    FinishKeepsIndex(D.market, oid, entry);
  }

  lemma AttestKeepsMarketIndex(L: Ledger, ev: Event)
    requires MarketIndex(L.market) && ev.Attest?
    requires BidIndex(L.bidBook) && NameIndex(L.registry)
    ensures MarketIndex(ApplyAttest(L, ev).market)
  {
    var target := Routed(L, ev);
    if target.Some? {
      var oid := target.value;
      var o := L.market.offers[oid];
      if ev.score == SCORE_CANCEL {
        CloseOneIndex(L, oid, Immediate);
      } else if ev.score == SCORE_FILL && o.want.TokenWant? {
        var fee := FeeAt(o.want.amount, o.feeBps);
        if !TokenFillRefused(L, ev, o) {
          WholeKeepsIndex(L, DeliverGive(Pay(L, SettleTokens(L.assets.balances, o.want, ev.attester, fee)), o, ev.attester, ev),
                          oid, FillEntry(ev.attester, ev.id, ev.height, o.want.amount, fee, 0));
        }
      } else if ev.score == SCORE_FILL && IsPartial(o) {
        PartialKeepsIndex(L, ev, oid);
      } else if ev.score == SCORE_FILL && WholeFills(L, ev, o) {
        var fee := FeeAt(o.want.value, o.feeBps);
        WholeKeepsIndex(L, DeliverGive(L, o, ev.attester, ev).(feesPaid := L.feesPaid + fee), oid,
                        FillEntry(ev.attester, ev.id, ev.height, Pt(ev.paidTo, o.want.payto), fee, 0));
      } else if ev.height >= V17_HEIGHT && ev.score == SCORE_CLAIM && LegacyGrants(L, o, ev.attester, ev.height) {
        var M := ApplyLegacyClaim(L, ev, oid);
        PutKeepsIndex(L.market, M.market, oid, M.market.offers[oid]);
      }
    }
  }

  lemma OfferKeepsIndex(L: Ledger, ev: Event, rec: Record)
    requires MarketIndex(L.market) && Next(L, ev) && ev.Propose? && rec.OfferRec?
    ensures MarketIndex(ApplyOffer(L, ev, rec).market)
  {
    var o := NewOffer(ev, rec);
    AddKeepsIndex(L.market, o);
    if rec.give.TokenGive? { AddKeepsIndex(L.market.(offerLock := L.market.offerLock[ev.id := rec.give.amount]), o); }
  }

  lemma FclaimKeepsIndex(L: Ledger, ev: Event, oid: Id)
    requires MarketIndex(L.market) && ev.Propose?
    ensures MarketIndex(ApplyFclaim(L, ev, oid).market)
  {
    if ev.height >= V28_HEIGHT && Grants(L, oid, ev.proposer, ev.expiresEpoch, ev.height) {
      var M := ApplyFclaim(L, ev, oid);
      PutKeepsIndex(L.market, M.market, oid, M.market.offers[oid]);
    }
  }

  lemma ProposeKeepsMarketIndex(L: Ledger, ev: Event)
    requires IndexInv(L) && Next(L, ev) && ev.Propose?
    ensures MarketIndex(ApplyPropose(L, ev).market)
  {
    hide ApplyName, ApplyNfinalize, ApplyOffer, ApplyFclaim;
    match ev.rec
    case Some(Name(nm, revealed)) =>
      NameShape(L, ev, nm, revealed);
      CloseAllIndex(L, L.market.offerIds, Void(nm, ev.height));
    case Some(Nfinalize(nm, opening)) =>
      NfinalizeShape(L, ev, nm, opening);
      CloseAllIndex(L, L.market.offerIds, Void(nm, ev.height));
    case Some(OfferRec(_, _, _, _, _)) => OfferKeepsIndex(L, ev, ev.rec.value);
    case Some(Ocancel(t, nm)) =>
      CloseAllIndex(L, OcancelTargets(L, L.market.offerIds, ev.proposer, t, nm), Immediate);
    case Some(FclaimRec(oid)) => FclaimKeepsIndex(L, ev, oid);
    case _ =>
  }

  lemma ReclaimKeepsNameIndex(L: Ledger, ev: Event, nm: string, eff: nat, cur: NameRec)
    requires IndexInv(L) && ev.Propose? && Lapsed(cur, EpochOf(ev.height))
    ensures NameIndex(Reclaim(L, ev, nm, eff, cur).registry)
  {
    CloseAllIndex(L, L.market.offerIds, Void(nm, ev.height));
  }

  lemma ReserveKeepsNameIndex(L: Ledger, ev: Event, nm: string, eff: nat, cur: Option<NameRec>)
    requires IndexInv(L) && ev.Propose?
    ensures NameIndex(Reserve(L, ev, nm, eff, cur).registry) && NameIndex(Register(L, ev, nm, eff, cur).registry)
  {
    CloseAllIndex(L, L.market.offerIds, Void(nm, ev.height));
  }

  lemma NameKeepsNameIndex(L: Ledger, ev: Event, nm: string, revealed: Option<Hash>)
    requires IndexInv(L) && ev.Propose?
    ensures NameIndex(ApplyName(L, ev, nm, revealed).registry)
  {
    var effHeight := EffHeight(L, ev.height, revealed);
    if ev.height >= V11_HEIGHT && effHeight.Some? {
      var cur := Current(L, nm, ev.height);
      if IsLapsedClaim(cur, ev.height) {
        ReclaimKeepsNameIndex(L, ev, nm, effHeight.value, cur.value);
      } else {
        ReserveKeepsNameIndex(L, ev, nm, effHeight.value, cur);
      }
    }
  }

  lemma NfinalizeKeepsNameIndex(L: Ledger, ev: Event, nm: string, opening: Hash)
    requires IndexInv(L) && ev.Propose?
    ensures NameIndex(ApplyNfinalize(L, ev, nm, opening).registry)
  {
    CloseAllIndex(L, L.market.offerIds, Void(nm, ev.height));
  }

  lemma ProposeKeepsSideIndexes(L: Ledger, ev: Event)
    requires IndexInv(L) && Next(L, ev) && ev.Propose?
    ensures NameIndex(ApplyPropose(L, ev).registry) && BidIndex(ApplyPropose(L, ev).bidBook)
  {
    hide CloseAll, Grants, EnvelopeRefused, Listable, NewOffer, OcancelTargets;
    match ev.rec
    case Some(Name(nm, revealed)) =>
      NameShape(L, ev, nm, revealed);
      CloseAllEffect(L, L.market.offerIds, Void(nm, ev.height));
      NameKeepsNameIndex(L, ev, nm, revealed);
    case Some(Nfinalize(nm, opening)) =>
      NfinalizeShape(L, ev, nm, opening);
      CloseAllEffect(L, L.market.offerIds, Void(nm, ev.height));
      NfinalizeKeepsNameIndex(L, ev, nm, opening);
    case Some(Ocancel(t, nm)) =>
      CloseAllIndex(L, OcancelTargets(L, L.market.offerIds, ev.proposer, t, nm), Immediate);
    case _ =>
  }

  lemma AttestKeepsSideIndexes(L: Ledger, ev: Event)
    requires IndexInv(L) && ev.Attest?
    ensures NameIndex(ApplyAttest(L, ev).registry) && BidIndex(ApplyAttest(L, ev).bidBook)
  {
    hide ApplyAttest;
    AttestHasShape(L, ev);
  }

  lemma HandleKeepsIndex(L: Ledger, ev: Event)
    requires IndexInv(L) && Next(L, ev)
    ensures IndexInv(Handle(L, ev))
  {
    if ev.Propose? {
      ProposeKeepsMarketIndex(L, ev);
      ProposeKeepsSideIndexes(L, ev);
    } else {
      AttestKeepsMarketIndex(L, ev);
      AttestKeepsSideIndexes(L, ev);
    }
  }
}
