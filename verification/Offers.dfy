/** What every reachable ledger keeps of its offers: the terms an offer was created with, the partial-fill
    ledger, the record of its claims, and the order of heights. */
module OfferInvariants {
  import opened Rules
  import opened Ledgers
  import opened Handlers
  import opened Replay
  import opened Closing
  import opened Arith

  function SumPaid(fs: seq<FillEntry>): nat { if fs == [] then 0 else SumPaid(fs[..|fs| - 1]) + fs[|fs| - 1].paid }
  function SumGot(fs: seq<FillEntry>): nat { if fs == [] then 0 else SumGot(fs[..|fs| - 1]) + fs[|fs| - 1].got }
  function SumFee(fs: seq<FillEntry>): nat { if fs == [] then 0 else SumFee(fs[..|fs| - 1]) + fs[|fs| - 1].fee }

  /** The running account of an offer sold in portions. */
  ghost predicate PartialOk(o: Offer)
    requires IsPartial(o)
  {
    && 1 <= o.min.value <= o.want.value
    && o.paid <= o.want.value
    && o.delivered == (o.give.amount * o.paid) / o.want.value
    && (o.status.Filled? <==> o.paid == o.want.value)
    && SumPaid(o.fills) == o.paid && SumGot(o.fills) == o.delivered
    && FeeAt(o.paid, o.feeBps) <= SumFee(o.fills)
    && SumFee(o.fills) <= FeeAt(o.paid, o.feeBps) + (if o.fills == [] then 0 else |o.fills| - 1)
  }

  ghost predicate OfferOk(id: Id, o: Offer) {
    && o.id == id
    && o.want.payto != TREASURY_ADDR
    && (o.give.TokenGive? ==> o.give.amount >= 1)
    && (o.give.TokenGive? && o.want.TokenWant? ==> o.give.ticker != o.want.ticker)
    && (o.min.Some? ==> IsPartial(o))
    && (if IsPartial(o) then PartialOk(o) else o.paid == 0 && o.delivered == 0)
    && (o.hold.Some? || o.claimTxid.Some? ==> o.taker.None? && o.want.CsdWant?)
    && o.feeBps == FeeBpsAt(o.height)
  }

  /** An fclaim hold is the one its granting fclaim records; any other hold is a claim from before V28. */
  ghost predicate ClaimOk(id: Id, o: Offer, fclaims: map<Id, Fclaim>) {
    && (o.claimTxid.Some? ==>
          o.claimTxid.value in fclaims
          && var f := fclaims[o.claimTxid.value];
             f.granted && f.offer == id && o.hold == Some(Hold(f.proposer, (f.expiresEpoch + 1) * EPOCH_LEN))
             && f.expiresEpoch <= EffExpiry(o.expiresEpoch, o.height, V28_HEIGHT))
    && (o.claimTxid.None? && o.hold.Some? ==> o.hold.value.until <= V28_HEIGHT - 1 + CLAIM_WINDOW_BLOCKS_V20)
  }

  ghost predicate OffersInv(L: Ledger) {
    (forall id :: id in L.market.offers ==> OfferOk(id, L.market.offers[id]))
    && (forall id :: id in L.market.offers ==> ClaimOk(id, L.market.offers[id], L.fclaims))
  }

  /** Nothing in the ledger is later than the block being applied. */
  ghost predicate Past(L: Ledger) {
    && (forall id :: id in L.market.offers ==> L.market.offers[id].height <= L.block)
    && (forall f :: f in L.fclaims ==> V28_HEIGHT <= L.fclaims[f].height <= L.block)
    && (forall nm :: nm in L.registry.names ==> L.registry.names[nm].effHeight <= L.block)
    && (forall c :: c in L.registry.commits ==> L.registry.commits[c] <= L.block)
    && (forall nm :: nm in L.registry.recaptures ==> L.registry.recaptures[nm].effHeight <= L.block)
  }

  /** No open offer has expired at `height`. */
  ghost predicate Unexpired(offers: map<Id, Offer>, height: nat) {
    forall id :: id in offers && offers[id].status.Open? ==> !Due(Sweep(height), offers[id])
  }

  /** Every deferred cancel belongs to the block being applied. */
  ghost predicate QueueInv(L: Ledger) {
    forall i :: 0 <= i < |L.pendingCancels| ==> L.pendingCancels[i].height == L.block
  }

  ghost predicate TimeInv(L: Ledger) {
    Past(L) && QueueInv(L) && (L.block >= 0 ==> Unexpired(L.market.offers, L.block))
  }

  /** An event the ledger can meet next in a feed: not earlier than its block, with a fresh proposal id. */
  ghost predicate Next(L: Ledger, ev: Event) {
    && ev.height >= L.block
    && EventOk(ev)
    && (ev.Propose? ==> ev.id !in L.market.offers && ev.id !in L.fclaims && ev.id !in L.bidBook.bids)
  }

  // ----- partial fills -----

  /** Splitting an amount costs at most one unit of fee more. */
  lemma FeeSplit(a: nat, b: nat, bps: nat)
    ensures FeeAt(a + b, bps) <= FeeAt(a, bps) + FeeAt(b, bps) <= FeeAt(a + b, bps) + 1
  {
    assert (a + b) * bps == a * bps + b * bps;
  }

  /** The offer a partial fill leaves behind. */
  function AfterPortion(o: Offer, entry: FillEntry): Offer
    requires o.want.CsdWant?
  {
    var o' := Progressed(o, entry);
    if o'.paid == o.want.value then o'.(status := Filled, fill := Some(entry)) else o'
  }

  lemma PortionKeepsOk(o: Offer, ev: Event)
    requires ev.Attest? && IsPartial(o) && PartialOk(o) && o.status.Open?
    ensures PartialSane(o) && o.delivered <= PortionOf(o, Pt(ev.paidTo, o.want.payto)).newDelivered
    ensures PartialOk(AfterPortion(o, PortionEntry(o, ev)))
  {
    hide PartialOk, FeeAt, ProRata;
    PortionGrows(o, 0);
    PortionGrows(o, PortionOf(o, Pt(ev.paidTo, o.want.payto)).x);
    ProgressKeepsOk(o, PortionEntry(o, ev));
  }

  lemma PortionGrows(o: Offer, x: nat)
    requires IsPartial(o) && PartialOk(o)
    ensures PartialSane(o) && o.delivered <= ProRata(o.give.amount, o.paid + x, o.want.value)
  {
    MulMonotone(o.paid, o.paid + x, o.give.amount);
    DivMonotone(o.give.amount * o.paid, o.give.amount * (o.paid + x), o.want.value);
  }

  lemma ProgressKeepsOk(o: Offer, entry: FillEntry)
    requires IsPartial(o) && PartialOk(o) && o.status.Open? && o.paid + entry.paid <= o.want.value
    requires o.delivered + entry.got == ProRata(o.give.amount, o.paid + entry.paid, o.want.value) && entry.fee == FeeAt(entry.paid, o.feeBps)
    ensures PartialOk(AfterPortion(o, entry))
  {
    hide FeeAt;
    var o' := Progressed(o, entry);
    assert o'.fills[..|o'.fills| - 1] == o.fills;
    FeeSplit(o.paid, entry.paid, o.feeBps);
    assert o.fills == [] ==> o.paid == 0;
  }

  // ----- every step keeps the offers -----

  lemma PassKeepsOffers(L: Ledger, ids: seq<Id>, why: Reason)
    requires OffersInv(L)
    ensures OffersInv(CloseAll(L, ids, why))
  {
    hide CloseAll, OfferOk, ClaimOk, NamesUnlocked, Due;
    var M := CloseAll(L, ids, why);
    CloseAllEffect(L, ids, why);
    forall id | id in M.market.offers
      ensures OfferOk(id, M.market.offers[id]) && ClaimOk(id, M.market.offers[id], M.fclaims)
    {
      ClosedOk(id, L.market.offers[id], Outcome(why), L.fclaims);
    }
  }

  lemma ClosedOk(id: Id, o: Offer, status: Status, fclaims: map<Id, Fclaim>)
    requires OfferOk(id, o) && ClaimOk(id, o, fclaims)
    ensures o.status.Open? && (status.Cancelled? || status.Expired?) ==> OfferOk(id, o.(status := status))
    ensures ClaimOk(id, o.(status := status), fclaims)
  {
  }

  lemma {:induction false} FlushKeepsOffers(L: Ledger, cancels: seq<Deferred>)
    requires OffersInv(L)
    ensures OffersInv(FlushFrom(L, cancels))
  {
    if cancels != [] {
      var c := cancels[|cancels| - 1];
      FlushKeepsOffers(L, cancels[..|cancels| - 1]);
      PassKeepsOffers(FlushFrom(L, cancels[..|cancels| - 1]), c.targets, Flush(c.height));
    }
  }

  lemma PrepareKeepsOffers(L: Ledger, height: nat)
    requires IndexInv(L) && OffersInv(L)
    ensures OffersInv(Prepare(L, height))
  {
    FlushKeepsOffers(L, L.pendingCancels);
    PrepareIs(L, height);
    var E := EnterBlock(L, height);
    PassKeepsOffers(E, E.market.offerIds, Sweep(height));
  }

  /** One offer replaced by a sound one, with its claim intact. */
  lemma PutKeepsOffers(L: Ledger, M: Ledger, oid: Id, o: Offer)
    requires OffersInv(L) && M.fclaims == L.fclaims
    requires M.market.offers == L.market.offers[oid := o]
    requires OfferOk(oid, o) && ClaimOk(oid, o, L.fclaims)
    ensures OffersInv(M)
  {
  }

  lemma OfferKeepsOffers(L: Ledger, ev: Event, rec: Record)
    requires OffersInv(L) && Next(L, ev) && ev.Propose? && rec.OfferRec? && RecordOk(rec)
    ensures OffersInv(ApplyOffer(L, ev, rec))
  {
    var M := ApplyOffer(L, ev, rec);
    if M != L {
      var o := NewOffer(ev, rec);
      if IsPartial(o) { assert (o.give.amount * 0) / o.want.value == 0; }
      PutKeepsOffers(L, M, ev.id, o);
    }
  }

  lemma FclaimKeepsOffers(L: Ledger, ev: Event, oid: Id)
    requires OffersInv(L) && Next(L, ev) && ev.Propose?
    ensures OffersInv(ApplyFclaim(L, ev, oid))
  {
    hide LiveHoldCount;
    var M := ApplyFclaim(L, ev, oid);
    forall id | id in M.market.offers
      ensures OfferOk(id, M.market.offers[id]) && ClaimOk(id, M.market.offers[id], M.fclaims)
    {
      assert OfferOk(id, L.market.offers[id]) && ClaimOk(id, L.market.offers[id], L.fclaims);
    }
  }

  lemma ClaimKeepsOffers(L: Ledger, ev: Event, oid: Id)
    requires OffersInv(L) && TimeInv(L) && Next(L, ev) && ev.Attest? && oid in L.market.offers
    ensures OffersInv(ApplyLegacyClaim(L, ev, oid))
  {
    var M := ApplyLegacyClaim(L, ev, oid);
    var o := L.market.offers[oid];
    assert OfferOk(oid, o) && ClaimOk(oid, o, L.fclaims);
    assert o.claimTxid.Some? ==> L.fclaims[o.claimTxid.value].height <= L.block;
    if LegacyGrants(L, o, ev.attester, ev.height) {
      PutKeepsOffers(L, M, oid, M.market.offers[oid]);
    }
  }

  lemma FinishKeepsOffers(L: Ledger, M: Ledger, oid: Id, entry: FillEntry)
    requires OffersInv(L) && M.fclaims == L.fclaims && M.market.offers == L.market.offers && oid in L.market.offers
    requires !IsPartial(L.market.offers[oid])
    ensures OffersInv(FinishFill(M, oid, entry))
  {
    var N := FinishFill(M, oid, entry);
    assert N.market.offers == L.market.offers[oid := L.market.offers[oid].(status := Filled, fill := Some(entry))];
    PutKeepsOffers(L, N, oid, N.market.offers[oid]);
  }

  lemma TokenFillKeepsOffers(L: Ledger, ev: Event, oid: Id)
    requires OffersInv(L) && ev.Attest? && oid in L.market.offers && L.market.offers[oid].want.TokenWant?
    ensures OffersInv(ApplyTokenFill(L, ev, oid))
  {
    var o := L.market.offers[oid];
    if !TokenFillRefused(L, ev, o) {
      var fee := FeeAt(o.want.amount, o.feeBps);
      var D := DeliverGive(Pay(L, SettleTokens(L.assets.balances, o.want, ev.attester, fee)), o, ev.attester, ev);
      FinishKeepsOffers(L, D, oid, FillEntry(ev.attester, ev.id, ev.height, o.want.amount, fee, 0));
    }
  }

  lemma FillKeepsOffers(L: Ledger, ev: Event, oid: Id)
    requires OffersInv(L) && ev.Attest? && oid in L.market.offers && L.market.offers[oid].want.CsdWant?
    requires !IsPartial(L.market.offers[oid])
    ensures OffersInv(ApplyFill(L, ev, oid))
  {
    var o := L.market.offers[oid];
    if !(FillBarred(o, ev) || !Dominates(ev.paidTo, Needs(o)) || !GiveReady(L, o)) {
      var fee := FeeAt(o.want.value, o.feeBps);
      var D := DeliverGive(L, o, ev.attester, ev).(feesPaid := L.feesPaid + fee);
      FinishKeepsOffers(L, D, oid, FillEntry(ev.attester, ev.id, ev.height, Pt(ev.paidTo, o.want.payto), fee, 0));
    }
  }

  lemma SettleOffers(m: Market, oid: Id, o: Offer, lock: int, entry: FillEntry)
    requires o.want.CsdWant?
    ensures SettlePortion(m, oid, Progressed(o, entry), lock, entry).offers == m.offers[oid := AfterPortion(o, entry)]
  {
  }

  /** A partial fill leaves exactly AfterPortion in the map. */
  lemma PartialFillOffers(L: Ledger, ev: Event, oid: Id)
    requires OffersInv(L) && ev.Attest? && oid in L.market.offers && IsPartial(L.market.offers[oid])
    ensures var o := L.market.offers[oid]; var M := ApplyPartialFill(L, ev, oid);
      && PartialSane(o) && M.fclaims == L.fclaims
      && M.market.offers == if FillBarred(o, ev) || PartialRefused(L, ev, o) then L.market.offers
                            else L.market.offers[oid := AfterPortion(o, PortionEntry(o, ev))]
  {
    var o := L.market.offers[oid];
    assert OfferOk(oid, o);
    if !(FillBarred(o, ev) || PartialRefused(L, ev, o)) {
      var entry := PortionEntry(o, ev);
      SettleOffers(L.market, oid, o, L.market.offerLock[o.id] - entry.got, entry);
    }
  }

  lemma PartialFillKeepsOffers(L: Ledger, ev: Event, oid: Id)
    requires OffersInv(L) && ev.Attest? && oid in L.market.offers && IsPartial(L.market.offers[oid])
    ensures OffersInv(ApplyPartialFill(L, ev, oid))
  {
    var o, M := L.market.offers[oid], ApplyPartialFill(L, ev, oid);
    PartialFillOffers(L, ev, oid);
    assert OfferOk(oid, o) && ClaimOk(oid, o, L.fclaims);
    if !(FillBarred(o, ev) || PartialRefused(L, ev, o)) {
      PortionKeepsOk(o, ev);
      PutKeepsOffers(L, M, oid, AfterPortion(o, PortionEntry(o, ev)));
    }
  }

  lemma AttestKeepsOffers(L: Ledger, ev: Event)
    requires OffersInv(L) && TimeInv(L) && Next(L, ev) && ev.Attest?
    ensures OffersInv(ApplyAttest(L, ev))
  {
    var target := Routed(L, ev);
    if target.Some? {
      var oid := target.value;
      var o := L.market.offers[oid];
      if ev.score == SCORE_CANCEL {
        PassKeepsOffers(L, [oid], Immediate);
        assert CloseAll(L, [oid], Immediate) == CloseOne(CloseAll(L, [], Immediate), oid, Immediate);
      } else if ev.score == SCORE_FILL && o.want.TokenWant? {
        TokenFillKeepsOffers(L, ev, oid);
      } else if ev.score == SCORE_FILL && IsPartial(o) {
        PartialFillKeepsOffers(L, ev, oid);
      } else if ev.score == SCORE_FILL {
        FillKeepsOffers(L, ev, oid);
      } else if ev.height >= V17_HEIGHT && ev.score == SCORE_CLAIM {
        ClaimKeepsOffers(L, ev, oid);
      }
    }
  }

  lemma ProposeKeepsOffers(L: Ledger, ev: Event)
    requires OffersInv(L) && Next(L, ev) && ev.Propose?
    ensures OffersInv(ApplyPropose(L, ev))
  {
    match ev.rec
    case Some(Name(nm, revealed)) =>
      NameShape(L, ev, nm, revealed);
      PassKeepsOffers(L, L.market.offerIds, Void(nm, ev.height));
    case Some(Nfinalize(nm, opening)) =>
      NfinalizeShape(L, ev, nm, opening);
      PassKeepsOffers(L, L.market.offerIds, Void(nm, ev.height));
    case Some(OfferRec(_, _, _, _, _)) => OfferKeepsOffers(L, ev, ev.rec.value);
    case Some(Ocancel(t, nm)) =>
      PassKeepsOffers(L, OcancelTargets(L, L.market.offerIds, ev.proposer, t, nm), Immediate);
    case Some(FclaimRec(oid)) => FclaimKeepsOffers(L, ev, oid);
    case _ =>
  }
}
