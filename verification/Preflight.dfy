/** What a client works out before it signs (packages/cairnx/src/preflight.ts), and the proof that it is exactly
    what the resolver then does. */
module Preflight {
  import opened Rules
  import opened Ledgers
  import opened Handlers
  import opened Replay
  import opened OfferInvariants
  import opened Moves
  import opened Conservation
  import opened NameSafety
  import opened HoldCap
  import Arith

  datatype Reason = NotOpen | NotCsdPriced | BelowMin | ZeroDelivery | Fine

  datatype FillPreview = FillPreview(reason: Reason, got: nat, pay: nat, fee: nat, rebate: nat) {
    predicate Deliverable() { reason.Fine? }
  }

  function Refused(reason: Reason): FillPreview { FillPreview(reason, 0, 0, 0, 0) }

  /** A partial offer with a positive, not overpaid price, and no more delivered than was paid for - as every offer
      the resolver serves is. Otherwise the source's bigint arithmetic divides by zero or previews a negative amount. */
  predicate Previewable(o: Offer) {
    IsPartial(o) ==> PartialSane(o) && o.delivered <= (o.give.amount * o.paid) / o.want.value
  }

  /** What paying `pay` to the seller would deliver. */
  function PreviewFill(o: Offer, pay: nat): FillPreview
    requires Previewable(o)
  {
    if !o.status.Open? then Refused(NotOpen)
    else if o.want.TokenWant? then Refused(NotCsdPriced)
    else if o.min.Some? && !o.give.NameGive? then
      var remaining := o.want.value - o.paid;
      if pay < Min(remaining, o.min.value) then Refused(BelowMin)
      else
        var x := Min(pay, remaining);
        var fee := FeeAt(x, o.feeBps);
        var total := (o.give.amount * (o.paid + x)) / o.want.value;
        if total <= o.delivered then FillPreview(ZeroDelivery, 0, x, fee, 0)
        else FillPreview(Fine, total - o.delivered, x, fee, 0)
    else if pay < o.want.value then FillPreview(BelowMin, 0, pay, 0, 0)
    else FillPreview(Fine, if o.give.NameGive? then 1 else o.give.amount, o.want.value, FeeAt(o.want.value, o.feeBps), RebateOf(o))
  }

  function AddOutput(outs: map<Addr, nat>, a: Addr, v: nat): map<Addr, nat> { if v > 0 then AddNeed(outs, a, v) else outs }

  /** The per-address sums a fill paying `pay` must carry; None when the payment delivers nothing. */
  function RequiredFillOutputs(o: Offer, pay: nat): Option<map<Addr, nat>>
    requires Previewable(o)
  {
    if o.want.TokenWant? then Some(map[])
    else
      var p := PreviewFill(o, pay);
      if !p.Deliverable() then None
      else Some(AddOutput(AddOutput(AddOutput(map[], o.want.payto, p.pay), TREASURY_ADDR, p.fee), o.seller, p.rebate))
  }

  predicate IsOpenClaimLane(o: Offer, tip: nat) { tip >= V13_HEIGHT && o.taker.None? && !o.want.TokenWant? }

  predicate HasLiveClaim(o: Offer, me: Addr, tip: nat) {
    tip >= V17_HEIGHT && o.hold.Some? && o.hold.value.holder == me
    && tip < o.hold.value.until + ClaimGraceOf(o.hold.value.until, o.claimTxid)
  }

  /** The id a fill must attest: the fclaim's while its hold is live, else the offer's. */
  function FillTargetId(o: Offer, tip: nat): Id {
    if tip >= V28_HEIGHT && o.claimTxid.Some? && o.hold.Some? && tip < o.hold.value.until then o.claimTxid.value else o.id
  }

  datatype Verdict = Endorsed | Declined | NotEndorsable

  function FillEndorsement(o: Offer, me: Addr, pay: nat, tip: nat, target: Option<Id>): Verdict
    requires Previewable(o)
  {
    var expected := FillTargetId(o, tip);
    if !o.status.Open? then Declined
    else if o.taker.Some? && o.taker.value != me then Declined
    else if IsOpenClaimLane(o, tip) && !HasLiveClaim(o, me, tip) then Declined
    else if target.Some? && target.value != expected then Declined
    else if target.None? && expected != o.id then Declined
    else if o.want.TokenWant? then NotEndorsable
    else if !PreviewFill(o, pay).Deliverable() then Declined
    else Endorsed
  }

  // ----- the preview is the resolver -----

  /** On an offer of the ledger the preview is always defined. */
  lemma PreviewDefined(id: Id, o: Offer)
    requires OfferOk(id, o)
    ensures Previewable(o)
  {
  }

  /** Every open offer can deliver: the "offer lock missing" and "name vanished" branches are dead. */
  lemma OpenOffersReady(L: Ledger, oid: Id)
    requires TokenInv(L) && NameInv(L) && OffersInv(L) && oid in L.market.offers && L.market.offers[oid].status.Open?
    ensures GiveReady(L, L.market.offers[oid])
  {
    var o := L.market.offers[oid];
    assert OfferOk(oid, o);
    if o.give.NameGive? { assert Lists(L.market.offers, oid, o.give.name); }
  }

  /** Merging zero outputs changes nothing, so the client's list asks what the resolver's need map asks. */
  lemma OutputsAreNeeds(o: Offer, paidTo: map<Addr, nat>)
    requires o.want.CsdWant? && !IsPartial(o) && o.min.None? && o.status.Open? && o.want.payto != TREASURY_ADDR
    requires Pt(paidTo, o.want.payto) >= o.want.value
    ensures RequiredFillOutputs(o, Pt(paidTo, o.want.payto)).Some?
    ensures Dominates(paidTo, RequiredFillOutputs(o, Pt(paidTo, o.want.payto)).value) <==> Dominates(paidTo, Needs(o))
  {
    var v, f, r := o.want.value, FeeAt(o.want.value, o.feeBps), RebateOf(o);
    var p, t, s := o.want.payto, TREASURY_ADDR, o.seller;
    var outs := AddOutput(AddOutput(AddOutput(map[], p, v), t, f), s, r);
    var need := Needs(o);
    forall a: Addr
      ensures Pt(need, a) == Pt(outs, a)
              == (if a == p then v else 0) + (if a == t then f else 0) + (if a == s then r else 0)
    {
    }
    assert need.Keys >= outs.Keys;
    if Dominates(paidTo, outs) {
      forall a | a in need ensures Pt(paidTo, a) >= need[a] { assert Pt(need, a) == Pt(outs, a); }
    }
    if Dominates(paidTo, need) {
      forall a | a in outs ensures Pt(paidTo, a) >= outs[a] { assert Pt(need, a) == Pt(outs, a); }
    }
  }

  /** The resolver lets exactly the endorsed attester through. */
  lemma EndorsementIsTheGate(L: Ledger, ev: Event, oid: Id)
    requires OffersInv(L) && IdsApart(L)
    requires ev.Attest? && ev.score == SCORE_FILL && Routed(L, ev) == Some(oid) && L.market.offers[oid].want.CsdWant?
    ensures var o := L.market.offers[oid]; var X := Pt(ev.paidTo, o.want.payto);
      Previewable(o)
      && (FillEndorsement(o, ev.attester, X, ev.height, Some(ev.proposalId)).Endorsed?
          <==> !FillBarred(o, ev) && PreviewFill(o, X).Deliverable())
  {
    assert OfferOk(oid, L.market.offers[oid]) && ClaimOk(oid, L.market.offers[oid], L.fclaims);
    PreviewDefined(oid, L.market.offers[oid]);
  }

  /** Is the fill one the client would sign: endorsed, with every required output in the transaction? */
  predicate Sound(o: Offer, ev: Event)
    requires ev.Attest? && o.want.CsdWant?
    requires Previewable(o)
  {
    var X := Pt(ev.paidTo, o.want.payto);
    FillEndorsement(o, ev.attester, X, ev.height, Some(ev.proposalId)).Endorsed?
    && RequiredFillOutputs(o, X).Some? && Dominates(ev.paidTo, RequiredFillOutputs(o, X).value)
  }

  /** `M` is `L` after a fill of `o` that delivered what `p` previewed. */
  ghost predicate DeliveredAs(L: Ledger, M: Ledger, oid: Id, who: Addr, p: FillPreview)
    requires oid in L.market.offers && L.market.offers[oid].want.CsdWant?
  {
    var o := L.market.offers[oid];
    && oid in M.market.offers && SameTerms(o, M.market.offers[oid])
    && (if IsPartial(o) then
          M.market.offers[oid].paid == o.paid + p.pay && M.market.offers[oid].delivered == o.delivered + p.got
          && (M.market.offers[oid].status.Filled? <==> o.paid + p.pay == o.want.value)
        else M.market.offers[oid].status.Filled?)
    && (match o.give
        case TokenGive(t, _) => BalOf(M.assets.balances, t, who).available == BalOf(L.assets.balances, t, who).available + p.got
        case NameGive(nm) => nm in M.registry.names && M.registry.names[nm].owner == who && !M.registry.names[nm].locked)
    && M.feesPaid == L.feesPaid + p.fee
  }

  /** The preview of a partial fill is the portion the resolver settles, and it is deliverable exactly when that
      portion meets the minimum and delivers something. */
  lemma PreviewIsPortion(o: Offer, X: nat)
    requires IsPartial(o) && PartialOk(o) && o.status.Open?
    ensures PartialSane(o) && Previewable(o)
    ensures var p := PreviewFill(o, X); var q := PortionOf(o, X);
      && (p.Deliverable() <==> X >= Min(o.want.value - o.paid, o.min.value) && q.newDelivered > o.delivered)
      && (p.Deliverable() ==> q == Portion(p.pay, p.fee, o.delivered + p.got) && p.rebate == 0 && p.pay > 0)
  {
  }

  lemma SoundOffer(L: Ledger, oid: Id)
    requires Inv(L) && oid in L.market.offers
    ensures OfferOk(oid, L.market.offers[oid])
  {
  }

  lemma SoundParts(L: Ledger)
    requires Inv(L)
    ensures OffersInv(L) && TokenInv(L) && NameInv(L) && IdsApart(L)
  {
  }

  lemma PartialSoundness(L: Ledger, ev: Event, oid: Id)
    requires Inv(L) && ev.Attest? && ev.score == SCORE_FILL && Routed(L, ev) == Some(oid) && IsPartial(L.market.offers[oid])
    ensures var o := L.market.offers[oid];
      && PartialSane(o) && Previewable(o)
      && (Sound(o, ev) <==> !FillBarred(o, ev) && !PartialRefused(L, ev, o))
  {
    hide Inv, TokenInv, NameInv, IdsApart;
    SoundParts(L);
    var o := L.market.offers[oid];
    assert OfferOk(oid, o);
    EndorsementIsTheGate(L, ev, oid);
    if !FillBarred(o, ev) {
      OpenOffersReady(L, oid);
      var X := Pt(ev.paidTo, o.want.payto);
      PreviewIsPortion(o, X);
      var p := PreviewFill(o, X);
      if p.Deliverable() {
        var outs := RequiredFillOutputs(o, X).value;
        assert Dominates(ev.paidTo, outs) <==> Pt(ev.paidTo, TREASURY_ADDR) >= p.fee;
      }
    }
  }

  lemma PartialDelivers(L: Ledger, ev: Event, oid: Id)
    requires OffersInv(L) && ev.Attest? && oid in L.market.offers && IsPartial(L.market.offers[oid]) && PartialOk(L.market.offers[oid])
    requires !FillBarred(L.market.offers[oid], ev) && !PartialRefused(L, ev, L.market.offers[oid])
    ensures var o := L.market.offers[oid]; var X := Pt(ev.paidTo, o.want.payto);
      Previewable(o) && DeliveredAs(L, ApplyPartialFill(L, ev, oid), oid, ev.attester, PreviewFill(o, X))
  {
    var o := L.market.offers[oid];
    PreviewIsPortion(o, Pt(ev.paidTo, o.want.payto));
    PartialFillOffers(L, ev, oid);
    var got := PortionEntry(o, ev).got;
    ReleasedBalance(L.assets.balances, o.give.ticker, o.seller, ev.attester, got, o.give.ticker, ev.attester);
  }

  lemma PartialFillExact(L: Ledger, ev: Event, oid: Id)
    requires Inv(L) && ev.Attest? && ev.score == SCORE_FILL && Routed(L, ev) == Some(oid) && IsPartial(L.market.offers[oid])
    ensures var o := L.market.offers[oid];
      && PartialSane(o) && Previewable(o)
      && (if Sound(o, ev) then DeliveredAs(L, ApplyAttest(L, ev), oid, ev.attester, PreviewFill(o, Pt(ev.paidTo, o.want.payto)))
          else ApplyAttest(L, ev) == L)
  {
    hide Sound, PreviewFill, DeliveredAs, FillBarred, PartialRefused;
    var o := L.market.offers[oid];
    assert OfferOk(oid, o);
    assert ApplyAttest(L, ev) == ApplyPartialFill(L, ev, oid);
    PartialSoundness(L, ev, oid);
    if Sound(o, ev) { PartialDelivers(L, ev, oid); }
  }

  lemma WholeSoundness(L: Ledger, ev: Event, oid: Id)
    requires Inv(L) && ev.Attest? && ev.score == SCORE_FILL && Routed(L, ev) == Some(oid)
    requires L.market.offers[oid].want.CsdWant? && !IsPartial(L.market.offers[oid])
    ensures var o := L.market.offers[oid];
      && (Sound(o, ev) <==> WholeFills(L, ev, o))
      && (Sound(o, ev) ==> Pt(ev.paidTo, o.want.payto) >= o.want.value)
  {
    var o := L.market.offers[oid];
    assert OfferOk(oid, o);
    EndorsementIsTheGate(L, ev, oid);
    if !FillBarred(o, ev) {
      OpenOffersReady(L, oid);
      if Dominates(ev.paidTo, Needs(o)) { NeedsThePrice(o, ev.paidTo); }
      if Pt(ev.paidTo, o.want.payto) >= o.want.value { OutputsAreNeeds(o, ev.paidTo); }
    }
  }

  lemma NeedsThePrice(o: Offer, paidTo: map<Addr, nat>)
    requires o.want.CsdWant? && Dominates(paidTo, Needs(o))
    ensures Pt(paidTo, o.want.payto) >= o.want.value
  {
    assert o.want.payto in Needs(o);
  }

  lemma WholeFillExact(L: Ledger, ev: Event, oid: Id)
    requires Inv(L) && ev.Attest? && ev.score == SCORE_FILL && Routed(L, ev) == Some(oid)
    requires L.market.offers[oid].want.CsdWant? && !IsPartial(L.market.offers[oid])
    ensures var o := L.market.offers[oid];
      if Sound(o, ev) then DeliveredAs(L, ApplyAttest(L, ev), oid, ev.attester, PreviewFill(o, Pt(ev.paidTo, o.want.payto)))
      else ApplyAttest(L, ev) == L
  {
    hide Sound, PreviewFill, DeliveredAs, WholeFills, Inv;
    var o := L.market.offers[oid];
    assert ApplyAttest(L, ev) == ApplyFill(L, ev, oid);
    WholeSoundness(L, ev, oid);
    if Sound(o, ev) { WholeDelivers(L, ev, oid); } else { FillNeedsSoundness(L, ev, oid); }
  }

  lemma FillNeedsSoundness(L: Ledger, ev: Event, oid: Id)
    requires ev.Attest? && oid in L.market.offers && L.market.offers[oid].want.CsdWant? && !WholeFills(L, ev, L.market.offers[oid])
    ensures ApplyFill(L, ev, oid) == L
  {
  }

  lemma GiveDelivered(L: Ledger, o: Offer, who: Addr, ev: Event)
    requires GiveReady(L, o)
    ensures var D := DeliverGive(L, o, who, ev);
      && D.market.offers == L.market.offers && D.feesPaid == L.feesPaid
      && (match o.give
          case TokenGive(t, _) =>
            BalOf(D.assets.balances, t, who).available == BalOf(L.assets.balances, t, who).available + L.market.offerLock[o.id]
          case NameGive(nm) => nm in D.registry.names && D.registry.names[nm].owner == who && !D.registry.names[nm].locked)
  {
    if o.give.TokenGive? {
      ReleasedBalance(L.assets.balances, o.give.ticker, o.seller, who, L.market.offerLock[o.id], o.give.ticker, who);
    }
  }

  /** A whole offer's lock is its whole give. */
  lemma WholeLock(L: Ledger, oid: Id, ev: Event)
    requires Inv(L) && ev.Attest? && oid in L.market.offers && L.market.offers[oid].want.CsdWant? && !IsPartial(L.market.offers[oid])
    requires !FillBarred(L.market.offers[oid], ev) && L.market.offers[oid].give.TokenGive?
    ensures oid in L.market.offerLock && L.market.offerLock[oid] == L.market.offers[oid].give.amount
  {
    assert OfferOk(oid, L.market.offers[oid]);
  }

  lemma WholeDelivers(L: Ledger, ev: Event, oid: Id)
    requires Inv(L) && ev.Attest? && oid in L.market.offers && L.market.offers[oid].want.CsdWant? && !IsPartial(L.market.offers[oid])
    requires WholeFills(L, ev, L.market.offers[oid]) && Pt(ev.paidTo, L.market.offers[oid].want.payto) >= L.market.offers[oid].want.value
    ensures var o := L.market.offers[oid];
      DeliveredAs(L, ApplyFill(L, ev, oid), oid, ev.attester, PreviewFill(o, Pt(ev.paidTo, o.want.payto)))
  {
    hide DeliverGive, Inv, FillBarred, Dominates, Needs, FeeAt, RebateOf, MarkBidDone;
    var o := L.market.offers[oid];
    SoundOffer(L, oid);
    if o.give.TokenGive? { WholeLock(L, oid, ev); }
    OpenWhenNotBarred(o, ev);
    var fee := FeeAt(o.want.value, o.feeBps);
    var D := DeliverGive(L, o, ev.attester, ev).(feesPaid := L.feesPaid + fee);
    GiveDelivered(L, o, ev.attester, ev);
    FinishMoves(L, D, oid, FillEntry(ev.attester, ev.id, ev.height, Pt(ev.paidTo, o.want.payto), fee, 0));
  }

  /** On every reachable ledger, a fill of a CSD-priced offer does exactly what the client's preview says: it is
      applied if and only if the client would sign it, it then delivers the previewed amount for the previewed
      fee, and otherwise it changes nothing at all. */
  lemma PreviewIsTheResolver(L: Ledger, ev: Event, oid: Id)
    requires Inv(L) && ev.Attest? && ev.score == SCORE_FILL && Routed(L, ev) == Some(oid) && L.market.offers[oid].want.CsdWant?
    ensures var o := L.market.offers[oid]; var M := Handle(L, ev);
      && Previewable(o)
      && (if Sound(o, ev) then DeliveredAs(L, M, oid, ev.attester, PreviewFill(o, Pt(ev.paidTo, o.want.payto)))
          else M == L)
  {
    hide ApplyAttest, Inv;
    if IsPartial(L.market.offers[oid]) { PartialFillExact(L, ev, oid); } else { WholeFillExact(L, ev, oid); }
  }

  /** Does the transaction pay the whole remainder of the offer, and its fee? */
  predicate PaysRemainder(o: Offer, paidTo: map<Addr, nat>)
    requires IsPartial(o)
  {
    o.paid <= o.want.value
    && Pt(paidTo, o.want.payto) >= o.want.value - o.paid
    && Pt(paidTo, TREASURY_ADDR) >= FeeAt(o.want.value - o.paid, o.feeBps)
  }

  lemma RemainderPortion(o: Offer, X: nat)
    requires IsPartial(o) && PartialOk(o) && o.status.Open? && o.give.amount > 0 && X >= o.want.value - o.paid
    ensures PartialSane(o) && PortionOf(o, X) == Portion(o.want.value - o.paid, FeeAt(o.want.value - o.paid, o.feeBps), o.give.amount)
    ensures o.delivered < o.give.amount
  {
    DeliveredBound(o);
    Arith.MulDiv(o.give.amount, o.want.value);
  }

  lemma PartialRoute(L: Ledger, ev: Event, oid: Id)
    requires ev.Attest? && ev.score == SCORE_FILL && Routed(L, ev) == Some(oid) && IsPartial(L.market.offers[oid])
    ensures Handle(L, ev) == ApplyPartialFill(L, ev, oid)
  {
    hide ApplyPartialFill;
  }

  /** Is the offer filled, fully paid and fully delivered? */
  predicate Completed(m: Market, oid: Id) {
    oid in m.offers
    && var o := m.offers[oid];
       o.status.Filled? && IsPartial(o) && o.paid == o.want.value && o.delivered == o.give.amount
  }

  /** Paying the remainder and its fee always completes an open partial offer. */
  lemma RemainderCompletes(L: Ledger, ev: Event, oid: Id)
    requires Inv(L) && ev.Attest? && ev.score == SCORE_FILL && Routed(L, ev) == Some(oid) && IsPartial(L.market.offers[oid])
    requires !FillBarred(L.market.offers[oid], ev) && PaysRemainder(L.market.offers[oid], ev.paidTo)
    ensures Completed(Handle(L, ev).market, oid)
  {
    hide ApplyPartialFill, FillBarred, Handle, Inv, TokenInv, NameInv, OffersInv, IdsApart;
    hide PartialRefused, PaysRemainder, PortionOf, PortionEntry, AfterPortion, PartialOk, PartialSane;
    var o := L.market.offers[oid];
    SoundParts(L);
    SoundOffer(L, oid);
    PartialRoute(L, ev, oid);
    OpenWhenNotBarred(o, ev);
    OpenOffersReady(L, oid);
    RemainderSettles(L, ev, o);
    PartialFillOffers(L, ev, oid);
  }

  lemma RemainderSettles(L: Ledger, ev: Event, o: Offer)
    requires ev.Attest? && IsPartial(o) && PartialOk(o) && o.status.Open? && o.give.amount > 0 && PaysRemainder(o, ev.paidTo)
    requires o.id in L.market.offerLock
    ensures PartialSane(o) && !PartialRefused(L, ev, o) && o.delivered <= PortionOf(o, Pt(ev.paidTo, o.want.payto)).newDelivered
    ensures var n := AfterPortion(o, PortionEntry(o, ev));
      n.status.Filled? && IsPartial(n) && n.paid == n.want.value && n.delivered == n.give.amount
  {
    hide FeeAt, ProRata;
    RemainderPortion(o, Pt(ev.paidTo, o.want.payto));
  }

  lemma OpenWhenNotBarred(o: Offer, ev: Event)
    requires ev.Attest? && !FillBarred(o, ev)
    ensures o.status.Open?
  {
  }
}
