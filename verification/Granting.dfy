/** When a hold is granted, for how long, and where a fill is then routed, in plain terms
    (packages/cairnx/src/resolve/market.ts:111-148, attest.ts:28-52, 228-261). */
module Granting {
  import opened Rules
  import opened Ledgers
  import opened Handlers
  import opened Replay
  import opened OfferInvariants
  import opened HoldCap

  /** The block after a hold: its window, and from the forty-block windows on five blocks of grace, unless an fclaim set it. */
  function HeldUntil(o: Offer): nat
    requires o.hold.Some?
  {
    o.hold.value.until + if o.claimTxid.None? && o.hold.value.until >= 38_440 then 5 else 0
  }

  predicate Held(o: Offer, height: nat) { o.hold.Some? && height < HeldUntil(o) }

  /** The offers `who` holds; from 88_000 on only those still open count. */
  function Holding(L: Ledger, who: Addr, height: nat): set<Id> {
    set id | id in L.market.offers && Held(L.market.offers[id], height) && L.market.offers[id].hold.value.holder == who
             && (height < 88_000 || L.market.offers[id].status.Open?)
  }

  /** An offer is to be had: open, for anyone, priced in CSD and not held; by one who does not hold three offers, and has not
      held this one in the last fifteen blocks. */
  predicate ToBeHad(L: Ledger, o: Offer, who: Addr, height: nat) {
    && o.status.Open? && o.taker.None? && o.want.CsdWant? && !Held(o, height) && |Holding(L, who, height)| < 3
    && !(o.hold.Some? && o.hold.value.holder == who && height < HeldUntil(o) + 15)
  }

  lemma HeldIs(o: Offer, height: nat)
    ensures Held(o, height) <==> ClaimHeld(o, height)
    ensures o.hold.Some? ==> HeldUntil(o) == HoldEnd(o)
  {
  }

  lemma HoldingIs(L: Ledger, who: Addr, height: nat)
    ensures |Holding(L, who, height)| == LiveHoldCount(L, who, height)
  {
    assert Holding(L, who, height) == LiveHolds(L.market.offers, who, height);
  }

  /** An epoch an fclaim may hold to: not over, at most two ahead, and no later than the offer lives. */
  predicate MayHoldTo(o: Offer, E: nat, height: nat) {
    && E < 0x20_0000_0000_0000 && height < (E + 1) * 30 && E <= height / 30 + 2
    && E <= o.expiresEpoch && (o.height < 41_300 && height >= 40_100 ==> E <= o.height / 30 + 168)
  }

  predicate Earned(L: Ledger, oid: Id, who: Addr, E: nat, height: nat) {
    oid in L.market.offers && ToBeHad(L, L.market.offers[oid], who, height) && MayHoldTo(L.market.offers[oid], E, height)
  }

  lemma EarnedIs(L: Ledger, oid: Id, who: Addr, E: nat, height: nat)
    ensures Earned(L, oid, who, E, height) <==> Grants(L, oid, who, E, height)
  {
    hide Holding, LiveHoldCount;
    HoldingIs(L, who, height);
  }

  /** From height 60_000 on every fclaim is recorded, and granted exactly when it is earned; the offer is then its author's to
      the end of the epoch it names, under the fclaim's id. Below, an fclaim is nothing. */
  lemma FclaimGranted(L: Ledger, ev: Event, oid: Id)
    requires ev.Propose? && ev.rec == Some(FclaimRec(oid))
    ensures var M, E, granted := Handle(L, ev), ev.expiresEpoch, Earned(L, oid, ev.proposer, ev.expiresEpoch, ev.height);
      if ev.height < 60_000 then M == L
      else
        && M.fclaims == L.fclaims[ev.id := Fclaim(oid, ev.proposer, E, ev.height, granted)]
        && M.market.offers == (if granted then
             L.market.offers[oid := L.market.offers[oid].(hold := Some(Hold(ev.proposer, 30 * E + 30)), claimTxid := Some(ev.id))]
             else L.market.offers)
        && M == L.(fclaims := M.fclaims, market := L.market.(offers := M.market.offers))
  {
    hide Grants, Earned;
    EarnedIs(L, oid, ev.proposer, ev.expiresEpoch, ev.height);
    if Earned(L, oid, ev.proposer, ev.expiresEpoch, ev.height) { EarnedThere(L, oid, ev.proposer, ev.expiresEpoch, ev.height); }
  }

  lemma EarnedThere(L: Ledger, oid: Id, who: Addr, E: nat, height: nat)
    requires Earned(L, oid, who, E, height)
    ensures oid in L.market.offers
  {
  }

  /** A granted hold is live at once, and over within ninety blocks. */
  lemma HoldIsShort(L: Ledger, ev: Event, oid: Id)
    requires ev.Propose? && ev.rec == Some(FclaimRec(oid)) && ev.height >= 60_000
    requires Earned(L, oid, ev.proposer, ev.expiresEpoch, ev.height)
    ensures var o := Handle(L, ev).market.offers[oid];
      Held(o, ev.height) && !Held(o, ev.height + 90) && o.hold.value.holder == ev.proposer
  {
    hide Grants, Holding;
    FclaimGranted(L, ev, oid);
  }

  /** A claim attest holds an offer that is to be had, from height 34_000 until 60_000, for fifteen blocks - forty from
      38_400 - and does nothing else ever. */
  lemma ClaimGranted(L: Ledger, ev: Event, oid: Id)
    requires ev.Attest? && ev.score == 50 && ev.proposalId == oid && oid in L.market.offers
    ensures var o, M := L.market.offers[oid], Handle(L, ev);
      M == if 34_000 <= ev.height < 60_000 && ToBeHad(L, o, ev.attester, ev.height) then
             L.(market := L.market.(offers := L.market.offers[oid :=
               o.(hold := Some(Hold(ev.attester, ev.height + if ev.height < 38_400 then 15 else 40)))]))
           else L
  {
    hide Holding, LiveHoldCount;
    HoldingIs(L, ev.attester, ev.height);
  }

  /** On every reachable ledger an attest acts on an offer if and only if it names it, or, a fill from height 60_000 on, names
      the fclaim that holds it now: that the fclaim was granted, and on that offer, need not be asked. */
  lemma ActsOn(L: Ledger, ev: Event, oid: Id)
    requires Inv(L) && ev.Attest?
    ensures Routed(L, ev) == Some(oid) <==>
      oid in L.market.offers
      && (ev.proposalId == oid
          || (ev.height >= 60_000 && ev.score == 100 && L.market.offers[oid].claimTxid == Some(ev.proposalId)))
  {
    hide OfferOk;
    if oid in L.market.offers { assert ClaimOk(oid, L.market.offers[oid], L.fclaims); }
    if ev.proposalId in L.fclaims && ev.proposalId !in L.market.offers && L.fclaims[ev.proposalId].offer in L.market.offers {
      var x := L.fclaims[ev.proposalId].offer;
      assert ClaimOk(x, L.market.offers[x], L.fclaims);
    }
  }

  /** An attest of anything else, or with another score than a fill's, a claim's or a cancel's, does nothing; of a bid, a
      cancel by its bidder while it is open cancels it. */
  lemma OtherAttests(L: Ledger, ev: Event)
    requires Inv(L) && ev.Attest?
    requires ev.proposalId !in L.market.offers || ev.score !in {0, 50, 100}
    requires ev.score == 100 ==> forall oid :: oid in L.market.offers ==> L.market.offers[oid].claimTxid != Some(ev.proposalId)
    ensures var b, B := ev.proposalId, L.bidBook;
      Handle(L, ev) ==
      if ev.score == 0 && b in B.bids && B.bids[b].status.BidOpen? && B.bids[b].bidder == ev.attester then
        L.(bidBook := BidBook(B.bids[b := B.bids[b].(status := BidCancelled)], B.openBids - {b}))
      else L
  {
    hide Inv, ApplyFill, ApplyPartialFill, ApplyTokenFill, ApplyCancel, ApplyLegacyClaim;
    var target := Routed(L, ev);
    if target.Some? { ActsOn(L, ev, target.value); }
  }
}
