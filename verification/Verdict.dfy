/** When a fill is safe to sign, exactly (packages/cairnx/src/verifyfill.ts:204-332): over a complete history the verdict is
    safe if and only if the chain's own ledger holds the offer for the caller through the fclaim, with room to mine. */
module Verdicts {
  import opened Rules
  import opened Ledgers
  import opened Handlers
  import opened Replay
  import opened Ordering
  import opened OfferInvariants
  import opened HeightInvariants
  import opened HoldCap
  import opened HoldSafety
  import opened Provenance
  import opened Preflight
  import opened Runs
  import opened VerifyFill
  import opened LaneFill
  import opened HoldCounting
  import opened Pricing
  import Arith

  /** Buried at least as deep as the policy asks, by the report and by the tip. */
  predicate Deep(q: FillQuery, e: Event) { e.id in q.depth && q.depth[e.id] >= q.need && q.tip - e.height + 1 >= q.need }

  /** The proven events hold a CSD-priced offer and an fclaim on it from V28 on, both deep, and every fill attest of the
      offer or of any fclaim on it is deep too. */
  ghost predicate DeepLane(q: FillQuery) {
    && (exists o: Event :: o in q.proven && IsOffer(o) && o.id == q.offer && o.rec.value.want.ValueSpec? && Deep(q, o))
    && (exists f: Event :: f in q.proven && IsFclaim(f) && f.id == q.fclaim && f.rec.value.offer == q.offer
                           && f.height >= V28_HEIGHT && Deep(q, f))
    && (forall a :: a in q.proven && a.Attest? && a.score == 100 && OnLane(q, a.proposalId) ==> Deep(q, a))
  }

  ghost predicate OnLane(q: FillQuery, id: Id) {
    id == q.offer || exists f: Event :: f in q.proven && IsFclaim(f) && f.id == id && f.rec.value.offer == q.offer
  }

  lemma {:induction false} FoundHere(evs: seq<Event>, e: Event)
    requires OneContent(evs) && e in evs && e.Propose?
    ensures FindPropose(evs, e.id) == Some(e)
  {
    assert e in evs && evs[0] in evs;
    if !(evs[0].Propose? && evs[0].id == e.id) {
      assert e in evs[1..] by {
        var k :| 0 <= k < |evs| && evs[k] == e;
        assert evs[1..][k - 1] == e;
      }
      assert forall x :: x in evs[1..] ==> x in evs;
      FoundHere(evs[1..], e);
    }
  }

  lemma LaneIs(q: FillQuery, id: Id)
    ensures InLane(q, id) <==> OnLane(q, id)
  {
    if OnLane(q, id) && id != q.offer {
      var f: Event :| f in q.proven && IsFclaim(f) && f.id == id && f.rec.value.offer == q.offer;
      var i :| 0 <= i < |q.proven| && q.proven[i] == f;
    }
    if InLane(q, id) && id != q.offer {
      var i :| 0 <= i < |q.proven| && IsFclaim(q.proven[i]) && q.proven[i].id == id && q.proven[i].rec.value.offer == q.offer;
      assert q.proven[i] in q.proven;
    }
  }

  lemma DeepIs(q: FillQuery, e: Event)
    ensures Deep(q, e) <==> Buried(q, e)
  {
  }

  lemma LaneExact(q: FillQuery)
    requires OneContent(q.proven)
    ensures LaneProven(q) <==> DeepLane(q)
  {
    hide InLane, OnLane, Buried, Deep, OneContent;
    forall id ensures InLane(q, id) <==> OnLane(q, id) { LaneIs(q, id); }
    forall e ensures Deep(q, e) <==> Buried(q, e) { DeepIs(q, e); }
    if DeepLane(q) {
      var o: Event :| o in q.proven && IsOffer(o) && o.id == q.offer && o.rec.value.want.ValueSpec? && Deep(q, o);
      var f: Event :| f in q.proven && IsFclaim(f) && f.id == q.fclaim && f.rec.value.offer == q.offer
                      && f.height >= V28_HEIGHT && Deep(q, f);
      FoundHere(q.proven, o);
      FoundHere(q.proven, f);
    }
    if LaneProven(q) {
      forall a | a in q.proven && a.Attest? && a.score == 100 && OnLane(q, a.proposalId) ensures Deep(q, a) {
        var i :| 0 <= i < |q.proven| && q.proven[i] == a;
      }
    }
  }

  /** In the chain's own ledger the offer is open, held by the caller through the fclaim, to the end of the epoch the fclaim
      asked for. */
  ghost predicate HeldInChain(q: FillQuery, L: Ledger, E: nat) {
    && q.offer in L.market.offers && HeldThrough(L.market.offers[q.offer], q.me, q.fclaim, E)
    && q.fclaim in L.fclaims && L.fclaims[q.fclaim].granted && L.fclaims[q.fclaim].expiresEpoch == E
  }

  /** The chain's ledger holds the offer for the caller through the fclaim, the payment delivers as planned, and the hold
      outlasts the tip by four blocks. */
  ghost predicate HoldsUp(q: FillQuery)
    requires LaneProven(q)
  {
    var L, E := Run(Applied(q.proven)), FclaimEvent(q).expiresEpoch;
    HeldInChain(q, L, E) && PaymentSafe(q, L.market.offers[q.offer]) && (E + 1) * EPOCH_LEN >= q.tip + 5
  }

  /** Over a complete history: a verdict is safe if and only if the lane is proven deep, fewer than three other holds are
      asserted, and the hold and the payment hold up in the chain's own ledger. */
  lemma VerdictExact(q: FillQuery)
    requires Delivered(q.proven) && forall e :: e in q.proven ==> e.height <= q.tip
    ensures DeepLane(q) <==> LaneProven(q)
    ensures VerdictSafe(q) <==> LaneProven(q) && 0 <= q.myLiveHoldsAtGrant <= 2 && HoldsUp(q)
  {
    hide HoldsUp, DeepLane, LaneProven, PaymentSafe, ReplayLiveHold;
    LaneExact(q);
    if VerdictSafe(q) { SafeIsHeld(q); }
    if LaneProven(q) && 0 <= q.myLiveHoldsAtGrant <= 2 && HoldsUp(q) { HeldIsSafe(q); }
  }

  lemma SafeIsHeld(q: FillQuery)
    requires VerdictSafe(q) && Delivered(q.proven) && forall e :: e in q.proven ==> e.height <= q.tip
    ensures HoldsUp(q)
  {
    hide Applied, Run, Delivered, PaymentSafe;
    var r := ReplayLiveHold(q.proven, q.offer, q.fclaim, q.me, q.tip);
    var L, o, E := Run(Applied(q.proven)), r.offer.value, FclaimEvent(q).expiresEpoch;
    ViewIsHeld(q, Applied(q.proven), o, E);
    InvParts(L);
    assert ClaimOk(q.offer, o, L.fclaims);
    GrantRecorded(q.proven, q.fclaim);
  }

  lemma HeldIsSafe(q: FillQuery)
    requires Delivered(q.proven) && LaneProven(q) && 0 <= q.myLiveHoldsAtGrant <= 2 && forall e :: e in q.proven ==> e.height <= q.tip
    requires HoldsUp(q)
    ensures VerdictSafe(q)
  {
    hide Applied, Run, Delivered, PaymentSafe, Prepare, Seal, Inv, Resolve;
    var L, E := Run(Applied(q.proven)), FclaimEvent(q).expiresEpoch;
    ViewOfHeld(q, E);
    LateTip(q);
    ResolveIs(q.proven, q.tip);
  }

  lemma ResolveIs(evs: seq<Event>, tip: nat)
    ensures Resolve(evs, tip) == Seal(Run(Applied(evs)), tip)
  {
  }

  lemma ViewOfHeld(q: FillQuery, E: nat)
    requires Delivered(q.proven) && forall e :: e in q.proven ==> e.height <= q.tip
    requires HeldInChain(q, Run(Applied(q.proven)), E) && (E + 1) * EPOCH_LEN >= q.tip + 5
    ensures var L := Run(Applied(q.proven)); var S := Seal(L, q.tip);
      q.offer in S.market.offers && S.market.offers[q.offer] == L.market.offers[q.offer] && S.fclaims == L.fclaims
  {
    hide Applied, Run, Delivered, Prepare, Seal, Inv;
    var past := Applied(q.proven);
    var L := Run(past);
    AppliedIsFeed(q.proven);
    assert past + [] == past;
    Continues(past, []);
    if past != [] { assert past[|past| - 1] in q.proven; }
    SealIsPrepare(L, q.tip);
    PrepareSparesHeld(L, q.tip + 1, q.offer, q.me, q.fclaim, E);
    InvParts(L);
    PreparedFclaims(L, q.tip + 1);
  }

  lemma PreparedFclaims(L: Ledger, height: nat)
    requires Inv(L)
    ensures Prepare(L, height).fclaims == L.fclaims
  {
    PrepareWinds(L, height);
  }

  lemma LateTip(q: FillQuery)
    requires LaneProven(q) && forall e :: e in q.proven ==> e.height <= q.tip
    ensures q.tip >= V28_HEIGHT
  {
  }

  // ----- the payment -----

  /** What the caller means to pay: the payment it names, or else the price in the proven offer record. */
  predicate Plans(q: FillQuery, pay: nat)
    requires LaneProven(q)
  {
    if q.pay.Some? then pay == q.pay.value
    else
      var o := FindPropose(q.proven, q.offer);
      o.Some? && IsOffer(o.value) && o.value.rec.value.want == ValueSpec(pay, o.value.rec.value.want.payto)
  }

  /** The transaction's sums, where the caller hands them over, are to the unit what each address is owed. */
  ghost predicate SumsAre(q: FillQuery, owed: Addr -> nat) {
    q.sums.Some? ==> forall a: Addr :: Pt(q.sums.value, a) == owed(a)
  }

  lemma MatchIs(sums: map<Addr, nat>, required: map<Addr, nat>)
    ensures SumsMatch(sums, required) <==> forall a: Addr :: Pt(sums, a) == Pt(required, a)
  {
    if SumsMatch(sums, required) {
      forall a: Addr ensures Pt(sums, a) == Pt(required, a) { assert a in sums.Keys + required.Keys || (a !in sums && a !in required); }
    }
  }

  /** The payment for a whole offer is safe if and only if it reaches the price, and the sums are the price, the fee and the
      rebate, added up by address. */
  lemma WholePaymentExact(q: FillQuery, o: Offer, pay: nat, fee: nat, rebate: nat)
    requires LaneProven(q) && Plans(q, pay) && o.status.Open? && o.want.CsdWant? && OfferOk(q.offer, o)
    requires (o.min.None? || o.give.NameGive?) && IsFee(fee, o.want.value, o.height) && IsRebate(rebate, o)
    ensures PaymentSafe(q, o) <==> pay >= o.want.value && SumsAre(q, a => Owed(o, fee, rebate, a))
  {
    hide LaneProven, IsFee, IsRebate, RequiredFillOutputs, Owed, SumsMatch;
    assert o.(status := Open) == o;
    OutputsAreOwed(o, pay, fee, rebate);
    PlanIs(q, pay);
    WholePreview(o, pay);
    if pay >= o.want.value && q.sums.Some? { MatchIs(q.sums.value, RequiredFillOutputs(o, pay).value); }
  }

  lemma PlanIs(q: FillQuery, pay: nat)
    requires LaneProven(q) && Plans(q, pay)
    ensures PlannedPay(q) == pay
  {
  }

  lemma WholePreview(o: Offer, pay: nat)
    requires o.status.Open? && o.want.CsdWant? && (o.min.None? || o.give.NameGive?) && (o.give.TokenGive? ==> o.give.amount >= 1)
    ensures Previewable(o)
    ensures PreviewFill(o, pay).Deliverable() <==> pay >= o.want.value
    ensures pay >= o.want.value ==> PreviewFill(o, pay).got >= 1
  {
    hide FeeAt, RebateOf;
  }

  /** What a portion owes an address: the credited payment and the treasury's share. */
  function PortionOwed(o: Offer, x: nat, fee: nat, a: Addr): nat
    requires o.want.CsdWant?
  {
    (if a == o.want.payto then x else 0) + (if a == TREASURY_ADDR then fee else 0)
  }

  /** The payment for a portion is safe if and only if it reaches the minimum or the remainder, delivers a unit more, and the
      sums are what it credits and the fee on that. */
  lemma PortionPaymentExact(q: FillQuery, o: Offer, pay: nat, x: nat, fee: nat, delivered: nat)
    requires LaneProven(q) && Plans(q, pay) && o.status.Open? && o.want.CsdWant? && OfferOk(q.offer, o)
    requires o.min.Some? && o.give.TokenGive? && o.want.value > 0 && o.paid <= o.want.value
    requires x == Min(pay, o.want.value - o.paid) && IsFee(fee, x, o.height)
    requires IsFloor(delivered, o.give.amount * (o.paid + x), o.want.value)
    ensures PaymentSafe(q, o) <==>
      (pay >= o.min.value || pay >= o.want.value - o.paid) && delivered > o.delivered && SumsAre(q, a => PortionOwed(o, x, fee, a))
  {
    hide LaneProven, IsFee, RequiredFillOutputs, PreviewFill, PortionOwed, SumsMatch, IsFloor;
    assert o.(status := Open) == o;
    PlanIs(q, pay);
    FeeIs(fee, x, o.height);
    PortionPreview(q.offer, o, pay, x, fee, delivered);
    if PreviewFill(o, pay).Deliverable() {
      PortionOutputs(o, pay, x, fee);
      if q.sums.Some? { MatchIs(q.sums.value, RequiredFillOutputs(o, pay).value); }
    }
  }

  lemma PortionPreview(id: Id, o: Offer, pay: nat, x: nat, fee: nat, delivered: nat)
    requires OfferOk(id, o) && o.status.Open? && o.want.CsdWant? && o.min.Some? && o.give.TokenGive?
    requires o.want.value > 0 && o.paid <= o.want.value && x == Min(pay, o.want.value - o.paid) && fee == FeeAt(x, o.feeBps)
    requires IsFloor(delivered, o.give.amount * (o.paid + x), o.want.value)
    ensures Previewable(o)
    ensures PreviewFill(o, pay).Deliverable() <==> (pay >= o.min.value || pay >= o.want.value - o.paid) && delivered > o.delivered
    ensures var p := PreviewFill(o, pay);
      p.Deliverable() ==> delivered == o.delivered + p.got && p.pay == x && p.fee == fee && p.rebate == 0
  {
    hide FeeAt, RebateOf, IsFloor, PreviewFill;
    PreviewIsPortion(o, pay);
    var d := o.give.amount * (o.paid + x);
    FloorIs(d, o.want.value);
    FloorUnique(delivered, ProRata(o.give.amount, o.paid + x, o.want.value), d, o.want.value);
  }

  lemma PortionOutputs(o: Offer, pay: nat, x: nat, fee: nat)
    requires Previewable(o) && o.want.CsdWant? && PreviewFill(o, pay).Deliverable()
    requires PreviewFill(o, pay).pay == x && PreviewFill(o, pay).fee == fee && PreviewFill(o, pay).rebate == 0
    ensures RequiredFillOutputs(o, pay).Some?
    ensures forall a: Addr :: Pt(RequiredFillOutputs(o, pay).value, a) == PortionOwed(o, x, fee, a)
  {
    hide PreviewFill, Previewable;
  }

  // ----- a proven closing fill -----

  lemma DominatesIs(paidTo: map<Addr, nat>, need: map<Addr, nat>)
    ensures Dominates(paidTo, need) <==> forall a: Addr :: Pt(paidTo, a) >= Pt(need, a)
  {
    if forall a: Addr :: Pt(paidTo, a) >= Pt(need, a) {
      forall a | a in need ensures Pt(paidTo, a) >= need[a] { assert Pt(need, a) == need[a]; }
    }
  }

  /** A fill proves that the caller's own fill closed the offer behind an fclaim, for a grant from height 88_000 on, if and
      only if it is the caller's fill under that fclaim, after it and before the grant, and pays the whole offer to the unit
      of its proven record: price, fee and, where the offer is not sold in portions, rebate. */
  lemma ClosingFillExact(fill: Event, fclaim: Event, offerEv: Event, me: Addr, grant: nat, fee: nat, rebate: nat)
    requires IsFclaim(fclaim) && IsOffer(offerEv) && EventOk(offerEv) && offerEv.rec.value.want.ValueSpec?
    requires var o := NewOffer(offerEv, offerEv.rec.value);
      IsFee(fee, o.want.value, offerEv.height) && if IsPartial(o) then rebate == 0 else IsRebate(rebate, o)
    ensures MyProvenFillClosedOffer(Some(fill), fclaim, Some(offerEv), me, grant) <==>
      && grant >= 88_000 && fill.Attest? && fill.score == 100 && fill.attester == me && fill.proposalId == fclaim.id
      && fclaim.height < fill.height < grant && offerEv.id == fclaim.rec.value.offer
      && forall a: Addr :: Pt(fill.paidTo, a) >= Owed(NewOffer(offerEv, offerEv.rec.value), fee, rebate, a)
  {
    hide IsFee, IsRebate, Owed, RequiredFillOutputs, PreviewFill, Dominates;
    var o := NewOffer(offerEv, offerEv.rec.value);
    FreshOutputs(offerEv, fee, rebate);
    DominatesIs(fill.paidTo, RequiredFillOutputs(o, o.want.value).value);
  }

  lemma FreshOutputs(offerEv: Event, fee: nat, rebate: nat)
    requires IsOffer(offerEv) && EventOk(offerEv) && offerEv.rec.value.want.ValueSpec?
    requires var o := NewOffer(offerEv, offerEv.rec.value);
      IsFee(fee, o.want.value, offerEv.height) && if IsPartial(o) then rebate == 0 else IsRebate(rebate, o)
    ensures var o := NewOffer(offerEv, offerEv.rec.value);
      && o.want.CsdWant? && Previewable(o) && RequiredFillOutputs(o, o.want.value).Some?
      && forall a: Addr :: Pt(RequiredFillOutputs(o, o.want.value).value, a) == Owed(o, fee, rebate, a)
  {
    hide IsFee, IsRebate, RequiredFillOutputs, PreviewFill, FeeAt;
    var o := NewOffer(offerEv, offerEv.rec.value);
    if IsPartial(o) {
      FeeIs(fee, o.want.value, offerEv.height);
      FreshPortion(o);
      PortionOutputs(o, o.want.value, o.want.value, fee);
    } else {
      OutputsAreOwed(o, o.want.value, fee, rebate);
    }
  }

  lemma FreshPortion(o: Offer)
    requires o.status.Open? && IsPartial(o) && o.paid == 0 && o.delivered == 0 && o.give.amount >= 1 && 1 <= o.min.value <= o.want.value
    ensures Previewable(o)
    ensures var p := PreviewFill(o, o.want.value);
      p.Deliverable() && p.pay == o.want.value && p.fee == FeeAt(o.want.value, o.feeBps) && p.rebate == 0
  {
    hide FeeAt;
    Arith.MulDiv(o.give.amount, o.want.value);
  }
}
