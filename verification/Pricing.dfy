/** What a fill must pay, in plain sums: the price, the treasury's share and the maker's rebate, each rounded up; and
    what each kind of fill then moves (packages/cairnx/src/resolve/attest.ts:17-26, 77-226). */
module Pricing {
  import opened Rules
  import opened Ledgers
  import opened Handlers
  import opened Replay
  import opened OfferInvariants
  import opened Moves
  import opened Conservation
  import opened NameSafety
  import opened HoldCap
  import opened Preflight

  /** `c` is x / d, rounded up. */
  predicate IsCeil(c: nat, x: nat, d: nat) { x <= c * d < x + d }

  /** `q` is x / d, rounded down. */
  predicate IsFloor(q: nat, x: nat, d: nat) { q * d <= x < q * d + d }

  lemma CeilUnique(a: nat, b: nat, x: nat, d: nat)
    requires d > 0 && IsCeil(a, x, d) && IsCeil(b, x, d)
    ensures a == b
  {
    if a < b { Arith.MulMonotone(a + 1, b, d); }
    if b < a { Arith.MulMonotone(b + 1, a, d); }
  }

  lemma FloorUnique(a: nat, b: nat, x: nat, d: nat)
    requires d > 0 && IsFloor(a, x, d) && IsFloor(b, x, d)
    ensures a == b
  {
    if a < b { Arith.MulMonotone(a + 1, b, d); }
    if b < a { Arith.MulMonotone(b + 1, a, d); }
  }

  /** The treasury's rate in hundredths of a percent, by the height an offer is anchored at. */
  predicate RateAt(rate: nat, height: nat) {
    rate == if height < V11_HEIGHT then 0 else if height < V16_HEIGHT then 100 else 150
  }

  /** A maker earns a rebate on an offer anchored from V16 on that answers a bid for one taker, or from V17 on stands open. */
  predicate EarnsRebate(o: Offer) {
    o.height >= V16_HEIGHT && ((o.taker.Some? && o.bid.Some?) || (o.taker.None? && o.height >= V17_HEIGHT))
  }

  /** The treasury's share of `amount`. */
  ghost predicate IsFee(fee: nat, amount: nat, height: nat) {
    exists rate: nat :: RateAt(rate, height) && IsCeil(fee, amount * rate, 10_000)
  }

  /** The maker's rebate on a price: a quarter CSD and half a percent, where one is due. */
  predicate IsRebate(rebate: nat, o: Offer)
    requires o.want.CsdWant?
  {
    if EarnsRebate(o) then rebate >= 25_000_000 && IsCeil(rebate - 25_000_000, o.want.value * 50, 10_000) else rebate == 0
  }

  lemma FeeIs(fee: nat, amount: nat, height: nat)
    requires IsFee(fee, amount, height)
    ensures fee == FeeAt(amount, FeeBpsAt(height))
  {
    var rate: nat :| RateAt(rate, height) && IsCeil(fee, amount * rate, 10_000);
    var f := FeeAt(amount, rate);
    assert IsCeil(f, amount * rate, 10_000);
    CeilUnique(fee, f, amount * rate, 10_000);
  }

  lemma RebateIs(rebate: nat, o: Offer)
    requires o.want.CsdWant? && IsRebate(rebate, o)
    ensures rebate == RebateOf(o)
  {
    if EarnsRebate(o) {
      var r := RebateOf(o) - 25_000_000;
      assert IsCeil(r, o.want.value * 50, 10_000);
      CeilUnique(rebate - 25_000_000, r, o.want.value * 50, 10_000);
    }
  }

  /** What the transaction owes an address: coinciding payees add up. */
  function Owed(o: Offer, fee: nat, rebate: nat, a: Addr): nat
    requires o.want.CsdWant?
  {
    (if a == o.want.payto then o.want.value else 0) + (if a == TREASURY_ADDR then fee else 0) + (if a == o.seller then rebate else 0)
  }

  /** Is the attester let near the offer: it is open; a taker-bound one is its taker's; and from V13 on an open one is for
      the holder of a live hold alone, from V17, under the fclaim's id while one routes. */
  predicate Admits(o: Offer, ev: Event)
    requires ev.Attest?
  {
    && o.status.Open? && (o.taker.Some? ==> o.taker.value == ev.attester)
    && (o.taker.None? && ev.height >= V13_HEIGHT ==>
          && ev.height >= V17_HEIGHT && o.hold.Some? && o.hold.value.holder == ev.attester
          && ev.height < o.hold.value.until + (if o.claimTxid.None? && o.hold.value.until >= V20_HEIGHT + 40 then 5 else 0)
          && !(ev.height >= V28_HEIGHT && o.claimTxid.Some? && ev.proposalId == o.id))
  }

  lemma AdmitsIs(o: Offer, ev: Event)
    requires ev.Attest?
    ensures Admits(o, ev) <==> !FillBarred(o, ev)
  {
  }

  lemma NeedsAreOwed(o: Offer, fee: nat, rebate: nat, paidTo: map<Addr, nat>)
    requires o.want.CsdWant? && fee == FeeAt(o.want.value, o.feeBps) && rebate == RebateOf(o)
    ensures Dominates(paidTo, Needs(o)) <==> forall a: Addr :: Pt(paidTo, a) >= Owed(o, fee, rebate, a)
  {
    hide FeeAt, RebateOf;
    var need := Needs(o);
    forall a: Addr ensures Pt(need, a) == Owed(o, fee, rebate, a) { }
    if Dominates(paidTo, need) {
      forall a: Addr ensures Pt(paidTo, a) >= Owed(o, fee, rebate, a) { assert Pt(need, a) == Owed(o, fee, rebate, a); }
    }
    if forall a: Addr :: Pt(paidTo, a) >= Owed(o, fee, rebate, a) {
      forall a | a in need ensures Pt(paidTo, a) >= need[a] { assert Pt(need, a) == Owed(o, fee, rebate, a); }
    }
  }

  /** `M` is `L` unless the author is admitted and every address is paid what it is owed; then the offer is filled, for what
      the payee got, and the fee is booked. */
  ghost predicate FillsIfPaid(L: Ledger, M: Ledger, ev: Event, oid: Id, fee: nat, rebate: nat)
    requires ev.Attest? && oid in L.market.offers && L.market.offers[oid].want.CsdWant?
  {
    var o := L.market.offers[oid];
    && (M != L <==> Admits(o, ev) && forall a: Addr :: Pt(ev.paidTo, a) >= Owed(o, fee, rebate, a))
    && (M != L ==>
          && M.market.offers == L.market.offers[oid :=
               o.(status := Filled, fill := Some(FillEntry(ev.attester, ev.id, ev.height, Pt(ev.paidTo, o.want.payto), fee, 0)))]
          && M.feesPaid == L.feesPaid + fee)
  }

  /** On every reachable ledger a fill of a whole CSD-priced offer is applied if and only if its author is admitted and
      every address is paid what it is owed: the price, the fee and the rebate, rounded up and added up. It then fills the
      offer, records what the payee got, and books the fee. */
  lemma WholeFillPays(L: Ledger, ev: Event, oid: Id, fee: nat, rebate: nat)
    requires ev.Attest? && oid in L.market.offers && L.market.offers[oid].want.CsdWant?
    requires var o := L.market.offers[oid];
      (o.min.None? || o.give.NameGive?) && IsFee(fee, o.want.value, o.height) && IsRebate(rebate, o)
    requires Inv(L) && ev.score == SCORE_FILL && Routed(L, ev) == Some(oid)
    ensures FillsIfPaid(L, Handle(L, ev), ev, oid, fee, rebate)
  {
    hide Inv, FillBarred, Admits, Dominates, Needs, DeliverGive, FeeAt, FeeBpsAt, RebateOf, IsFee, IsRebate;
    var o := L.market.offers[oid];
    SoundOffer(L, oid);
    FeeIs(fee, o.want.value, o.height);
    RebateIs(rebate, o);
    AdmitsIs(o, ev);
    NeedsAreOwed(o, fee, rebate, ev.paidTo);
    WholeOnly(o);
    assert Handle(L, ev) == ApplyFill(L, ev, oid);
    if Admits(o, ev) && Dominates(ev.paidTo, Needs(o)) {
      OpenWhenAdmitted(o, ev);
      ReadyThere(L, oid);
      GiveDelivered(L, o, ev.attester, ev);
      FinishMoves(L, DeliverGive(L, o, ev.attester, ev).(feesPaid := L.feesPaid + fee), oid,
                  FillEntry(ev.attester, ev.id, ev.height, Pt(ev.paidTo, o.want.payto), fee, 0));
    }
  }

  lemma WholeOnly(o: Offer)
    ensures o.min.None? || o.give.NameGive? ==> !IsPartial(o)
  {
  }

  lemma OpenWhenAdmitted(o: Offer, ev: Event)
    requires ev.Attest? && Admits(o, ev)
    ensures o.status.Open?
  {
  }

  lemma ReadyThere(L: Ledger, oid: Id)
    requires Inv(L) && oid in L.market.offers && L.market.offers[oid].status.Open?
    ensures GiveReady(L, L.market.offers[oid])
  {
    hide Inv;
    SoundParts(L);
    OpenOffersReady(L, oid);
  }

  /** What the client's output list carries for a whole fill is what each address is owed, and there is a list exactly when
      the payment reaches the price. */
  lemma OutputsAreOwed(o: Offer, pay: nat, fee: nat, rebate: nat)
    requires o.want.CsdWant? && o.status.Open? && (o.min.None? || o.give.NameGive?) && o.feeBps == FeeBpsAt(o.height)
    requires IsFee(fee, o.want.value, o.height) && IsRebate(rebate, o)
    ensures Previewable(o) && (RequiredFillOutputs(o, pay).Some? <==> pay >= o.want.value)
    ensures pay >= o.want.value ==> forall a: Addr :: Pt(RequiredFillOutputs(o, pay).value, a) == Owed(o, fee, rebate, a)
  {
    hide FeeAt, FeeBpsAt, RebateOf, IsFee, IsRebate;
    FeeIs(fee, o.want.value, o.height);
    RebateIs(rebate, o);
    WholeOnly(o);
  }

  /** Why a preview refuses: the offer is not open, or not priced in CSD, or the payment is under the least one - the price
      of a whole offer, the minimum or the remainder of one sold in portions - or it delivers nothing more. What it refuses
      it shows to deliver nothing, for no rebate. */
  lemma PreviewExplains(o: Offer, pay: nat)
    requires Previewable(o) && (o.min.Some? ==> IsPartial(o) || o.give.NameGive?) && (o.give.TokenGive? ==> o.give.amount >= 1)
    ensures var p := PreviewFill(o, pay);
      && (p.reason.NotOpen? <==> !o.status.Open?)
      && (p.reason.NotCsdPriced? <==> o.status.Open? && o.want.TokenWant?)
      && (p.reason.BelowMin? <==>
            o.status.Open? && o.want.CsdWant?
            && (if IsPartial(o) then pay < o.min.value && pay < o.want.value - o.paid else pay < o.want.value))
      && (p.reason.Fine? <==> p.got > 0) && (!p.reason.Fine? ==> p.rebate == 0)
      && (p.reason.Fine? && !IsPartial(o) ==> p.pay == o.want.value && p.got == if o.give.NameGive? then 1 else o.give.amount)
      && (p.reason.NotOpen? || p.reason.NotCsdPriced? ==> p.pay == 0) && (p.reason.BelowMin? && !IsPartial(o) ==> p.pay == pay)
      && (p.reason.NotOpen? || p.reason.NotCsdPriced? || p.reason.BelowMin? ==> p.fee == 0)
  {
    hide FeeAt, RebateOf;
  }

  // ----- portions -----

  predicate PaysPortion(o: Offer, paidTo: map<Addr, nat>, x: nat, fee: nat, delivered: nat)
    requires o.want.CsdWant? && o.min.Some?
  {
    var X := Pt(paidTo, o.want.payto);
    && (X >= o.min.value || X >= o.want.value - o.paid)
    && Pt(paidTo, TREASURY_ADDR) >= fee && delivered > o.delivered
  }

  /** The offer with one more portion on its account; filled when nothing remains. */
  function Portioned(o: Offer, entry: FillEntry): Offer
    requires o.want.CsdWant?
  {
    var n := o.(paid := o.paid + entry.paid, delivered := o.delivered + entry.got, fills := o.fills + [entry]);
    if n.paid == o.want.value then n.(status := Filled, fill := Some(entry)) else n
  }

  /** `M` is `L` unless the author is admitted and the portion is paid; then it is on the offer's account, and the fee booked. */
  predicate FillsPortion(L: Ledger, M: Ledger, ev: Event, oid: Id, x: nat, fee: nat, delivered: nat)
    requires ev.Attest? && oid in L.market.offers && L.market.offers[oid].want.CsdWant? && L.market.offers[oid].min.Some?
  {
    var o := L.market.offers[oid];
    && (M != L <==> Admits(o, ev) && PaysPortion(o, ev.paidTo, x, fee, delivered))
    && (M != L ==>
          && delivered > o.delivered
          && M.market.offers == L.market.offers[oid :=
               Portioned(o, FillEntry(ev.attester, ev.id, ev.height, x, fee, delivered - o.delivered))]
          && M.feesPaid == L.feesPaid + fee)
  }

  /** On every reachable ledger a fill of an offer sold in portions is applied if and only if its author is admitted, the
      payee gets the minimum or the whole remainder, the treasury its share of what is credited, and at least one unit more
      is delivered. `x` is what is credited - the payment, at most the remainder - and `delivered` the pro-rata floor of
      all that is then paid. The offer then stands there, filled if nothing remains; no rebate is due. */
  lemma PortionPays(L: Ledger, ev: Event, oid: Id, x: nat, fee: nat, delivered: nat)
    requires ev.Attest? && oid in L.market.offers && L.market.offers[oid].want.CsdWant? && L.market.offers[oid].min.Some?
    requires var o := L.market.offers[oid];
      && o.give.TokenGive? && o.paid <= o.want.value && o.want.value > 0
      && x == Min(Pt(ev.paidTo, o.want.payto), o.want.value - o.paid) && IsFee(fee, x, o.height)
      && IsFloor(delivered, o.give.amount * (o.paid + x), o.want.value)
    requires Inv(L) && ev.score == SCORE_FILL && Routed(L, ev) == Some(oid)
    ensures FillsPortion(L, Handle(L, ev), ev, oid, x, fee, delivered)
  {
    hide Inv, Admits, PaysPortion, ApplyPartialFill, Handle, IsFee, IsFloor, OffersInv, TokenInv, NameInv, FillsPortion, FeeAt;
    var o := L.market.offers[oid];
    SoundOffer(L, oid);
    SoundParts(L);
    SanePortions(o, oid);
    FeeIs(fee, x, o.height);
    PartialRoute(L, ev, oid);
    if Admits(o, ev) {
      OpenWhenAdmitted(o, ev);
      ReadyThere(L, oid);
    }
    PortionOutcome(L, ev, oid, x, fee, delivered);
  }

  lemma SanePortions(o: Offer, oid: Id)
    requires OfferOk(oid, o) && o.min.Some?
    ensures IsPartial(o) && o.feeBps == FeeBpsAt(o.height) && o.id == oid
  {
  }

  lemma PortionOutcome(L: Ledger, ev: Event, oid: Id, x: nat, fee: nat, delivered: nat)
    requires ev.Attest? && oid in L.market.offers && IsPartial(L.market.offers[oid]) && PartialSane(L.market.offers[oid])
    requires var o := L.market.offers[oid];
      && (Admits(o, ev) ==> o.id in L.market.offerLock)
      && x == Min(Pt(ev.paidTo, o.want.payto), o.want.value - o.paid) && fee == FeeAt(x, o.feeBps)
      && IsFloor(delivered, o.give.amount * (o.paid + x), o.want.value)
    requires OffersInv(L)
    ensures FillsPortion(L, ApplyPartialFill(L, ev, oid), ev, oid, x, fee, delivered)
  {
    hide Admits, PaysPortion, FillBarred, PartialRefused, PortionEntry, ApplyPartialFill, IsFloor, OffersInv, FeeAt, AfterPortion;
    var o := L.market.offers[oid];
    AdmitsIs(o, ev);
    PartialFillOffers(L, ev, oid);
    PortionRefused(L, ev, oid);
    if Admits(o, ev) {
      PortionIs(L, ev, o, x, fee, delivered);
      if PaysPortion(o, ev.paidTo, x, fee, delivered) {
        PortionBooked(L, ev, oid);
        PortionedIs(o, PortionEntry(o, ev));
      }
    }
  }

  lemma PortionIs(L: Ledger, ev: Event, o: Offer, x: nat, fee: nat, delivered: nat)
    requires ev.Attest? && IsPartial(o) && PartialSane(o) && o.id in L.market.offerLock
    requires x == Min(Pt(ev.paidTo, o.want.payto), o.want.value - o.paid) && fee == FeeAt(x, o.feeBps)
    requires IsFloor(delivered, o.give.amount * (o.paid + x), o.want.value)
    ensures PaysPortion(o, ev.paidTo, x, fee, delivered) <==> !PartialRefused(L, ev, o)
    ensures !PartialRefused(L, ev, o) ==>
      o.delivered <= PortionOf(o, Pt(ev.paidTo, o.want.payto)).newDelivered
      && PortionEntry(o, ev) == FillEntry(ev.attester, ev.id, ev.height, x, fee, delivered - o.delivered) && delivered > o.delivered
  {
    hide FeeAt, IsFloor;
    FloorUnique(delivered, ProRata(o.give.amount, o.paid + x, o.want.value), o.give.amount * (o.paid + x), o.want.value) by {
      FloorIs(o.give.amount * (o.paid + x), o.want.value);
    }
  }

  lemma PortionRefused(L: Ledger, ev: Event, oid: Id)
    requires ev.Attest? && oid in L.market.offers && IsPartial(L.market.offers[oid]) && PartialSane(L.market.offers[oid])
    ensures FillBarred(L.market.offers[oid], ev) || PartialRefused(L, ev, L.market.offers[oid]) ==> ApplyPartialFill(L, ev, oid) == L
  {
    hide FillBarred, PartialRefused, SettlePortion, Credit;
  }

  lemma PortionBooked(L: Ledger, ev: Event, oid: Id)
    requires ev.Attest? && oid in L.market.offers && IsPartial(L.market.offers[oid])
    requires var o := L.market.offers[oid]; PartialSane(o) && !FillBarred(o, ev) && !PartialRefused(L, ev, o)
    requires var o := L.market.offers[oid]; o.delivered <= PortionOf(o, Pt(ev.paidTo, o.want.payto)).newDelivered
    ensures ApplyPartialFill(L, ev, oid).feesPaid == L.feesPaid + PortionEntry(L.market.offers[oid], ev).fee
  {
    hide FillBarred, FeeAt, ProRata, Credit, MarkBidDone;
  }

  lemma PortionedIs(o: Offer, entry: FillEntry)
    requires o.want.CsdWant?
    ensures AfterPortion(o, entry) == Portioned(o, entry)
  {
  }

  lemma FloorIs(x: nat, d: nat)
    requires d > 0
    ensures IsFloor(x / d, x, d)
  {
    assert x == (x / d) * d + x % d;
  }

  // ----- token-priced fills -----

  /** What a token-priced fill moves of the available balance of `a` in `t`: price and fee from the buyer, price to the
      payee, fee to the treasury, the give to the buyer. */
  function Gains(o: Offer, who: Addr, fee: nat, t: string, a: Addr): int
    requires o.want.TokenWant?
  {
    (if t == o.want.ticker && a == who then -(o.want.amount + fee) else 0)
    + (if t == o.want.ticker && a == o.want.payto then o.want.amount else 0)
    + (if t == o.want.ticker && a == TREASURY_ADDR then fee else 0)
    + (if o.give.TokenGive? && t == o.give.ticker && a == who then o.give.amount else 0)
  }

  /** Can the buyer settle: the offer is open and not another's, the confidence is the fixed one, and it can spare the
      price and the fee. */
  predicate CanSettle(L: Ledger, o: Offer, ev: Event, fee: nat)
    requires ev.Attest? && o.want.TokenWant?
  {
    && o.status.Open? && (o.taker.Some? ==> o.taker.value == ev.attester) && ev.confidence == 1_000_000
    && o.want.ticker in L.assets.tokens
    && BalOf(L.assets.balances, o.want.ticker, ev.attester).available >= o.want.amount + fee
  }

  lemma SettledBalance(bs: Balances, w: Want, who: Addr, fee: nat, t: string, a: Addr)
    requires w.TokenWant?
    ensures var b := BalOf(SettleTokens(bs, w, who, fee), t, a);
      && b.available == BalOf(bs, t, a).available
                        + (if t == w.ticker && a == who then -(w.amount + fee) else 0)
                        + (if t == w.ticker && a == w.payto then w.amount else 0)
                        + (if t == w.ticker && a == TREASURY_ADDR then fee else 0)
      && b.locked == BalOf(bs, t, a).locked
  {
    hide Credit;
    var b1 := Credit(bs, w.ticker, who, -(w.amount + fee), 0);
    var b2 := Credit(b1, w.ticker, w.payto, w.amount, 0);
    CreditBalance(bs, w.ticker, who, -(w.amount + fee), 0, t, a);
    CreditBalance(b1, w.ticker, w.payto, w.amount, 0, t, a);
    CreditBalance(b2, w.ticker, TREASURY_ADDR, fee, 0, t, a);
  }

  /** On every reachable ledger a token-priced fill happens whole or not at all, exactly when the buyer can settle it; every
      balance of every ticker then moves by its share, and the seller's lock is consumed. */
  lemma TokenFillMoves(L: Ledger, ev: Event, oid: Id, fee: nat)
    requires Inv(L) && ev.Attest? && ev.score == SCORE_FILL && Routed(L, ev) == Some(oid)
    requires var o := L.market.offers[oid]; o.want.TokenWant? && IsFee(fee, o.want.amount, o.height)
    ensures var o := L.market.offers[oid]; var M := Handle(L, ev);
      && (M != L <==> CanSettle(L, o, ev, fee))
      && (M != L ==>
            && M.market.offers == L.market.offers[oid :=
                 o.(status := Filled, fill := Some(FillEntry(ev.attester, ev.id, ev.height, o.want.amount, fee, 0)))]
            && (forall t: string, a: Addr ::
                  BalOf(M.assets.balances, t, a).available == BalOf(L.assets.balances, t, a).available + Gains(o, ev.attester, fee, t, a)
                  && BalOf(M.assets.balances, t, a).locked
                     == BalOf(L.assets.balances, t, a).locked
                        - if o.give.TokenGive? && t == o.give.ticker && a == o.seller then o.give.amount else 0)
            && (o.give.NameGive? ==> o.give.name in M.registry.names && M.registry.names[o.give.name].owner == ev.attester
                                     && !M.registry.names[o.give.name].locked))
  {
    hide Inv, SettleTokens, DeliverGive, FeeAt, FeeBpsAt, IsFee, Credit, BalOf, MarkBidDone;
    var o, who := L.market.offers[oid], ev.attester;
    SoundOffer(L, oid);
    FeeIs(fee, o.want.amount, o.height);
    assert Handle(L, ev) == ApplyTokenFill(L, ev, oid);
    if o.status.Open? {
      ReadyThere(L, oid);
      if CanSettle(L, o, ev, fee) {
        var P := Pay(L, SettleTokens(L.assets.balances, o.want, who, fee));
        var D := DeliverGive(P, o, who, ev);
        GiveDelivered(P, o, who, ev);
        FinishMoves(L, D, oid, FillEntry(who, ev.id, ev.height, o.want.amount, fee, 0));
        if o.give.TokenGive? { TokenLock(L, oid); }
        forall t: string, a: Addr
          ensures BalOf(D.assets.balances, t, a).available == BalOf(L.assets.balances, t, a).available + Gains(o, who, fee, t, a)
          ensures BalOf(D.assets.balances, t, a).locked
                  == BalOf(L.assets.balances, t, a).locked
                     - if o.give.TokenGive? && t == o.give.ticker && a == o.seller then o.give.amount else 0
        {
          SettledBalance(L.assets.balances, o.want, who, fee, t, a);
          GivenBalance(P, o, who, ev, t, a);
        }
      }
    }
  }

  lemma TokenLock(L: Ledger, oid: Id)
    requires Inv(L) && oid in L.market.offers && L.market.offers[oid].status.Open? && L.market.offers[oid].give.TokenGive?
    requires L.market.offers[oid].want.TokenWant?
    ensures oid in L.market.offerLock && L.market.offerLock[oid] == L.market.offers[oid].give.amount && L.market.offers[oid].id == oid
  {
    assert OfferOk(oid, L.market.offers[oid]);
  }

  lemma GivenBalance(P: Ledger, o: Offer, who: Addr, ev: Event, t: string, a: Addr)
    requires GiveReady(P, o)
    ensures var bs, cs := P.assets.balances, DeliverGive(P, o, who, ev).assets.balances;
      var x := if o.give.TokenGive? then P.market.offerLock[o.id] else 0;
      && BalOf(cs, t, a).available == BalOf(bs, t, a).available + (if o.give.TokenGive? && t == o.give.ticker && a == who then x else 0)
      && BalOf(cs, t, a).locked == BalOf(bs, t, a).locked - (if o.give.TokenGive? && t == o.give.ticker && a == o.seller then x else 0)
  {
    hide Credit, BalOf;
    if o.give.TokenGive? { ReleasedBalance(P.assets.balances, o.give.ticker, o.seller, who, P.market.offerLock[o.id], t, a); }
  }
}
