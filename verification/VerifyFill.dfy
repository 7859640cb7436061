/** The fill-side fund boundary (packages/cairnx/src/verifyfill.ts): the decision verifyFillSpv makes over a set of
    proven events, and the proof that over a complete history a safe verdict means the fill is applied. */
module VerifyFill {
  import opened Rules
  import opened Ledgers
  import opened Handlers
  import opened Replay
  import opened Ordering
  import opened OfferInvariants
  import opened HeightInvariants
  import opened HoldCap
  import opened HoldSafety
  import opened Provenance
  import opened Preflight
  import opened Runs

  /** What the caller hands over: the proven events and their burial, the fill it means to sign, and the depth its
      policy asks for (`need`, which the source computes in floating point). */
  datatype FillQuery = FillQuery(
    proven: seq<Event>, depth: map<Id, int>, tip: nat, offer: Id, fclaim: Id, me: Addr,
    myLiveHoldsAtGrant: int, pay: Option<nat>, sums: Option<map<Addr, nat>>, need: int)

  /** The first proposal with this id. */
  function FindPropose(evs: seq<Event>, id: Id): (r: Option<Event>)
    ensures r.Some? ==> r.value.Propose? && r.value.id == id && r.value in evs
  {
    if evs == [] then None
    else if evs[0].Propose? && evs[0].id == id then Some(evs[0])
    else FindPropose(evs[1..], id)
  }

  datatype HoldReplay = HoldReplay(offer: Option<Offer>, granted: bool, routed: bool, heldByMe: bool)

  /** Re-derive the grant and the hold with the resolver itself. */
  function ReplayLiveHold(proven: seq<Event>, offerId: Id, fclaim: Id, me: Addr, evalHeight: nat): HoldReplay {
    var state := Resolve(proven, evalHeight);
    var offer := if offerId in state.market.offers then Some(state.market.offers[offerId]) else None;
    HoldReplay(offer,
               fclaim in state.fclaims && state.fclaims[fclaim].granted,
               offer.Some? && offer.value.claimTxid == Some(fclaim),
               offer.Some? && offer.value.status.Open? && HasLiveClaim(offer.value, me, evalHeight))
  }

  /** Buried deep enough: the reported burial, clamped to what the tip allows. */
  predicate Buried(q: FillQuery, ev: Event) {
    ev.id in q.depth && Min(q.depth[ev.id], q.tip - ev.height + 1) >= q.need
  }

  predicate InLane(q: FillQuery, id: Id) {
    id == q.offer || exists i :: 0 <= i < |q.proven| && IsFclaim(q.proven[i]) && q.proven[i].id == id && q.proven[i].rec.value.offer == q.offer
  }

  /** The two proposals are there, bound, of this lane and buried, and so is every earlier fill of the lane. */
  predicate LaneProven(q: FillQuery) {
    var o, f := FindPropose(q.proven, q.offer), FindPropose(q.proven, q.fclaim);
    && o.Some? && f.Some? && f.value.height >= V28_HEIGHT && IsOffer(o.value) && IsFclaim(f.value)
    && f.value.rec.value.offer == q.offer && o.value.rec.value.want.ValueSpec?
    && Buried(q, o.value) && Buried(q, f.value)
    && forall i :: 0 <= i < |q.proven| && q.proven[i].Attest? && q.proven[i].score == SCORE_FILL && InLane(q, q.proven[i].proposalId)
         ==> Buried(q, q.proven[i])
  }

  function PlannedPay(q: FillQuery): nat
    requires LaneProven(q)
  {
    if q.pay.Some? then q.pay.value else FindPropose(q.proven, q.offer).value.rec.value.want.value
  }

  /** The planned per-address sums are exactly the required ones. */
  predicate SumsMatch(sums: map<Addr, nat>, required: map<Addr, nat>) {
    forall a :: a in sums.Keys + required.Keys ==> Pt(sums, a) == Pt(required, a)
  }

  /** Does the payment deliver, and is it the one the caller planned? */
  predicate PaymentSafe(q: FillQuery, o: Offer)
    requires LaneProven(q)
  {
    && Previewable(o.(status := Open))
    && PreviewFill(o.(status := Open), PlannedPay(q)).Deliverable()
    && PreviewFill(o.(status := Open), PlannedPay(q)).got >= 1
    && (q.sums.Some? ==> RequiredFillOutputs(o.(status := Open), PlannedPay(q)).Some?
                         && SumsMatch(q.sums.value, RequiredFillOutputs(o.(status := Open), PlannedPay(q)).value))
  }

  predicate VerdictSafe(q: FillQuery) {
    LaneProven(q)
    && var r := ReplayLiveHold(q.proven, q.offer, q.fclaim, q.me, q.tip);
    r.offer.Some?
    && 0 <= q.myLiveHoldsAtGrant < MAX_ACTIVE_CLAIMS
    && r.routed && r.granted && r.heldByMe
    && PaymentSafe(q, r.offer.value)
    && FclaimHoldEnd(FindPropose(q.proven, q.fclaim).value.expiresEpoch) >= q.tip + FILL_TIP_MARGIN
  }

  // ----- a safe verdict over a complete history -----

  /** The fclaim the replay grants is recorded as the proven event says. */
  lemma GrantRecorded(proven: seq<Event>, f: Id)
    requires Delivered(proven) && f in Run(Applied(proven)).fclaims && FindPropose(proven, f).Some?
    ensures var e, r := FindPropose(proven, f).value, Run(Applied(proven)).fclaims[f];
      r.expiresEpoch == e.expiresEpoch && r.proposer == e.proposer
  {
    hide Applied, Run;
    AppliedIsFeed(proven);
    FclaimIs(Applied(proven), FindPropose(proven, f).value);
  }

  /** The open offer of the closing view is the offer of the run. */
  lemma OpenInView(L: Ledger, tip: nat, oid: Id)
    requires Inv(L) && L.block <= tip
    requires oid in Seal(L, tip).market.offers && Seal(L, tip).market.offers[oid].status.Open?
    ensures oid in L.market.offers && Seal(L, tip).market.offers[oid] == L.market.offers[oid] && Seal(L, tip).fclaims == L.fclaims
  {
    hide Prepare, Seal;
    SealIsPrepare(L, tip);
    PrepareWinds(L, tip + 1);
  }

  lemma ViewIsHeld(q: FillQuery, past: seq<Event>, o: Offer, E: nat)
    requires VerdictSafe(q) && Delivered(q.proven) && past == Applied(q.proven) && (forall e :: e in q.proven ==> e.height <= q.tip)
    requires E == FindPropose(q.proven, q.fclaim).value.expiresEpoch
    requires ReplayLiveHold(q.proven, q.offer, q.fclaim, q.me, q.tip).offer == Some(o)
    ensures Inv(Run(past)) && Run(past).block <= q.tip
    ensures q.offer in Run(past).market.offers && Run(past).market.offers[q.offer] == o && HeldThrough(o, q.me, q.fclaim, E)
    ensures PaymentSafe(q, o)
  {
    hide Step, Inv, PaymentSafe, Applied, Seal;
    AppliedIsFeed(q.proven);
    assert past + [] == past;
    Continues(past, []);
    var L := Run(past);
    if past != [] { assert past[|past| - 1] in q.proven; }
    OpenInView(L, q.tip, q.offer);
    GrantRecorded(q.proven, q.fclaim);
    assert OffersInv(L) by { InvParts(L); }
    HeldFromClaim(L, q.offer, q.me, q.fclaim);
  }

  lemma InvParts(L: Ledger)
    requires Inv(L)
    ensures OffersInv(L) && TimeInv(L)
  {
  }

  lemma HeldFromClaim(L: Ledger, oid: Id, me: Addr, f: Id)
    requires OffersInv(L) && oid in L.market.offers
    requires var o := L.market.offers[oid]; o.status.Open? && o.claimTxid == Some(f) && o.hold.Some? && o.hold.value.holder == me
    ensures f in L.fclaims && HeldThrough(L.market.offers[oid], me, f, L.fclaims[f].expiresEpoch)
  {
    assert ClaimOk(oid, L.market.offers[oid], L.fclaims);
  }

  /** The transaction carries what the plan requires: to the payee exactly, elsewhere at least. */
  predicate Carries(paidTo: map<Addr, nat>, o: Offer, outs: map<Addr, nat>)
    requires o.want.CsdWant?
  {
    Pt(paidTo, o.want.payto) == Pt(outs, o.want.payto) && Dominates(paidTo, outs)
  }

  /** A fill by the holder on its fclaim, carrying the planned outputs. */
  predicate PlannedFill(ev: Event, q: FillQuery, o: Offer)
    requires LaneProven(q) && PaymentSafe(q, o) && o.want.CsdWant? && o.status.Open?
  {
    && ev.Attest? && ev.score == SCORE_FILL && ev.attester == q.me && ev.proposalId == q.fclaim
    && RequiredFillOutputs(o, PlannedPay(q)).Some?
    && Carries(ev.paidTo, o, RequiredFillOutputs(o, PlannedPay(q)).value)
  }

  /** Carrying the outputs sized for a payment is, to the preview, making that payment. */
  lemma CarriedPreview(id: Id, o: Offer, pay: nat, paidTo: map<Addr, nat>)
    requires OfferOk(id, o) && o.want.CsdWant? && o.status.Open? && Previewable(o) && PreviewFill(o, pay).Deliverable()
    requires Carries(paidTo, o, RequiredFillOutputs(o, pay).value)
    ensures PreviewFill(o, Pt(paidTo, o.want.payto)) == PreviewFill(o, pay)
    ensures RequiredFillOutputs(o, Pt(paidTo, o.want.payto)) == RequiredFillOutputs(o, pay)
  {
  }

  /** On a ledger where the offer is held through the fclaim, the holder's planned fill is applied. */
  lemma HeldFillLands(P: Ledger, fill: Event, q: FillQuery, o: Offer, E: nat)
    requires Inv(P) && q.offer in P.market.offers && P.market.offers[q.offer] == o && HeldThrough(o, q.me, q.fclaim, E)
    requires LaneProven(q) && PaymentSafe(q, o) && o.want.CsdWant? && PlannedFill(fill, q, o)
    requires V28_HEIGHT <= fill.height <= FclaimHoldEnd(E)
    ensures DeliveredAs(P, Handle(P, fill), q.offer, q.me, PreviewFill(o, PlannedPay(q)))
  {
    hide LaneProven, Handle, DeliveredAs, PreviewFill, RequiredFillOutputs;
    assert o.(status := Open) == o;
    assert OfferOk(q.offer, o) && ClaimOk(q.offer, o, P.fclaims);
    CarriedPreview(q.offer, o, PlannedPay(q), fill.paidTo);
    FillRoutes(P, fill, q.offer, q.me, q.fclaim, E);
    PreviewIsTheResolver(P, fill, q.offer);
    SoundWhenHeld(o, fill, q.me, q.fclaim, E);
  }

  lemma FillRoutes(P: Ledger, fill: Event, oid: Id, me: Addr, f: Id, E: nat)
    requires OffersInv(P) && IdsApart(P) && oid in P.market.offers && HeldThrough(P.market.offers[oid], me, f, E)
    requires fill.Attest? && fill.score == SCORE_FILL && fill.proposalId == f && V28_HEIGHT <= fill.height
    ensures Routed(P, fill) == Some(oid)
  {
    assert ClaimOk(oid, P.market.offers[oid], P.fclaims);
  }

  lemma SoundWhenHeld(o: Offer, fill: Event, me: Addr, f: Id, E: nat)
    requires HeldThrough(o, me, f, E) && o.taker.None? && o.want.CsdWant? && Previewable(o)
    requires fill.Attest? && fill.attester == me && fill.proposalId == f && V28_HEIGHT <= fill.height <= FclaimHoldEnd(E)
    requires PreviewFill(o, Pt(fill.paidTo, o.want.payto)).Deliverable()
    requires RequiredFillOutputs(o, Pt(fill.paidTo, o.want.payto)).Some?
    requires Dominates(fill.paidTo, RequiredFillOutputs(o, Pt(fill.paidTo, o.want.payto)).value)
    ensures Sound(o, fill)
  {
  }

  /** A safe verdict over a complete history: `later` is whatever anyone anchors after the tip, short of the caller's
      own fill of the offer, and `fill` the caller's fill mined at any height up to the end of the hold. The resolver,
      replaying the whole chain, applies it, and delivers exactly what the preview promised. */
  lemma SafeFillIsApplied(q: FillQuery, past: seq<Event>, later: seq<Event>, fill: Event, o: Offer)
    requires VerdictSafe(q) && Delivered(q.proven) && past == Applied(q.proven) && (forall e :: e in q.proven ==> e.height <= q.tip)
    requires ReplayLiveHold(q.proven, q.offer, q.fclaim, q.me, q.tip).offer == Some(o) && o.want.CsdWant?
    requires Feed(past + (later + [fill]))
    requires PlannedFill(fill, q, o) && q.tip < fill.height <= FclaimHoldEnd(FindPropose(q.proven, q.fclaim).value.expiresEpoch)
    requires forall i :: 0 <= i < |later| ==> later[i].height > q.tip && !OwnFill(later[i], q.me, q.offer, q.fclaim)
    ensures var B := Prepare(Run(past + later), fill.height);
      && Run(past + (later + [fill])) == Handle(B, fill)
      && q.offer in B.market.offers && B.market.offers[q.offer] == o
      && DeliveredAs(B, Run(past + (later + [fill])), q.offer, q.me, PreviewFill(o, PlannedPay(q)))
  {
    hide Prepare, Handle, Inv, VerdictSafe, PaymentSafe, PlannedFill, DeliveredAs, PreviewFill, Applied, ReplayLiveHold, HeldThrough, OwnFill;
    LaneIsHigh(q);
    var E := FindPropose(q.proven, q.fclaim).value.expiresEpoch;
    ViewIsHeld(q, past, o, E);
    HeldUntilFill(past, later, fill, q.tip, q.offer, q.me, q.fclaim, E, o);
    HeldFillLands(Prepare(Run(past + later), fill.height), fill, q, o, E);
  }

  lemma LaneIsHigh(q: FillQuery)
    requires VerdictSafe(q) && forall e :: e in q.proven ==> e.height <= q.tip
    ensures LaneProven(q) && q.tip >= V28_HEIGHT
  {
  }

  /** The offer the fill meets is the one the verdict saw. */
  lemma HeldUntilFill(past: seq<Event>, later: seq<Event>, fill: Event, tip: nat, oid: Id, me: Addr, f: Id, E: nat, o: Offer)
    requires Feed(past + (later + [fill])) && Inv(Run(past)) && Run(past).block <= tip && V28_HEIGHT <= tip < fill.height <= FclaimHoldEnd(E)
    requires oid in Run(past).market.offers && Run(past).market.offers[oid] == o && HeldThrough(o, me, f, E)
    requires forall i :: 0 <= i < |later| ==> !OwnFill(later[i], me, oid, f)
    ensures var B := Prepare(Run(past + later), fill.height);
      && Inv(B) && oid in B.market.offers && B.market.offers[oid] == o
      && Run(past + (later + [fill])) == Handle(B, fill)
  {
    hide Prepare, Handle, Inv, HeldThrough, OwnFill, FclaimHoldEnd;
    var L := Run(past);
    Continues(past, later + [fill]);
    BeforeLast(L, later, fill);
    RunFromAppend(EMPTY, past, later);
    var K := RunFrom(L, later);
    assert forall i :: 0 <= i < |later| ==> later[i].height <= FclaimHoldEnd(E);
    HeldOfferUntouched(L, later, oid, me, f, E);
    PrepareKeepsInv(K, fill.height);
    PrepareSparesHeld(K, fill.height, oid, me, f, E);
  }
}
