/** The buyer's own count of its other holds (packages/cairnx/src/holdcount.ts) and the proof a fill gives that one of
    them is closed (packages/cairnx/src/fillclosed.ts); and that the count never falls below the resolver's. */
module HoldCounting {
  import opened Rules
  import opened Ledgers
  import opened Handlers
  import opened Replay
  import opened Closing
  import opened OfferInvariants
  import opened HeightInvariants
  import opened HoldCap
  import opened HoldSafety
  import opened Provenance
  import opened Preflight
  import opened Runs
  import VerifyFill

  const LAST_LEGACY_CLAIM_END: nat := V28_HEIGHT - 1 + ClaimWindowAt(V28_HEIGHT - 1)
  const LEGACY_HOLD_SUNSET_HEIGHT: nat := LAST_LEGACY_CLAIM_END + ClaimGraceOf(LAST_LEGACY_CLAIM_END, None)

  datatype HoldCount = Counted(count: nat) | TooEarly

  /** An fclaim proposal the buyer may hold, as read from a block; `rec` is its record, if it parses. */
  datatype HoldCandidate = HoldCandidate(id: Id, height: nat, pos: nat, proposer: Addr, rec: Option<Record>, expiresEpoch: nat)

  datatype HoldTarget = HoldTarget(id: Id, height: nat, pos: nat, offer: Id)

  function CandidateOf(ev: Event): HoldCandidate
    requires ev.Propose?
  {
    HoldCandidate(ev.id, ev.height, ev.pos, ev.proposer, ev.rec, ev.expiresEpoch)
  }

  /** Is this candidate counted: the buyer's, not known closed, applied before the target, live at its height, on
      another offer? */
  predicate IsCounted(c: HoldCandidate, t: HoldTarget, me: Addr, closed: set<Id>) {
    && c.id != t.id && c.id !in closed && c.proposer == me
    && (c.height < t.height || (c.height == t.height && c.pos < t.pos))
    && FclaimHoldEnd(c.expiresEpoch) >= t.height
    && c.rec.Some? && c.rec.value.FclaimRec? && c.rec.value.offer != t.offer
  }

  /** The other offers the counted candidates name. */
  function OtherHolds(cs: seq<HoldCandidate>, t: HoldTarget, me: Addr, closed: set<Id>): set<Id> {
    set i | 0 <= i < |cs| && IsCounted(cs[i], t, me, closed) :: cs[i].rec.value.offer
  }

  method CountOtherHoldsAtGrant(candidates: seq<HoldCandidate>, target: HoldTarget, me: Addr, closed: set<Id>)
    returns (r: HoldCount)
    ensures r == if LEGACY_HOLD_SUNSET_HEIGHT <= target.height <= MAX_SAFE_INTEGER
                 then Counted(|OtherHolds(candidates, target, me, closed)|) else TooEarly
  {
    if !(target.height <= MAX_SAFE_INTEGER && target.height >= LEGACY_HOLD_SUNSET_HEIGHT) {
      return TooEarly;
    }
    var offers: set<Id> := {};
    for k := 0 to |candidates|
      invariant offers == OtherHolds(candidates[..k], target, me, closed)
    {
      var c := candidates[k];
      OtherHoldsPush(candidates[..k], c, target, me, closed);
      assert candidates[..k + 1] == candidates[..k] + [c];
      if c.id == target.id || c.id in closed || c.proposer != me { continue; }
      if !(c.height < target.height || (c.height == target.height && c.pos < target.pos)) { continue; }
      if !(FclaimHoldEnd(c.expiresEpoch) >= target.height) { continue; }
      if c.rec.None? || !c.rec.value.FclaimRec? { continue; }
      if c.rec.value.offer != target.offer { offers := offers + {c.rec.value.offer}; }
    }
    assert candidates[..|candidates|] == candidates;
    r := Counted(|offers|);
  }

  lemma OtherHoldsPush(cs: seq<HoldCandidate>, c: HoldCandidate, t: HoldTarget, me: Addr, closed: set<Id>)
    ensures OtherHolds(cs + [c], t, me, closed)
            == OtherHolds(cs, t, me, closed) + (if IsCounted(c, t, me, closed) then {c.rec.value.offer} else {})
  {
    var more := cs + [c];
    forall x | x in OtherHolds(cs, t, me, closed) ensures x in OtherHolds(more, t, me, closed) {
      var i :| 0 <= i < |cs| && IsCounted(cs[i], t, me, closed) && cs[i].rec.value.offer == x;
      assert more[i] == cs[i];
    }
    assert more[|cs|] == c;
  }

  // ----- a closed offer's hold -----

  /** Does `fill` prove that `me`'s own fill closed the offer behind `fclaim` before `grantHeight`? */
  predicate MyProvenFillClosedOffer(fill: Option<Event>, fclaim: Event, offerEv: Option<Event>, me: Addr, grantHeight: nat)
    requires IsFclaim(fclaim)
  {
    && grantHeight >= V29_HEIGHT
    && fill.Some? && fill.value.Attest? && fill.value.score == SCORE_FILL
    && fill.value.attester == me && fill.value.proposalId == fclaim.id
    && fclaim.height < fill.value.height < grantHeight
    && offerEv.Some? && IsOffer(offerEv.value) && offerEv.value.id == fclaim.rec.value.offer
    && offerEv.value.rec.value.want.ValueSpec?
    && var state := NewOffer(offerEv.value, offerEv.value.rec.value);
       Previewable(state) && RequiredFillOutputs(state, state.want.value).Some?
       && Dominates(fill.value.paidTo, RequiredFillOutputs(state, state.want.value).value)
  }

  /** The full payment of an offer's terms, whatever was already paid of it. */
  predicate PaysInFull(o: Offer, paidTo: map<Addr, nat>)
    requires o.want.CsdWant?
  {
    if IsPartial(o) then Pt(paidTo, o.want.payto) >= o.want.value && Pt(paidTo, TREASURY_ADDR) >= FeeAt(o.want.value, o.feeBps)
    else Dominates(paidTo, Needs(o))
  }

  lemma ProvenTermsPayInFull(ev: Event, o: Offer, id: Id, paidTo: map<Addr, nat>)
    requires IsOffer(ev) && Makes(ev, o) && OfferOk(id, o) && o.status.Open? && o.want.CsdWant?
    requires var s := NewOffer(ev, ev.rec.value);
      Previewable(s) && RequiredFillOutputs(s, s.want.value).Some? && Dominates(paidTo, RequiredFillOutputs(s, s.want.value).value)
    ensures PaysInFull(o, paidTo)
  {
    var s := NewOffer(ev, ev.rec.value);
    var outs := RequiredFillOutputs(s, s.want.value).value;
    if IsPartial(o) {
      assert o.want.payto in outs && outs[o.want.payto] == o.want.value;
      var fee := FeeAt(o.want.value, o.feeBps);
      assert fee > 0 ==> TREASURY_ADDR in outs && outs[TREASURY_ADDR] == fee;
    } else {
      assert o.want.value > 0 ==> o.want.payto in outs;
      OutputsAreNeeds(s, paidTo);
    }
  }

  lemma FeeMonotone(a: nat, b: nat, bps: nat)
    requires a <= b
    ensures FeeAt(a, bps) <= FeeAt(b, bps)
  {
    FeeSplit(a, b - a, bps);
  }

  /** The holder's full payment closes the offer it holds. */
  lemma FullPaymentFills(P: Ledger, fill: Event, oid: Id, me: Addr, f: Id, E: nat)
    requires Inv(P) && oid in P.market.offers && HeldThrough(P.market.offers[oid], me, f, E)
    requires fill.Attest? && fill.score == SCORE_FILL && fill.attester == me && fill.proposalId == f
    requires V28_HEIGHT <= fill.height <= FclaimHoldEnd(E)
    requires P.market.offers[oid].want.CsdWant? && PaysInFull(P.market.offers[oid], fill.paidTo)
    ensures oid in Handle(P, fill).market.offers && Handle(P, fill).market.offers[oid].status.Filled?
  {
    hide Handle, Inv;
    var o := P.market.offers[oid];
    assert OffersInv(P) && IdsApart(P) by { PartsOfInv(P); }
    assert OfferOk(oid, o);
    VerifyFill.FillRoutes(P, fill, oid, me, f, E);
    NotBarredWhenHeld(o, fill, me, f, E);
    if IsPartial(o) {
      FeeMonotone(o.want.value - o.paid, o.want.value, o.feeBps);
      RemainderCompletes(P, fill, oid);
    } else {
      WholeFillCompletes(P, fill, oid);
    }
  }

  lemma PartsOfInv(L: Ledger)
    requires Inv(L)
    ensures OffersInv(L) && IdsApart(L) && IndexInv(L)
  {
  }

  lemma NotBarredWhenHeld(o: Offer, fill: Event, me: Addr, f: Id, E: nat)
    requires HeldThrough(o, me, f, E) && o.taker.None?
    requires fill.Attest? && fill.attester == me && V28_HEIGHT <= fill.height <= FclaimHoldEnd(E) && fill.proposalId == f
    requires f != o.id
    ensures !FillBarred(o, fill)
  {
  }

  lemma WholeFillCompletes(P: Ledger, fill: Event, oid: Id)
    requires Inv(P) && fill.Attest? && fill.score == SCORE_FILL && Routed(P, fill) == Some(oid)
    requires var o := P.market.offers[oid]; o.want.CsdWant? && !IsPartial(o) && !FillBarred(o, fill) && Dominates(fill.paidTo, Needs(o))
    ensures oid in Handle(P, fill).market.offers && Handle(P, fill).market.offers[oid].status.Filled?
  {
    hide Handle, ApplyFill, DeliveredAs, PreviewFill;
    var o := P.market.offers[oid];
    OpenWhenNotBarred(o, fill);
    OpenOffersReady(P, oid);
    WholeSoundness(P, fill, oid);
    PreviewIsTheResolver(P, fill, oid);
    DeliveredIsFilled(P, Handle(P, fill), oid, fill.attester, PreviewFill(o, Pt(fill.paidTo, o.want.payto)));
  }

  lemma DeliveredIsFilled(L: Ledger, M: Ledger, oid: Id, who: Addr, p: FillPreview)
    requires oid in L.market.offers && L.market.offers[oid].want.CsdWant? && !IsPartial(L.market.offers[oid])
    requires DeliveredAs(L, M, oid, who, p)
    ensures oid in M.market.offers && M.market.offers[oid].status.Filled?
  {
  }

  /** The ledgers on both sides of an earlier fill, when the offer is still routed and held at `height`. */
  lemma RoutedBack(a: seq<Event>, fill: Event, b: seq<Event>, fclaim: Event, me: Addr, height: nat)
    requires Feed(a + ([fill] + b)) && fclaim in a + ([fill] + b) && IsFclaim(fclaim)
    requires fclaim.height < fill.height && Run(a + ([fill] + b)).block <= height
    requires var P := Prepare(Run(a + ([fill] + b)), height); var oid := fclaim.rec.value.offer;
      RoutesTo(P, oid, fclaim.id) && HeldBy(P.market.offers[oid], me, height)
    ensures fclaim in a && fclaim.proposer == me && height <= FclaimHoldEnd(fclaim.expiresEpoch)
    ensures Inv(Run(a)) && Next(Run(a), fill) && RoutesTo(Run(a), fclaim.rec.value.offer, fclaim.id)
    ensures RoutesTo(Step(Run(a), fill), fclaim.rec.value.offer, fclaim.id)
  {
    hide Prepare, Inv, Step, Before, RunFrom;
    var past, oid, f := a + ([fill] + b), fclaim.rec.value.offer, fclaim.id;
    var upTo := a + [fill];
    assert past == upTo + b && past + [] == past;
    InThePast(a, fill, b, fclaim);
    Continues(past, []);
    HolderFromView(past, fclaim, me, height);
    FeedParts(upTo, b);
    Continues(upTo, b);
    RunRoutes(Run(upTo), b, oid, f);
    LastStep(a, fill);
    StepRoutes(Run(a), fill, oid, f);
  }

  lemma InThePast(a: seq<Event>, fill: Event, b: seq<Event>, fclaim: Event)
    requires Feed(a + ([fill] + b)) && fclaim in a + ([fill] + b) && fclaim.height < fill.height
    ensures fclaim in a && fclaim.id !in Ids(b) && fclaim.id != fill.id
  {
    assert a + ([fill] + b) == (a + [fill]) + b;
    FeedParts(a, [fill] + b);
    FeedParts(a + [fill], b);
    assert fill in a + [fill] && ([fill] + b)[0] == fill;
    forall x | x in b ensures x.height >= fill.height { NotEarlier(fill, x); }
    assert fclaim in a;
    var i :| 0 <= i < |a| && a[i] == fclaim;
    assert (a + [fill])[i].id == fclaim.id && fclaim.id in Ids(a + [fill]) && fclaim.id in Ids(a);
    assert fill.id in Ids([fill] + b);
  }

  lemma HolderFromView(past: seq<Event>, fclaim: Event, me: Addr, height: nat)
    requires Feed(past) && Inv(Run(past)) && fclaim in past && IsFclaim(fclaim) && Run(past).block <= height
    requires var P := Prepare(Run(past), height); var oid := fclaim.rec.value.offer;
      RoutesTo(P, oid, fclaim.id) && HeldBy(P.market.offers[oid], me, height)
    ensures RoutesTo(Run(past), fclaim.rec.value.offer, fclaim.id)
    ensures fclaim.proposer == me && height <= FclaimHoldEnd(fclaim.expiresEpoch)
  {
    hide Prepare, Run;
    var oid := fclaim.rec.value.offer;
    PrepareWinds(Run(past), height);
    VerifyFill.HeldFromClaim(Run(past), oid, me, fclaim.id);
    FclaimIs(past, fclaim);
  }

  /** At the fill the offer was held, so the fill closed it. */
  lemma FilledThere(a: seq<Event>, fill: Event, b: seq<Event>, fclaim: Event, offerEv: Event, me: Addr, height: nat)
    requires Feed(a + ([fill] + b)) && fclaim in a && offerEv in a + ([fill] + b) && IsFclaim(fclaim) && fclaim.proposer == me
    requires MyProvenFillClosedOffer(Some(fill), fclaim, Some(offerEv), me, height) && height <= FclaimHoldEnd(fclaim.expiresEpoch)
    requires Inv(Run(a)) && Next(Run(a), fill) && RoutesTo(Run(a), fclaim.rec.value.offer, fclaim.id)
    ensures !RoutesTo(Step(Run(a), fill), fclaim.rec.value.offer, fclaim.id)
  {
    hide Prepare, Inv, Handle, Run, PaysInFull, MyProvenFillClosedOffer;
    var L, oid, f, E := Run(a), fclaim.rec.value.offer, fclaim.id, fclaim.expiresEpoch;
    FeedParts(a, [fill] + b);
    HeldThere(a, fclaim);
    ClosingFill(fill, fclaim, offerEv, me, height);
    var o := L.market.offers[oid];
    OfferIs(a, [fill] + b, offerEv);
    PartsOfInv(L);
    ClosingPayment(L, fill, fclaim, offerEv, me, height);
    LateEnough(a, fclaim, fill);
    PrepareKeepsInv(L, fill.height);
    PrepareSparesHeld(L, fill.height, oid, me, f, E);
    FullPaymentFills(Prepare(L, fill.height), fill, oid, me, f, E);
  }

  lemma LateEnough(a: seq<Event>, fclaim: Event, fill: Event)
    requires Feed(a) && fclaim in a && IsFclaim(fclaim) && fclaim.height < fill.height && fclaim.id in Run(a).fclaims
    ensures fill.height >= V28_HEIGHT && fill.height >= ACTIVATION_HEIGHT
  {
    hide Run;
    FclaimIs(a, fclaim);
  }

  lemma HeldThere(a: seq<Event>, fclaim: Event)
    requires Feed(a) && Inv(Run(a)) && fclaim in a && IsFclaim(fclaim) && RoutesTo(Run(a), fclaim.rec.value.offer, fclaim.id)
    ensures fclaim.id in Run(a).fclaims
    ensures HeldThrough(Run(a).market.offers[fclaim.rec.value.offer], fclaim.proposer, fclaim.id, fclaim.expiresEpoch)
  {
    hide Run;
    var oid := fclaim.rec.value.offer;
    assert ClaimOk(oid, Run(a).market.offers[oid], Run(a).fclaims);
    FclaimIs(a, fclaim);
  }

  lemma ClosingFill(fill: Event, fclaim: Event, offerEv: Event, me: Addr, height: nat)
    requires IsFclaim(fclaim) && MyProvenFillClosedOffer(Some(fill), fclaim, Some(offerEv), me, height)
    ensures fill.Attest? && fill.score == SCORE_FILL && fill.attester == me && fill.proposalId == fclaim.id
    ensures fclaim.height < fill.height < height && height >= V29_HEIGHT
    ensures IsOffer(offerEv) && offerEv.id == fclaim.rec.value.offer
  {
  }

  lemma ClosingPayment(L: Ledger, fill: Event, fclaim: Event, offerEv: Event, me: Addr, height: nat)
    requires OffersInv(L) && IsFclaim(fclaim) && RoutesTo(L, fclaim.rec.value.offer, fclaim.id)
    requires MyProvenFillClosedOffer(Some(fill), fclaim, Some(offerEv), me, height)
    requires Makes(offerEv, L.market.offers[fclaim.rec.value.offer])
    ensures var o := L.market.offers[fclaim.rec.value.offer]; o.want.CsdWant? && PaysInFull(o, fill.paidTo)
  {
    hide PaysInFull;
    var oid := fclaim.rec.value.offer;
    assert OfferOk(oid, L.market.offers[oid]);
    ProvenTermsPayInFull(offerEv, L.market.offers[oid], oid, fill.paidTo);
  }

  /** A fill that the predicate accepts really closed the offer: no later ledger of the chain counts that hold. */
  lemma ClosedIsClosed(past: seq<Event>, fclaim: Event, fill: Event, offerEv: Event, me: Addr, height: nat)
    requires Feed(past) && fclaim in past && fill in past && offerEv in past && IsFclaim(fclaim)
    requires MyProvenFillClosedOffer(Some(fill), fclaim, Some(offerEv), me, height)
    requires Run(past).block <= height
    ensures var P := Prepare(Run(past), height); var oid := fclaim.rec.value.offer;
      !(RoutesTo(P, oid, fclaim.id) && HeldBy(P.market.offers[oid], me, height))
  {
    hide Prepare, Inv, Step, Before, RoutesTo, MyProvenFillClosedOffer, HeldBy;
    var P, oid, f := Prepare(Run(past), height), fclaim.rec.value.offer, fclaim.id;
    RoutesIn(P, oid, f);
    if RoutesTo(P, oid, f) && HeldBy(P.market.offers[oid], me, height) {
      var k :| 0 <= k < |past| && past[k] == fill;
      var a, b := past[..k], past[k + 1..];
      assert past == a + ([fill] + b);
      ClosingFill(fill, fclaim, offerEv, me, height);
      RoutedBack(a, fill, b, fclaim, me, height);
      FilledThere(a, fill, b, fclaim, offerEv, me, height);
      assert false;
    }
  }

  lemma RoutesIn(L: Ledger, oid: Id, f: Id)
    ensures RoutesTo(L, oid, f) ==> oid in L.market.offers
  {
  }

  // ----- the count is never below the resolver's -----

  /** The buyer hands over every fclaim it anchored in `past`. */
  ghost predicate AllMine(cs: seq<HoldCandidate>, past: seq<Event>, me: Addr) {
    forall e :: e in past && IsFclaim(e) && e.proposer == me ==> CandidateOf(e) in cs
  }

  /** Every id in `closed` is that of an fclaim whose offer a fill of the chain closed. */
  ghost predicate ClosedProven(closed: set<Id>, past: seq<Event>, me: Addr, height: nat) {
    forall e :: e in past && IsFclaim(e) && e.id in closed ==>
      exists fill, offerEv :: fill in past && offerEv in past && MyProvenFillClosedOffer(Some(fill), e, Some(offerEv), me, height)
  }

  /** Two proposals of one block have different positions. */
  ghost predicate PositionsApart(past: seq<Event>, t: Event) {
    forall e :: e in past && e.Propose? && e.height == t.height ==> e.pos != t.pos
  }

  function TargetOf(t: Event): HoldTarget
    requires IsFclaim(t)
  {
    HoldTarget(t.id, t.height, t.pos, t.rec.value.offer)
  }

  /** From the sunset on every live hold is an fclaim's. */
  lemma LiveHoldHasFclaim(L: Ledger, oid: Id, me: Addr, height: nat)
    requires OffersInv(L) && height >= LEGACY_HOLD_SUNSET_HEIGHT
    requires oid in L.market.offers && HeldBy(L.market.offers[oid], me, height)
    ensures var o := L.market.offers[oid];
      o.claimTxid.Some? && o.claimTxid.value in L.fclaims
      && var f := L.fclaims[o.claimTxid.value];
      f.proposer == me && f.offer == oid && height <= FclaimHoldEnd(f.expiresEpoch)
  {
    assert ClaimOk(oid, L.market.offers[oid], L.fclaims);
  }

  /** One hold the resolver counts, and the candidate that accounts for it. */
  lemma HoldIsCounted(past: seq<Event>, t: Event, cs: seq<HoldCandidate>, closed: set<Id>, oid: Id)
    requires Feed(past + [t]) && IsFclaim(t) && t.height >= LEGACY_HOLD_SUNSET_HEIGHT
    requires AllMine(cs, past, t.proposer) && ClosedProven(closed, past, t.proposer, t.height) && PositionsApart(past, t)
    requires oid in LiveHolds(Prepare(Run(past), t.height).market.offers, t.proposer, t.height) && oid != t.rec.value.offer
    ensures oid in OtherHolds(cs, TargetOf(t), t.proposer, closed)
  {
    hide Prepare, Inv, Run, Before, MyProvenFillClosedOffer, AllMine, IsCounted;
    var me, P := t.proposer, Prepare(Run(past), t.height);
    LastStep(past, t);
    assert Run(past).block <= t.height by { NextHeight(Run(past), t); }
    PrepareKeepsInv(Run(past), t.height);
    PartsOfInv(Run(past));
    PrepareWinds(Run(past), t.height);
    PartsOfInv(P);
    LiveHoldHasFclaim(P, oid, me, t.height);
    var f := P.market.offers[oid].claimTxid.value;
    WholeRunFromEvents(past);
    assert FclaimFrom(past, f, Run(past).fclaims[f]);
    var i :| 0 <= i < |past| && RecordsFclaim(past[i], f, Run(past).fclaims[f]);
    var e := past[i];
    NotClosed(past, e, closed, me, t.height);
    MineIsCounted(past, t, cs, closed, e);
  }

  lemma NotClosed(past: seq<Event>, e: Event, closed: set<Id>, me: Addr, height: nat)
    requires Feed(past) && e in past && IsFclaim(e) && ClosedProven(closed, past, me, height) && Run(past).block <= height
    requires var P := Prepare(Run(past), height); var oid := e.rec.value.offer;
      oid in P.market.offers && P.market.offers[oid].claimTxid == Some(e.id) && HeldBy(P.market.offers[oid], me, height)
      && (height < V29_HEIGHT || P.market.offers[oid].status.Open?)
    ensures e.id !in closed
  {
    hide Prepare, Run, MyProvenFillClosedOffer;
    if e.id in closed {
      var fill, offerEv :| fill in past && offerEv in past && MyProvenFillClosedOffer(Some(fill), e, Some(offerEv), me, height);
      ClosingFill(fill, e, offerEv, me, height);
      ClosedIsClosed(past, e, fill, offerEv, me, height);
    }
  }

  lemma MineIsCounted(past: seq<Event>, t: Event, cs: seq<HoldCandidate>, closed: set<Id>, e: Event)
    requires Feed(past + [t]) && IsFclaim(t) && e in past && IsFclaim(e) && e.proposer == t.proposer && e.id !in closed
    requires AllMine(cs, past, t.proposer) && PositionsApart(past, t)
    requires t.height <= FclaimHoldEnd(e.expiresEpoch) && e.rec.value.offer != t.rec.value.offer
    ensures e.rec.value.offer in OtherHolds(cs, TargetOf(t), t.proposer, closed)
  {
    FeedParts(past, [t]);
    assert t in [t] && Before(e, t);
    var i :| 0 <= i < |past| && past[i] == e;
    assert (past + [t])[i].id != (past + [t])[|past|].id;
    var k :| 0 <= k < |cs| && cs[k] == CandidateOf(e);
    assert IsCounted(cs[k], TargetOf(t), t.proposer, closed);
  }

  /** The buyer's count is never below the resolver's: every hold the resolver counts against the cap when it applies
      the fclaim `t`, other than one on the reserved offer itself, is among the holds the buyer counted. */
  lemma CountNeverUnder(past: seq<Event>, t: Event, cs: seq<HoldCandidate>, closed: set<Id>)
    requires Feed(past + [t]) && IsFclaim(t) && t.height >= LEGACY_HOLD_SUNSET_HEIGHT
    requires AllMine(cs, past, t.proposer) && ClosedProven(closed, past, t.proposer, t.height) && PositionsApart(past, t)
    ensures LiveHolds(Prepare(Run(past), t.height).market.offers, t.proposer, t.height) - {t.rec.value.offer}
            <= OtherHolds(cs, TargetOf(t), t.proposer, closed)
  {
    hide Prepare, Run, LiveHolds, OtherHolds;
    forall oid | oid in LiveHolds(Prepare(Run(past), t.height).market.offers, t.proposer, t.height) - {t.rec.value.offer}
      ensures oid in OtherHolds(cs, TargetOf(t), t.proposer, closed)
    {
      HoldIsCounted(past, t, cs, closed, oid);
    }
  }

  /** So a cap denial always shows: if the count stays below the cap, then so does the resolver's on an offer that
      nobody holds. */
  lemma CapDenialShows(past: seq<Event>, t: Event, cs: seq<HoldCandidate>, closed: set<Id>)
    requires Feed(past + [t]) && IsFclaim(t) && t.height >= LEGACY_HOLD_SUNSET_HEIGHT
    requires AllMine(cs, past, t.proposer) && ClosedProven(closed, past, t.proposer, t.height) && PositionsApart(past, t)
    requires var P := Prepare(Run(past), t.height); var oid := t.rec.value.offer;
      oid in P.market.offers ==> !ClaimHeld(P.market.offers[oid], t.height)
    ensures LiveHoldCount(Prepare(Run(past), t.height), t.proposer, t.height)
            <= |OtherHolds(cs, TargetOf(t), t.proposer, closed)|
  {
    hide Prepare, Run, OtherHolds;
    CountNeverUnder(past, t, cs, closed);
    var live := LiveHolds(Prepare(Run(past), t.height).market.offers, t.proposer, t.height);
    assert live - {t.rec.value.offer} == live;
    SubsetSize(live, OtherHolds(cs, TargetOf(t), t.proposer, closed));
  }

  // ----- and exactly the resolver's, where nothing was denied or left unproven -----

  /** The candidates the buyer may hold were anchored on the chain, and of those that still bear on the target none was
      denied, and one filled since is proven closed. */
  ghost predicate NothingHidden(cs: seq<HoldCandidate>, past: seq<Event>, t: Event, closed: set<Id>)
    requires IsFclaim(t)
  {
    && (forall c :: c in cs && c.proposer == t.proposer && c.rec.Some? && c.rec.value.FclaimRec? ==>
          exists e :: e in past + [t] && e.Propose? && CandidateOf(e) == c)
    && (forall e :: e in past && IsFclaim(e) && e.proposer == t.proposer && e.id !in closed
                    && t.height <= FclaimHoldEnd(e.expiresEpoch) && e.rec.value.offer != t.rec.value.offer ==>
          e.id in Run(past).fclaims && Run(past).fclaims[e.id].granted
          && forall a :: a in past ==> !OwnFill(a, t.proposer, e.rec.value.offer, e.id))
  }

  /** A record of an fclaim is what its own event made it. */
  lemma {:induction false} RecordStays(L: Ledger, evs: seq<Event>, f: Id)
    requires Inv(L) && Follows(L, evs) && f !in Ids(evs)
    ensures f in RunFrom(L, evs).fclaims <==> f in L.fclaims
    ensures f in L.fclaims ==> RunFrom(L, evs).fclaims[f] == L.fclaims[f]
  {
    hide Step, Inv;
    if evs != [] {
      var rest, ev := evs[..|evs| - 1], evs[|evs| - 1];
      RestFollows(L, evs);
      RunKeepsInv(L, rest);
      LastNext(L, RunFrom(L, rest), evs);
      assert ev.id in Ids(evs);
      RecordStays(L, rest, f);
      StepRecord(RunFrom(L, rest), ev, f);
    }
  }

  lemma StepRecord(L: Ledger, ev: Event, f: Id)
    requires Inv(L) && Next(L, ev) && ev.id != f
    ensures f in Step(L, ev).fclaims <==> f in L.fclaims
    ensures f in L.fclaims ==> Step(L, ev).fclaims[f] == L.fclaims[f]
  {
    hide Prepare, Handle, Inv;
    if ev.height >= ACTIVATION_HEIGHT {
      PartsOfInv(L);
      PrepareWinds(L, ev.height);
      Moves.HandleQueue(Prepare(L, ev.height), ev);
    }
  }

  /** A granted fclaim that nobody filled is a hold the ledger counts. */
  lemma GrantedIsHeld(past: seq<Event>, e: Event, height: nat)
    requires Feed(past) && e in past && IsFclaim(e) && e.id in Run(past).fclaims && Run(past).fclaims[e.id].granted
    requires Run(past).block <= height <= FclaimHoldEnd(e.expiresEpoch) && forall a :: a in past ==> a.height <= height
    requires forall a :: a in past ==> !OwnFill(a, e.proposer, e.rec.value.offer, e.id)
    ensures e.rec.value.offer in LiveHolds(Prepare(Run(past), height).market.offers, e.proposer, height)
  {
    hide Step, Inv, RunFrom, Prepare, OwnFill, FclaimHoldEnd, HeldThrough;
    var k :| 0 <= k < |past| && past[k] == e;
    var a, b := past[..k], past[k + 1..];
    assert past == (a + [e]) + b && forall i :: 0 <= i < |b| ==> b[i] in past;
    FeedParts(a + [e], b);
    Continues(a + [e], b);
    LastStep(a, e);
    assert e.id !in Ids(b) by { assert e in a + [e] && (a + [e])[|a|].id in Ids(a + [e]); }
    RecordStays(Run(a + [e]), b, e.id);
    GrantHolds(Run(a), e);
    HeldOfferUntouched(Run(a + [e]), b, e.rec.value.offer, e.proposer, e.id, e.expiresEpoch);
    RunKeepsInv(Run(a + [e]), b);
    PrepareSparesHeld(Run(past), height, e.rec.value.offer, e.proposer, e.id, e.expiresEpoch);
    HeldCounts(Prepare(Run(past), height).market.offers, e.rec.value.offer, e.proposer, e.id, e.expiresEpoch, height);
  }

  lemma HeldCounts(offers: map<Id, Offer>, oid: Id, who: Addr, f: Id, E: nat, height: nat)
    requires oid in offers && HeldThrough(offers[oid], who, f, E) && height <= FclaimHoldEnd(E)
    ensures oid in LiveHolds(offers, who, height)
  {
  }

  /** Then the count is exact: the other offers counted are those the resolver holds against the cap at the grant. */
  lemma CountExact(past: seq<Event>, t: Event, cs: seq<HoldCandidate>, closed: set<Id>)
    requires Feed(past + [t]) && IsFclaim(t) && t.height >= LEGACY_HOLD_SUNSET_HEIGHT
    requires AllMine(cs, past, t.proposer) && ClosedProven(closed, past, t.proposer, t.height) && PositionsApart(past, t)
    requires NothingHidden(cs, past, t, closed)
    ensures OtherHolds(cs, TargetOf(t), t.proposer, closed)
            == LiveHolds(Prepare(Run(past), t.height).market.offers, t.proposer, t.height) - {t.rec.value.offer}
  {
    hide Prepare, Run, LiveHolds, AllMine, ClosedProven, Inv, OwnFill, FclaimHoldEnd;
    CountNeverUnder(past, t, cs, closed);
    LastStep(past, t);
    NextHeight(Run(past), t);
    FeedParts(past, [t]);
    forall oid | oid in OtherHolds(cs, TargetOf(t), t.proposer, closed)
      ensures oid in LiveHolds(Prepare(Run(past), t.height).market.offers, t.proposer, t.height) && oid != t.rec.value.offer
    {
      var i :| 0 <= i < |cs| && IsCounted(cs[i], TargetOf(t), t.proposer, closed) && cs[i].rec.value.offer == oid;
      var e :| e in past + [t] && e.Propose? && CandidateOf(e) == cs[i];
      assert e in past;
      forall a | a in past ensures a.height <= t.height { assert t in [t]; NotEarlier(a, t); }
      GrantedIsHeld(past, e, t.height);
    }
  }
}
