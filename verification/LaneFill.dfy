/** A safe verdict over one offer's lane (packages/cairnx/src/verifyfill.ts:51-89 and 204-332): with the buyer's own hold
    count standing in for the cap, the client that replays only the lane is as safe as one that replays the whole chain. */
module LaneFill {
  import opened Rules
  import opened Ledgers
  import opened Handlers
  import opened Replay
  import opened Ordering
  import opened OfferInvariants
  import opened HoldCap
  import opened HoldSafety
  import opened Provenance
  import opened Preflight
  import opened Runs
  import opened VerifyFill
  import opened HoldCounting
  import opened Lanes

  function OfferEvent(q: FillQuery): Event requires LaneProven(q) { FindPropose(q.proven, q.offer).value }

  function FclaimEvent(q: FillQuery): Event requires LaneProven(q) { FindPropose(q.proven, q.fclaim).value }

  /** What a client that reads blocks completely hands over: the whole lane of the offer in the chain `past`, and nothing
      but backing of its give besides. */
  ghost predicate ProvesLane(q: FillQuery, past: seq<Event>)
    requires LaneProven(q)
  {
    && (forall e :: e in q.proven ==> e in past && (Bears(e, OfferEvent(q), LaneFclaims(past, q.offer)) || Backing(e)))
    && (forall e :: e in past && Bears(e, OfferEvent(q), LaneFclaims(past, q.offer)) ==> e in q.proven)
  }

  /** The ids of a list of proven events. */
  function IdsOf(evs: seq<Event>): set<Id> { set e | e in evs :: e.id }

  lemma SameIdInFeed(past: seq<Event>, e: Event, f: Event)
    requires Feed(past) && e in past && f in past && e.id == f.id
    ensures e == f
  {
    var i :| 0 <= i < |past| && past[i] == e;
    var j :| 0 <= j < |past| && past[j] == f;
    assert i == j;
  }

  /** Replaying what was proven is replaying the kept part of the chain. */
  lemma ProvenIsKept(proven: seq<Event>, past: seq<Event>)
    requires Feed(past) && Delivered(proven) && forall e :: e in proven ==> e in past
    ensures Applied(proven) == Kept(past, IdsOf(proven)) && Feed(Kept(past, IdsOf(proven)))
  {
    hide Feed, Delivered, Applied, Resolve;
    var k := Kept(past, IdsOf(proven));
    KeptIs(past, IdsOf(proven));
    forall e ensures e in proven <==> e in k {
      if e in k {
        var f :| f in proven && f.id == e.id;
        SameIdInFeed(past, e, f);
      }
    }
    FeedIsApplied(k);
    DeliveryDoesNotMatter(proven, k, 0);
  }

  lemma ProvesIsLane(q: FillQuery, past: seq<Event>)
    requires LaneProven(q) && Feed(past) && ProvesLane(q, past)
    ensures IsLane(past, IdsOf(q.proven), OfferEvent(q), LaneFclaims(past, q.offer))
  {
    hide Feed, Bears, Backing, LaneProven;
    var offer, fclaims := OfferEvent(q), LaneFclaims(past, q.offer);
    OfferEventIs(q);
    forall e | e in past
      ensures EventFits(e, offer.id, fclaims) && (e.Propose? && e.id == offer.id ==> e == offer)
      ensures e.id in IdsOf(q.proven) ==> Bears(e, offer, fclaims) || Backing(e)
    {
      FitsLane(past, e, q.offer);
      if e.id == offer.id { SameIdInFeed(past, e, offer); }
      if e.id in IdsOf(q.proven) {
        var f :| f in q.proven && f.id == e.id;
        SameIdInFeed(past, e, f);
      }
    }
  }

  lemma OfferEventIs(q: FillQuery)
    requires LaneProven(q)
    ensures IsOffer(OfferEvent(q)) && OfferEvent(q).id == q.offer && OfferEvent(q) in q.proven && OfferEvent(q).rec.value.want.ValueSpec?
    ensures IsFclaim(FclaimEvent(q)) && FclaimEvent(q).id == q.fclaim && FclaimEvent(q) in q.proven
    ensures FclaimEvent(q).rec.value.offer == q.offer
  {
  }

  lemma FitsLane(past: seq<Event>, e: Event, oid: Id)
    requires Feed(past) && e in past
    ensures EventFits(e, oid, LaneFclaims(past, oid))
  {
    var fclaims := LaneFclaims(past, oid);
    if e.Propose? {
      var k :| 0 <= k < |past| && past[k] == e;
      if e.id in fclaims {
        var i :| 0 <= i < |past| && IsFclaim(past[i]) && past[i].rec.value.offer == oid && past[i].id == e.id;
        assert i == k;
      }
      if IsFclaim(e) && e.rec.value.offer == oid { assert past[k].id in fclaims; }
    }
  }

  /** The buyer's count of its other holds at the grant is the one countOtherHoldsAtGrant returns over all its fclaims. */
  ghost predicate CountsMine(q: FillQuery, before: seq<Event>, cs: seq<HoldCandidate>, closed: set<Id>)
    requires LaneProven(q)
  {
    var t := FclaimEvent(q);
    && t.height >= LEGACY_HOLD_SUNSET_HEIGHT
    && q.myLiveHoldsAtGrant == |OtherHolds(cs, TargetOf(t), q.me, closed)|
    && AllMine(cs, before, q.me) && ClosedProven(closed, before, q.me, t.height) && PositionsApart(before, t)
  }

  /** No claim on the offer other than `t` was refused by the cap alone. */
  ghost predicate OthersUncapped(past: seq<Event>, t: Event, oid: Id) {
    forall n :: 0 <= n < |past| && past[n] != t ==> !CapRefused(Prepare(Run(past[..n]), past[n].height), past[n], oid)
  }

  /** A count below the cap means that the cap did not refuse the fclaim. */
  lemma CountMeansRoom(before: seq<Event>, t: Event, cs: seq<HoldCandidate>, closed: set<Id>)
    requires Feed(before + [t]) && IsFclaim(t) && t.height >= LEGACY_HOLD_SUNSET_HEIGHT
    requires AllMine(cs, before, t.proposer) && ClosedProven(closed, before, t.proposer, t.height) && PositionsApart(before, t)
    requires |OtherHolds(cs, TargetOf(t), t.proposer, closed)| < MAX_ACTIVE_CLAIMS
    ensures !CapRefused(Prepare(Run(before), t.height), t, t.rec.value.offer)
  {
    hide Prepare, Run, OtherHolds, AllMine, ClosedProven, PositionsApart, Feed;
    var P, oid := Prepare(Run(before), t.height), t.rec.value.offer;
    if oid in P.market.offers && Contends(P.market.offers[oid], t, RoutesHere(P, t, oid)) {
      CapDenialShows(before, t, cs, closed);
    }
  }

  /** The holder of the replayed hold is the fclaim's proposer. */
  lemma HolderIsProposer(q: FillQuery, o: Offer)
    requires VerdictSafe(q) && Delivered(q.proven) && Inv(Run(Applied(q.proven)))
    requires q.offer in Run(Applied(q.proven)).market.offers && Run(Applied(q.proven)).market.offers[q.offer] == o
    requires HeldThrough(o, q.me, q.fclaim, FclaimEvent(q).expiresEpoch)
    ensures q.me == FclaimEvent(q).proposer
  {
    hide Applied, Run, Delivered;
    var K := Run(Applied(q.proven));
    assert ClaimOk(q.offer, o, K.fclaims) by { PartsOf(K); }
    GrantRecorded(q.proven, q.fclaim);
  }

  /** An offer still held past V28 is from after the sale embargo. */
  lemma HeldIsLate(q: FillQuery, o: Offer)
    requires VerdictSafe(q) && (forall e :: e in q.proven ==> e.height <= q.tip)
    requires HeldThrough(o, q.me, q.fclaim, FclaimEvent(q).expiresEpoch)
    ensures o.height >= V13_HEIGHT
  {
    assert FclaimEvent(q) in q.proven && FclaimEvent(q).height >= V28_HEIGHT;
  }

  lemma NoneCappedHere(before: seq<Event>, t: Event, after: seq<Event>, oid: Id)
    requires var past := before + ([t] + after); Feed(past) && OthersUncapped(past, t, oid)
    requires !CapRefused(Prepare(Run(before), t.height), t, oid)
    ensures NoneCapped(before + ([t] + after), oid)
  {
    hide CapRefused, Prepare, Run;
    var past := before + ([t] + after);
    assert past[|before|] == t && past[..|before|] == before;
    forall n | 0 <= n < |past| ensures !CapRefused(Prepare(Run(past[..n]), past[n].height), past[n], oid) {
      if past[n] == t { assert n == |before|; }
    }
  }

  /** What a safe verdict over the lane says of the whole chain: the fclaim is granted there too, and holds the offer, in
      the state the verdict saw. `before` and `after` are the chain around the fclaim. */
  lemma LaneViewIsHeld(q: FillQuery, before: seq<Event>, after: seq<Event>, cs: seq<HoldCandidate>, closed: set<Id>, o: Offer)
    requires VerdictSafe(q) && Delivered(q.proven)
    requires var past := before + ([FclaimEvent(q)] + after);
      && Feed(past) && (forall e :: e in past ==> e.height <= q.tip) && ProvesLane(q, past)
      && q.offer in Run(past).market.offers && OthersUncapped(past, FclaimEvent(q), q.offer)
    requires CountsMine(q, before, cs, closed)
    requires ReplayLiveHold(q.proven, q.offer, q.fclaim, q.me, q.tip).offer == Some(o)
    ensures var C := Run(before + ([FclaimEvent(q)] + after));
      && Inv(C) && C.block <= q.tip && q.offer in C.market.offers && C.market.offers[q.offer] == o
      && HeldThrough(o, q.me, q.fclaim, FclaimEvent(q).expiresEpoch) && PaymentSafe(q, o)
  {
    hide Step, RunFrom, Inv, Feed, Delivered, Applied, VerdictSafe, PaymentSafe, ReplayLiveHold, ProvesLane, OthersUncapped, HeldThrough,
      AllMine, ClosedProven, PositionsApart, OtherHolds, LaneProven, NoneCapped, CapRefused, IsLane;
    SafeParts(q);
    OfferEventIs(q);
    var t, E := FclaimEvent(q), FclaimEvent(q).expiresEpoch;
    var past := before + ([t] + after);
    ProvenInPast(q, past);
    ViewIsHeld(q, Applied(q.proven), o, E);
    HolderIsProposer(q, o);
    HeldIsLate(q, o);
    BeforeIsFeed(before, t, after);
    CountMeansRoom(before, t, cs, closed);
    NoneCappedHere(before, t, after, q.offer);
    ProvesIsLane(q, past);
    ProvenIsKept(q.proven, past);
    assert o.status.Open? by { HeldIsOpen(o, q.me, q.fclaim, E); }
    SameInBoth(q, past, o);
  }

  lemma HeldIsOpen(o: Offer, who: Addr, f: Id, E: nat)
    requires HeldThrough(o, who, f, E)
    ensures o.status.Open?
  {
  }

  lemma SafeParts(q: FillQuery)
    requires VerdictSafe(q)
    ensures LaneProven(q) && q.myLiveHoldsAtGrant < MAX_ACTIVE_CLAIMS
  {
  }

  lemma ProvenInPast(q: FillQuery, past: seq<Event>)
    requires LaneProven(q) && ProvesLane(q, past) && forall e :: e in past ==> e.height <= q.tip
    ensures (forall e :: e in q.proven ==> e in past && e.height <= q.tip)
  {
  }

  lemma BeforeIsFeed(before: seq<Event>, t: Event, after: seq<Event>)
    requires Feed(before + ([t] + after))
    ensures Feed(before + [t])
  {
    hide Before, EventOk;
    assert before + ([t] + after) == (before + [t]) + after;
    FeedParts(before + [t], after);
  }

  /** The offer the lane's replay serves is the one the chain's ledger holds. */
  lemma SameInBoth(q: FillQuery, past: seq<Event>, o: Offer)
    requires LaneProven(q) && Feed(past) && (forall e :: e in past ==> e.height <= q.tip) && q.offer in Run(past).market.offers
    requires IsOffer(OfferEvent(q)) && IsLane(past, IdsOf(q.proven), OfferEvent(q), LaneFclaims(past, q.offer))
    requires NoneCapped(past, q.offer) && (forall e :: e in q.proven ==> e in past)
    requires Applied(q.proven) == Kept(past, IdsOf(q.proven)) && o.height >= V13_HEIGHT && o.status.Open?
    requires var K := Run(Applied(q.proven)); Inv(K) && K.block <= q.tip && q.offer in K.market.offers && K.market.offers[q.offer] == o
    requires ReplayLiveHold(q.proven, q.offer, q.fclaim, q.me, q.tip).offer == Some(o)
    ensures var C := Run(past); Inv(C) && C.block <= q.tip && C.market.offers[q.offer] == o
  {
    hide Step, RunFrom, Inv, Feed, Applied, LaneProven, NoneCapped, IsLane, Seal, Prepare;
    var K, C, offer := Run(Applied(q.proven)), Run(past), OfferEvent(q);
    OfferEventIs(q);
    assert past + [] == past;
    Continues(past, []);
    if past != [] { assert past[|past| - 1] in past; }
    KeptIs(past, IdsOf(q.proven));
    OfferAnchored(q, o);
    LaneIsTheChain(past, [], IdsOf(q.proven), offer, LaneFclaims(past, q.offer), q.tip + 1);
    SealIsPrepare(K, q.tip);
    SealIsPrepare(C, q.tip);
    ServedView(q, o);
    OpenInView(C, q.tip, q.offer);
  }

  lemma ServedView(q: FillQuery, o: Offer)
    requires ReplayLiveHold(q.proven, q.offer, q.fclaim, q.me, q.tip).offer == Some(o)
    ensures OfferOf(Seal(Run(Applied(q.proven)), q.tip), q.offer) == Some(o)
  {
    hide Seal, Run, Applied;
  }

  lemma OfferAnchored(q: FillQuery, o: Offer)
    requires LaneProven(q) && Feed(Applied(q.proven)) && OfferEvent(q) in Applied(q.proven)
    requires q.offer in Run(Applied(q.proven)).market.offers && Run(Applied(q.proven)).market.offers[q.offer] == o
    ensures OfferEvent(q).height == o.height
  {
    hide Run, Applied, LaneProven;
    OfferEventIs(q);
    assert Applied(q.proven) + [] == Applied(q.proven);
    OfferIs(Applied(q.proven), [], OfferEvent(q));
  }

  /** The lane theorem, as SafeFillIsApplied states it of a complete history: a safe verdict over the proven lane, with the
      buyer's own count and no other claim of the lane refused by the cap, means that the planned fill, mined at any height
      up to the end of the hold, is applied by the chain's own ledger and delivers what was previewed, whatever anyone
      anchors after the tip. */
  lemma SafeLaneFillIsApplied(q: FillQuery, before: seq<Event>, after: seq<Event>, later: seq<Event>, fill: Event, o: Offer,
                              cs: seq<HoldCandidate>, closed: set<Id>)
    requires VerdictSafe(q) && Delivered(q.proven)
    requires var past := before + ([FclaimEvent(q)] + after);
      && Feed(past + (later + [fill])) && (forall e :: e in past ==> e.height <= q.tip) && ProvesLane(q, past)
      && q.offer in Run(past).market.offers && OthersUncapped(past, FclaimEvent(q), q.offer)
    requires CountsMine(q, before, cs, closed)
    requires ReplayLiveHold(q.proven, q.offer, q.fclaim, q.me, q.tip).offer == Some(o) && o.want.CsdWant?
    requires PlannedFill(fill, q, o) && q.tip < fill.height <= FclaimHoldEnd(FclaimEvent(q).expiresEpoch)
    requires forall i :: 0 <= i < |later| ==> later[i].height > q.tip && !OwnFill(later[i], q.me, q.offer, q.fclaim)
    ensures var past := before + ([FclaimEvent(q)] + after);
      var B := Prepare(Run(past + later), fill.height);
      && Run(past + (later + [fill])) == Handle(B, fill)
      && q.offer in B.market.offers && B.market.offers[q.offer] == o
      && DeliveredAs(B, Run(past + (later + [fill])), q.offer, q.me, PreviewFill(o, PlannedPay(q)))
  {
    hide Prepare, Handle, Inv, VerdictSafe, PaymentSafe, PlannedFill, DeliveredAs, PreviewFill, ReplayLiveHold, HeldThrough, OwnFill,
      Delivered, ProvesLane, OthersUncapped, CountsMine, RunFrom, Feed;
    SafeParts(q);
    OfferEventIs(q);
    var past, E := before + ([FclaimEvent(q)] + after), FclaimEvent(q).expiresEpoch;
    Continues(past, later + [fill]);
    ProvenInPast(q, past);
    LaneIsHigh(q);
    LaneViewIsHeld(q, before, after, cs, closed, o);
    HeldUntilFill(past, later, fill, q.tip, q.offer, q.me, q.fclaim, E, o);
    HeldFillLands(Prepare(Run(past + later), fill.height), fill, q, o, E);
  }
}
