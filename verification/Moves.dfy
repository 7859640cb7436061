/** The one thing each event does to the offers: nothing, a closing pass, a new offer, or one offer replaced.
    Every invariant over offers and every theorem about one offer is proved over these four moves. */
module Moves {
  import opened Rules
  import opened Ledgers
  import opened Handlers
  import opened Replay
  import opened Closing
  import opened OfferInvariants

  datatype Move = Still | Pass(ids: seq<Id>, why: Reason) | Added(o: Offer) | Replaced(oid: Id, now: Offer)

  function FilledOffer(o: Offer, entry: FillEntry): Offer { o.(status := Filled, fill := Some(entry)) }

  /** Does a fill of a whole offer go through? */
  predicate WholeFills(L: Ledger, ev: Event, o: Offer)
    requires ev.Attest? && o.want.CsdWant?
  {
    !FillBarred(o, ev) && Dominates(ev.paidTo, Needs(o)) && GiveReady(L, o)
  }

  function FillMove(L: Ledger, ev: Event, oid: Id): Move
    requires ev.Attest? && oid in L.market.offers
  {
    var o := L.market.offers[oid];
    match o.want
    case TokenWant(_, amount, _) =>
      if TokenFillRefused(L, ev, o) then Still
      else Replaced(oid, FilledOffer(o, FillEntry(ev.attester, ev.id, ev.height, amount, FeeAt(amount, o.feeBps), 0)))
    case CsdWant(value, payto) =>
      if IsPartial(o) then
        if !PartialSane(o) || FillBarred(o, ev) || PartialRefused(L, ev, o) then Still
        else Replaced(oid, AfterPortion(o, PortionEntry(o, ev)))
      else if !WholeFills(L, ev, o) then Still
      else Replaced(oid, FilledOffer(o, FillEntry(ev.attester, ev.id, ev.height, Pt(ev.paidTo, payto), FeeAt(value, o.feeBps), 0)))
  }

  function AttestMove(L: Ledger, ev: Event): Move
    requires ev.Attest?
  {
    var target := Routed(L, ev);
    if target.None? then Still
    else
      var oid := target.value;
      var o := L.market.offers[oid];
      if ev.score == SCORE_CANCEL then
        (if ev.attester != o.seller || !o.status.Open? || Firm(o) || ev.height >= V14_HEIGHT then Still
         else Pass([oid], Immediate))
      else if ev.score == SCORE_FILL then FillMove(L, ev, oid)
      else if ev.height >= V17_HEIGHT && ev.score == SCORE_CLAIM && LegacyGrants(L, o, ev.attester, ev.height) then
        Replaced(oid, o.(hold := Some(Hold(ev.attester, ev.height + ClaimWindowAt(ev.height)))))
      else Still
  }

  function OfferMove(L: Ledger, ev: Event, rec: Record): Move
    requires ev.Propose? && rec.OfferRec?
  {
    var ready := match rec.give
                 case NameGive(nm) => nm in L.registry.names && Listable(L.registry.names[nm], ev.proposer, ev.height, ev.expiresEpoch)
                 case TokenGive(t, amt) => t in L.assets.tokens && BalOf(L.assets.balances, t, ev.proposer).available >= amt;
    if EnvelopeRefused(rec, ev.proposer, ev.height, ev.expiresEpoch) || !ready then Still else Added(NewOffer(ev, rec))
  }

  function VoidMove(L: Ledger, M: Ledger, nm: string, height: nat): Move {
    if M.market == L.market then Still else Pass(L.market.offerIds, Void(nm, height))
  }

  function ProposeMove(L: Ledger, ev: Event): Move
    requires ev.Propose?
  {
    match ev.rec
    case Some(Name(nm, revealed)) => VoidMove(L, ApplyName(L, ev, nm, revealed), nm, ev.height)
    case Some(Nfinalize(nm, opening)) => VoidMove(L, ApplyNfinalize(L, ev, nm, opening), nm, ev.height)
    case Some(OfferRec(_, _, _, _, _)) => OfferMove(L, ev, ev.rec.value)
    case Some(Ocancel(t, nm)) =>
      if V12_HEIGHT <= ev.height < V14_HEIGHT then Pass(OcancelTargets(L, L.market.offerIds, ev.proposer, t, nm), Immediate)
      else Still
    case Some(FclaimRec(oid)) =>
      if ev.height >= V28_HEIGHT && Grants(L, oid, ev.proposer, ev.expiresEpoch, ev.height) then
        Replaced(oid, L.market.offers[oid].(hold := Some(Hold(ev.proposer, (ev.expiresEpoch + 1) * EPOCH_LEN)),
                                           claimTxid := Some(ev.id)))
      else Still
    case _ => Still
  }

  function MoveOf(L: Ledger, ev: Event): Move { if ev.Propose? then ProposeMove(L, ev) else AttestMove(L, ev) }

  /** `b` is `a` after the move. */
  ghost predicate Moved(a: map<Id, Offer>, b: map<Id, Offer>, m: Move) {
    match m
    case Still => b == a
    case Pass(ids, why) => OffersClosed(a, b, ids, why)
    case Added(o) => b == a[o.id := o]
    case Replaced(oid, now) => oid in a && b == a[oid := now]
  }

  /** The terms an offer carries from its creation to its end. */
  predicate SameTerms(a: Offer, b: Offer) {
    a.id == b.id && a.seller == b.seller && a.give == b.give && a.want == b.want && a.taker == b.taker && a.min == b.min
    && a.bid == b.bid && a.expiresEpoch == b.expiresEpoch && a.height == b.height && a.feeBps == b.feeBps
  }

  /** Only an open offer is replaced, and its terms never change. */
  lemma ReplacedTerms(L: Ledger, ev: Event)
    requires MoveOf(L, ev).Replaced?
    ensures var oid := MoveOf(L, ev).oid;
      oid in L.market.offers && L.market.offers[oid].status.Open? && SameTerms(L.market.offers[oid], MoveOf(L, ev).now)
  {
    if ev.Attest? && ev.score == SCORE_FILL { assert AttestMove(L, ev) == FillMove(L, ev, Routed(L, ev).value); }
  }

  /** A new offer is the event's own, open, anchored now and not yet expired. */
  lemma AddedIsNew(L: Ledger, ev: Event)
    requires MoveOf(L, ev).Added?
    ensures ev.Propose? && ev.rec.Some? && ev.rec.value.OfferRec?
    ensures MoveOf(L, ev).o == NewOffer(ev, ev.rec.value) && !EnvelopeRefused(ev.rec.value, ev.proposer, ev.height, ev.expiresEpoch)
    ensures !Due(Sweep(ev.height), MoveOf(L, ev).o)
  {
  }

  lemma FinishMoves(L: Ledger, M: Ledger, oid: Id, entry: FillEntry)
    requires M.market.offers == L.market.offers && oid in L.market.offers
    ensures FinishFill(M, oid, entry).market.offers == L.market.offers[oid := FilledOffer(L.market.offers[oid], entry)]
  {
  }

  lemma FillMoves(L: Ledger, ev: Event, oid: Id)
    requires OffersInv(L) && ev.Attest? && ev.score == SCORE_FILL && Routed(L, ev) == Some(oid)
    ensures Moved(L.market.offers, ApplyAttest(L, ev).market.offers, FillMove(L, ev, oid))
  {
    var o := L.market.offers[oid];
    assert OfferOk(oid, o);
    match o.want
    case TokenWant(_, amount, _) =>
      if !TokenFillRefused(L, ev, o) {
        var fee := FeeAt(amount, o.feeBps);
        FinishMoves(L, DeliverGive(Pay(L, SettleTokens(L.assets.balances, o.want, ev.attester, fee)), o, ev.attester, ev), oid,
                    FillEntry(ev.attester, ev.id, ev.height, amount, fee, 0));
      }
    case CsdWant(value, payto) =>
      if IsPartial(o) {
        PartialFillOffers(L, ev, oid);
      } else if WholeFills(L, ev, o) {
        var fee := FeeAt(value, o.feeBps);
        FinishMoves(L, DeliverGive(L, o, ev.attester, ev).(feesPaid := L.feesPaid + fee), oid,
                    FillEntry(ev.attester, ev.id, ev.height, Pt(ev.paidTo, payto), fee, 0));
      }
  }

  /** An attest does to the offers what its move says. */
  lemma AttestMoves(L: Ledger, ev: Event)
    requires OffersInv(L) && ev.Attest?
    ensures Moved(L.market.offers, ApplyAttest(L, ev).market.offers, AttestMove(L, ev))
  {
    var target := Routed(L, ev);
    if target.Some? {
      var oid := target.value;
      if ev.score == SCORE_CANCEL {
        CloseAllEffect(L, [oid], Immediate);
        assert CloseAll(L, [oid], Immediate) == CloseOne(CloseAll(L, [], Immediate), oid, Immediate);
      } else if ev.score == SCORE_FILL {
        FillMoves(L, ev, oid);
      }
    }
  }

  /** A proposal does to the offers what its move says. */
  lemma ProposeMoves(L: Ledger, ev: Event)
    requires ev.Propose?
    ensures Moved(L.market.offers, ApplyPropose(L, ev).market.offers, ProposeMove(L, ev))
  {
    match ev.rec
    case Some(Name(nm, revealed)) =>
      NameShape(L, ev, nm, revealed);
      CloseAllEffect(L, L.market.offerIds, Void(nm, ev.height));
    case Some(Nfinalize(nm, opening)) =>
      NfinalizeShape(L, ev, nm, opening);
      CloseAllEffect(L, L.market.offerIds, Void(nm, ev.height));
    case Some(Ocancel(t, nm)) =>
      CloseAllEffect(L, OcancelTargets(L, L.market.offerIds, ev.proposer, t, nm), Immediate);
    case _ =>
  }

  lemma HandleMoves(L: Ledger, ev: Event)
    requires OffersInv(L)
    ensures Moved(L.market.offers, Handle(L, ev).market.offers, MoveOf(L, ev))
  {
    if ev.Propose? { ProposeMoves(L, ev); } else { AttestMoves(L, ev); }
  }

  /** What an event does to the claim records, the cancel queue, the bids and the block: an fclaim is recorded, a
      cancel is queued at its own height, a bid is added under the event's id, nothing else moves. */
  ghost predicate QueueMoved(L: Ledger, M: Ledger, ev: Event) {
    && M.block == L.block && M.bidBook.bids.Keys <= L.bidBook.bids.Keys + {ev.id}
    && (M.fclaims == L.fclaims
        || (ev.Propose? && ev.height >= V28_HEIGHT && ev.rec.Some? && ev.rec.value.FclaimRec?
            && var oid := ev.rec.value.offer;
               M.fclaims == L.fclaims[ev.id := Fclaim(oid, ev.proposer, ev.expiresEpoch, ev.height,
                                                      Grants(L, oid, ev.proposer, ev.expiresEpoch, ev.height))]))
    && (M.pendingCancels == L.pendingCancels
        || exists ids :: M.pendingCancels == L.pendingCancels + [Deferred(ids, ev.height)])
  }

  lemma AttestQueue(L: Ledger, ev: Event)
    requires ev.Attest?
    ensures QueueMoved(L, ApplyAttest(L, ev), ev)
  {
    hide ApplyAttest;
    AttestHasShape(L, ev);
  }

  lemma ProposeQueue(L: Ledger, ev: Event)
    requires ev.Propose?
    ensures QueueMoved(L, ApplyPropose(L, ev), ev)
  {
    match ev.rec
    case Some(Name(nm, revealed)) =>
      NameShape(L, ev, nm, revealed);
      CloseAllEffect(L, L.market.offerIds, Void(nm, ev.height));
    case Some(Nfinalize(nm, opening)) =>
      NfinalizeShape(L, ev, nm, opening);
      CloseAllEffect(L, L.market.offerIds, Void(nm, ev.height));
    case Some(Ocancel(t, nm)) =>
      CloseAllEffect(L, OcancelTargets(L, L.market.offerIds, ev.proposer, t, nm), Immediate);
    case _ =>
  }

  lemma HandleQueue(L: Ledger, ev: Event)
    ensures QueueMoved(L, Handle(L, ev), ev)
  {
    if ev.Propose? { ProposeQueue(L, ev); } else { AttestQueue(L, ev); }
  }
}
