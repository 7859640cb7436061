/** Heights only move forward: what a ledger holds is never later than its block, an offer open at a block has
    not expired there, and a deferred cancel never outlives the block it was made in. */
module HeightInvariants {
  import opened Rules
  import opened Ledgers
  import opened Handlers
  import opened Replay
  import opened Closing
  import opened OfferInvariants
  import opened Moves

  /** The flush leaves only closings behind. */
  ghost predicate Winding(L: Ledger, M: Ledger) {
    && SameBesides(L, M) && M.market.offers.Keys == L.market.offers.Keys && M.registry.names.Keys == L.registry.names.Keys
    && (forall id :: id in L.market.offers ==> Wound(L.market.offers[id], M.market.offers[id]))
    && (forall nm :: nm in L.registry.names ==> Unlocked(L.registry.names[nm], M.registry.names[nm]))
  }

  /** `b` is `a`, possibly closed. */
  predicate Wound(a: Offer, b: Offer) {
    b == a || (a.status.Open? && (b == a.(status := Cancelled) || b == a.(status := Expired)))
  }

  /** `b` is `a`, possibly unlocked. */
  predicate Unlocked(a: NameRec, b: NameRec) { b == a || b == a.(locked := false) }

  lemma PassWinds(L: Ledger, ids: seq<Id>, why: Reason)
    ensures Winding(L, CloseAll(L, ids, why))
  {
    CloseAllEffect(L, ids, why);
  }

  lemma WindingTransitive(L: Ledger, M: Ledger, N: Ledger)
    requires Winding(L, M) && Winding(M, N)
    ensures Winding(L, N)
  {
    forall id | id in L.market.offers ensures Wound(L.market.offers[id], N.market.offers[id]) {
      assert Wound(L.market.offers[id], M.market.offers[id]) && Wound(M.market.offers[id], N.market.offers[id]);
    }
    forall nm | nm in L.registry.names ensures Unlocked(L.registry.names[nm], N.registry.names[nm]) {
      assert Unlocked(L.registry.names[nm], M.registry.names[nm]) && Unlocked(M.registry.names[nm], N.registry.names[nm]);
    }
  }

  lemma {:induction false} FlushWinds(L: Ledger, cancels: seq<Deferred>)
    ensures Winding(L, FlushFrom(L, cancels))
  {
    if cancels != [] {
      var c := cancels[|cancels| - 1];
      var M := FlushFrom(L, cancels[..|cancels| - 1]);
      FlushWinds(L, cancels[..|cancels| - 1]);
      PassWinds(M, c.targets, Flush(c.height));
      WindingTransitive(L, M, CloseAll(M, c.targets, Flush(c.height)));
    }
  }

  /** The ledger a handler sees is the old one with some offers closed, some names unlocked, and reservations,
      recaptures and bids past their windows reaped. */
  lemma PrepareWinds(L: Ledger, height: nat)
    requires IndexInv(L)
    ensures var P := Prepare(L, height);
      && P.block == height
      && P.pendingCancels == (if height != L.block then [] else L.pendingCancels)
      && P.assets.tokens == L.assets.tokens && P.fclaims == L.fclaims && P.feesPaid == L.feesPaid
      && P.market.offerIds == L.market.offerIds && P.market.offerLock == L.market.offerLock
      && P.market.offers.Keys == L.market.offers.Keys
      && (forall id :: id in L.market.offers ==> Wound(L.market.offers[id], P.market.offers[id]))
      && P.registry.commits == L.registry.commits
      && P.registry.recaptures == LiveRecaptures(L.registry.recaptures, height)
      && (forall nm :: nm in P.registry.names ==> nm in L.registry.names && Unlocked(L.registry.names[nm], P.registry.names[nm]))
      && (forall nm :: nm in L.registry.names ==> (nm in P.registry.names <==> !Abandoned(L.registry.names[nm], height)))
      && P.bidBook.bids.Keys == L.bidBook.bids.Keys
  {
    hide FlushFrom, CloseAll, MarketIndex, BidIndex, BidDue, LiveRecaptures;
    FlushWinds(L, L.pendingCancels);
    PrepareIs(L, height);
    var E := EnterBlock(L, height);
    var S := SweptOffers(L, height);
    PassWinds(E, E.market.offerIds, Sweep(height));
    forall id | id in L.market.offers ensures Wound(L.market.offers[id], S.market.offers[id]) {
      assert Wound(L.market.offers[id], E.market.offers[id]) && Wound(E.market.offers[id], S.market.offers[id]);
    }
    forall nm | nm in L.registry.names ensures Unlocked(L.registry.names[nm], S.registry.names[nm]) {
      assert Unlocked(L.registry.names[nm], E.registry.names[nm]) && Unlocked(E.registry.names[nm], S.registry.names[nm]);
    }
  }

  lemma PrepareUnexpired(L: Ledger, height: nat)
    requires IndexInv(L)
    ensures Unexpired(Prepare(L, height).market.offers, height)
  {
    PrepareIs(L, height);
    var E := EnterBlock(L, height);
    CloseAllEffect(E, E.market.offerIds, Sweep(height));
  }

  lemma PrepareKeepsTime(L: Ledger, height: nat)
    requires IndexInv(L) && TimeInv(L) && height >= L.block
    ensures TimeInv(Prepare(L, height)) && Prepare(L, height).block == height
  {
    PrepareWinds(L, height);
    PrepareUnexpired(L, height);
  }

  lemma MovedTime(a: map<Id, Offer>, b: map<Id, Offer>, m: Move, height: nat)
    requires Moved(a, b, m) && Unexpired(a, height) && forall id :: id in a ==> a[id].height <= height
    requires m.Replaced? ==> m.oid in a && a[m.oid].status.Open? && SameTerms(a[m.oid], m.now)
    requires m.Added? ==> !Due(Sweep(height), m.o) && m.o.height <= height
    ensures Unexpired(b, height) && forall id :: id in b ==> b[id].height <= height
  {
  }

  /** No move leaves an open offer that has expired, or one from the future. */
  lemma MoveKeepsTime(L: Ledger, ev: Event, offers: map<Id, Offer>)
    requires OffersInv(L) && TimeInv(L) && L.block == ev.height && Moved(L.market.offers, offers, MoveOf(L, ev))
    ensures forall id :: id in offers ==> offers[id].height <= ev.height
    ensures Unexpired(offers, ev.height)
  {
    var m := MoveOf(L, ev);
    if m.Replaced? { ReplacedTerms(L, ev); }
    if m.Added? { AddedIsNew(L, ev); }
    MovedTime(L.market.offers, offers, m, ev.height);
  }

  /** The anchors of the name side stay in the past. */
  ghost predicate AnchorsPast(r: Registry, height: nat) {
    && (forall nm :: nm in r.names ==> r.names[nm].effHeight <= height)
    && (forall c :: c in r.commits ==> r.commits[c] <= height)
    && (forall nm :: nm in r.recaptures ==> r.recaptures[nm].effHeight <= height)
  }

  lemma PassAnchors(L: Ledger, ids: seq<Id>, why: Reason, height: nat)
    requires AnchorsPast(L.registry, height)
    ensures AnchorsPast(CloseAll(L, ids, why).registry, height)
  {
    CloseAllEffect(L, ids, why);
  }

  lemma NameAnchors(L: Ledger, ev: Event, nm: string, revealed: Option<Hash>)
    requires AnchorsPast(L.registry, ev.height) && ev.Propose?
    ensures AnchorsPast(ApplyName(L, ev, nm, revealed).registry, ev.height)
  {
    hide CloseAll, Beats, NameRegFee, ExpiredClaimFee, PendingOf, RecapturesOf, Lapsed, Abandoned;
    PassAnchors(L, L.market.offerIds, Void(nm, ev.height), ev.height);
  }

  lemma NfinalizeAnchors(L: Ledger, ev: Event, nm: string, opening: Hash)
    requires AnchorsPast(L.registry, ev.height) && ev.Propose?
    ensures AnchorsPast(ApplyNfinalize(L, ev, nm, opening).registry, ev.height)
  {
    hide CloseAll, Finalizable, NameRegFee, ExpiredClaimFee, Lapsed;
    PassAnchors(L, L.market.offerIds, Void(nm, ev.height), ev.height);
  }

  lemma ProposeAnchors(L: Ledger, ev: Event)
    requires AnchorsPast(L.registry, ev.height) && ev.Propose?
    ensures AnchorsPast(ApplyPropose(L, ev).registry, ev.height)
  {
    hide ApplyName, ApplyNfinalize, CloseAll, EnvelopeRefused, Listable, NewOffer, Grants, NameRegFee, Lapsed, OcancelTargets;
    match ev.rec
    case Some(Name(nm, revealed)) => NameAnchors(L, ev, nm, revealed);
    case Some(Nfinalize(nm, opening)) => NfinalizeAnchors(L, ev, nm, opening);
    case Some(Ocancel(t, nm)) =>
      PassAnchors(L, OcancelTargets(L, L.market.offerIds, ev.proposer, t, nm), Immediate, ev.height);
    case _ =>
  }

  lemma AttestAnchors(L: Ledger, ev: Event)
    requires AnchorsPast(L.registry, ev.height) && ev.Attest?
    ensures AnchorsPast(ApplyAttest(L, ev).registry, ev.height)
  {
    hide ApplyAttest;
    AttestHasShape(L, ev);
  }

  lemma HandleKeepsTime(L: Ledger, ev: Event)
    requires OffersInv(L) && TimeInv(L) && L.block == ev.height
    ensures TimeInv(Handle(L, ev)) && Handle(L, ev).block == ev.height
  {
    HandleMoves(L, ev);
    HandleQueue(L, ev);
    var M := Handle(L, ev);
    MoveKeepsTime(L, ev, M.market.offers);
    if ev.Propose? { ProposeAnchors(L, ev); } else { AttestAnchors(L, ev); }
  }
}
