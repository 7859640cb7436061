/** Which cancels take, and when (packages/cairnx/src/resolve/attest.ts:28-75, market.ts:74-109): who may cancel, what waits for
    the block boundary, what the boundary then closes, and that a firm quote is never cancelled. */
module Cancels {
  import opened Rules
  import opened Ledgers
  import opened Handlers
  import opened Replay
  import opened Closing
  import opened OfferInvariants
  import opened Moves
  import opened HeightInvariants
  import opened Conservation
  import opened NameSafety
  import opened HoldCap
  import opened Runs
  import opened Preflight

  /** A taker-bound offer from height 60_000 on is a promise to its taker. */
  predicate Promised(o: Offer) { o.taker.Some? && o.height >= 60_000 }

  /** What the offer still ties up goes back: the undelivered units to the seller, or the name's lock. */
  ghost predicate Returned(L: Ledger, M: Ledger, o: Offer) {
    match o.give
    case NameGive(nm) =>
      && M.assets == L.assets
      && (nm !in L.registry.names ==> M.registry == L.registry)
      && (nm in L.registry.names ==>
            M.registry == L.registry.(names := L.registry.names[nm := L.registry.names[nm].(locked := false)]))
    case TokenGive(ticker, amount) =>
      && M.registry == L.registry && M.assets.tokens == L.assets.tokens
      && forall t: string, a: Addr ::
           var b, x := BalOf(L.assets.balances, t, a), if t == ticker && a == o.seller then amount - o.delivered else 0;
           BalOf(M.assets.balances, t, a) == Bal(b.available + x, b.locked - x)
  }

  lemma CloseReturns(L: Ledger, oid: Id)
    requires Inv(L) && oid in L.market.offers && L.market.offers[oid].status.Open?
    ensures Returned(L, Close(L, oid, Cancelled), L.market.offers[oid])
  {
    hide Inv, Credit, BalOf;
    SoundParts(L);
    SoundOffer(L, oid);
    var o := L.market.offers[oid];
    if o.give.TokenGive? {
      forall t: string, a: Addr {
        CreditBalance(L.assets.balances, o.give.ticker, o.seller, LockOf(L.market, oid), -LockOf(L.market, oid), t, a);
      }
    }
  }

  /** On every reachable ledger a cancel of an offer is its seller's alone, of an open offer that is not promised. From
      height 31_400 on it is queued for the block boundary; below, the offer is cancelled at once and its give returned. */
  lemma SellerCancels(L: Ledger, ev: Event)
    requires Inv(L) && ev.Attest? && ev.score == 0 && ev.proposalId in L.market.offers
    ensures var o, M := L.market.offers[ev.proposalId], Handle(L, ev);
      if ev.attester == o.seller && o.status.Open? && !Promised(o) then
        if ev.height >= 31_400 then M == L.(pendingCancels := L.pendingCancels + [Deferred([ev.proposalId], ev.height)])
        else
          && M.market.offers == L.market.offers[ev.proposalId := o.(status := Cancelled)] && Returned(L, M, o)
          && M.pendingCancels == L.pendingCancels && M.feesPaid == L.feesPaid
      else M == L
  {
    hide Inv, Close, Returned;
    var oid := ev.proposalId;
    if L.market.offers[oid].status.Open? {
      CloseReturns(L, oid);
      CloseEffect(L, oid, Cancelled);
    }
  }

  /** Does a bulk cancel by `who` of its tickers or names name this offer? */
  predicate Named(o: Offer, who: Addr, ticker: Option<string>, name: Option<string>) {
    && o.status.Open? && o.seller == who && !Promised(o)
    && (match o.give
        case TokenGive(t, _) => name.None? && (ticker.None? || ticker == Some(t))
        case NameGive(nm) => ticker.None? && (name.None? || name == Some(nm)))
  }

  lemma {:induction false} TargetsAreNamed(L: Ledger, ids: seq<Id>, who: Addr, ticker: Option<string>, name: Option<string>, id: Id)
    ensures id in OcancelTargets(L, ids, who, ticker, name)
            <==> id in ids && id in L.market.offers && Named(L.market.offers[id], who, ticker, name)
  {
    if ids != [] { TargetsAreNamed(L, ids[..|ids| - 1], who, ticker, name, id); }
  }

  /** On every reachable ledger a bulk cancel, from height 30_300 on, names exactly its author's open offers of the filter
      that are not promised: from 31_400 it queues them for the boundary, below it cancels them at once. */
  lemma BulkCancels(L: Ledger, ev: Event, ticker: Option<string>, name: Option<string>)
    requires Inv(L) && ev.Propose? && ev.rec == Some(Ocancel(ticker, name))
    ensures var M := Handle(L, ev);
      if ev.height < 30_300 then M == L
      else if ev.height < 31_400 then
        && M.market.offers.Keys == L.market.offers.Keys && M.pendingCancels == L.pendingCancels
        && forall id :: id in L.market.offers ==>
             var o := L.market.offers[id];
             M.market.offers[id] == if Named(o, ev.proposer, ticker, name) then o.(status := Cancelled) else o
      else
        exists ids :: Queues(L, M, ids, ev.height)
          && forall id :: id in ids <==> id in L.market.offers && Named(L.market.offers[id], ev.proposer, ticker, name)
  {
    hide CloseAll, OcancelTargets, Named, Inv;
    var ids := OcancelTargets(L, L.market.offerIds, ev.proposer, ticker, name);
    ListedIds(L);
    forall id ensures id in ids <==> id in L.market.offers && Named(L.market.offers[id], ev.proposer, ticker, name) {
      TargetsAreNamed(L, L.market.offerIds, ev.proposer, ticker, name, id);
    }
    CloseAllEffect(L, ids, Immediate);
    if ev.height >= 31_400 { assert Queues(L, Handle(L, ev), ids, ev.height); }
    forall id | id in L.market.offers && Named(L.market.offers[id], ev.proposer, ticker, name) ensures L.market.offers[id].status.Open? {
      NamedIsOpen(L.market.offers[id], ev.proposer, ticker, name);
    }
  }

  predicate Queues(L: Ledger, M: Ledger, ids: seq<Id>, height: nat) {
    M == L.(pendingCancels := L.pendingCancels + [Deferred(ids, height)])
  }

  lemma NamedIsOpen(o: Offer, who: Addr, ticker: Option<string>, name: Option<string>)
    requires Named(o, who, ticker, name)
    ensures o.status.Open? && !Firm(o)
  {
  }

  lemma ListedIds(L: Ledger)
    requires Inv(L)
    ensures forall id :: id in L.market.offers <==> id in L.market.offerIds
  {
  }

  /** A cancel of a block from height 60_000 on does not reach an offer under a live fclaim hold. */
  predicate OutOfReach(o: Offer, height: nat) {
    height >= 60_000 && o.claimTxid.Some? && o.hold.Some? && height < o.hold.value.until
  }

  ghost predicate Cancelling(cancels: seq<Deferred>, id: Id, o: Offer) {
    o.status.Open? && exists i :: 0 <= i < |cancels| && id in cancels[i].targets && !OutOfReach(o, cancels[i].height)
  }

  lemma LastCancelling(cancels: seq<Deferred>, id: Id, o: Offer)
    requires cancels != []
    ensures var c, rest := cancels[|cancels| - 1], cancels[..|cancels| - 1];
      Cancelling(cancels, id, o) <==> Cancelling(rest, id, o) || (o.status.Open? && id in c.targets && !OutOfReach(o, c.height))
  {
    var rest := cancels[..|cancels| - 1];
    if Cancelling(cancels, id, o) {
      var i :| 0 <= i < |cancels| && id in cancels[i].targets && !OutOfReach(o, cancels[i].height);
      assert i < |rest| ==> rest[i] == cancels[i];
    }
    if Cancelling(rest, id, o) {
      var i :| 0 <= i < |rest| && id in rest[i].targets && !OutOfReach(o, rest[i].height);
      assert cancels[i] == rest[i];
    }
  }

  lemma {:induction false} FlushedOffer(L: Ledger, cancels: seq<Deferred>, id: Id)
    requires id in L.market.offers
    ensures id in FlushFrom(L, cancels).market.offers
    ensures var o := L.market.offers[id];
      FlushFrom(L, cancels).market.offers[id] == if Cancelling(cancels, id, o) then o.(status := Cancelled) else o
  {
    hide CloseAll, Cancelling;
    if cancels == [] {
      assert !Cancelling(cancels, id, L.market.offers[id]) by { NoneCancelling(id, L.market.offers[id]); }
    } else {
      var c, rest := cancels[|cancels| - 1], cancels[..|cancels| - 1];
      FlushedOffer(L, rest, id);
      LastCancelling(cancels, id, L.market.offers[id]);
      CloseAllEffect(FlushFrom(L, rest), c.targets, Flush(c.height));
      if Cancelling(rest, id, L.market.offers[id]) { OpenCancelling(rest, id, L.market.offers[id]); }
    }
  }

  lemma NoneCancelling(id: Id, o: Offer)
    ensures !Cancelling([], id, o)
  {
  }

  lemma OpenCancelling(cancels: seq<Deferred>, id: Id, o: Offer)
    requires Cancelling(cancels, id, o)
    ensures o.status.Open?
  {
  }

  /** The block boundary cancels exactly the offers still open that a queued cancel names, but for those its own height
      finds under a live fclaim hold; and the queue is empty. */
  lemma BoundaryCancels(L: Ledger)
    ensures var F := FlushCancels(L);
      && F.pendingCancels == [] && F.market.offers.Keys == L.market.offers.Keys
      && forall id :: id in L.market.offers ==>
           var o := L.market.offers[id];
           F.market.offers[id] == if Cancelling(L.pendingCancels, id, o) then o.(status := Cancelled) else o
  {
    hide FlushFrom, Cancelling;
    FlushWinds(L, L.pendingCancels);
    forall id | id in L.market.offers { FlushedOffer(L, L.pendingCancels, id); }
  }

  // ----- firm quotes -----

  /** No promised offer is cancelled, or named by a cancel that waits. */
  ghost predicate PromisesKept(L: Ledger) {
    && (forall id :: id in L.market.offers && Promised(L.market.offers[id]) ==> !L.market.offers[id].status.Cancelled?)
    && (forall i, id :: 0 <= i < |L.pendingCancels| && id in L.pendingCancels[i].targets ==>
          id in L.market.offers && !Promised(L.market.offers[id]))
  }

  lemma PrepareKeepsPromises(L: Ledger, height: nat)
    requires IndexInv(L) && PromisesKept(L)
    ensures PromisesKept(Prepare(L, height))
  {
    hide Prepare, FlushCancels, IndexInv, Cancelling;
    PreparedQueue(L, height);
    BoundaryCancels(L);
    PrepareOffers(L, height);
    var P := Prepare(L, height);
    forall id | id in P.market.offers && Promised(P.market.offers[id]) ensures !P.market.offers[id].status.Cancelled? {
      assert !Cancelling(L.pendingCancels, id, L.market.offers[id]) by { PromisedSpared(L, id); }
    }
    forall i, id | 0 <= i < |P.pendingCancels| && id in P.pendingCancels[i].targets
      ensures id in P.market.offers && !Promised(P.market.offers[id])
    {
      assert id in L.market.offers && !Promised(L.market.offers[id]);
    }
  }

  lemma PreparedQueue(L: Ledger, height: nat)
    requires IndexInv(L)
    ensures Prepare(L, height).pendingCancels == if height != L.block then [] else L.pendingCancels
  {
    hide Prepare;
    PrepareWinds(L, height);
  }

  lemma PromisedSpared(L: Ledger, id: Id)
    requires PromisesKept(L) && id in L.market.offers && Promised(L.market.offers[id])
    ensures !Cancelling(L.pendingCancels, id, L.market.offers[id])
  {
  }

  /** The ledger a handler sees has the boundary's cancels taken and the expired offers expired. */
  lemma PrepareOffers(L: Ledger, height: nat)
    requires IndexInv(L)
    ensures var E, P := if height != L.block then FlushCancels(L) else L, Prepare(L, height);
      && P.market.offers.Keys == E.market.offers.Keys
      && forall id :: id in E.market.offers ==>
           P.market.offers[id] == E.market.offers[id] || P.market.offers[id] == E.market.offers[id].(status := Expired)
  {
    hide FlushCancels, IndexInv, CloseAll;
    PrepareIs(L, height);
    var B := EnterBlock(L, height);
    CloseAllEffect(B, B.market.offerIds, Sweep(height));
  }

  /** What an event queues names no promised offer. */
  lemma QueuedUnpromised(P: Ledger, ev: Event)
    ensures var M := Handle(P, ev);
      || M.pendingCancels == P.pendingCancels
      || exists ids :: M.pendingCancels == P.pendingCancels + [Deferred(ids, ev.height)]
           && forall id :: id in ids ==> id in P.market.offers && !Promised(P.market.offers[id])
  {
    if ev.Propose? { ProposedUnpromised(P, ev); } else { AttestedUnpromised(P, ev); }
  }

  lemma AttestedUnpromised(P: Ledger, ev: Event)
    requires ev.Attest?
    ensures var M := ApplyAttest(P, ev);
      || M.pendingCancels == P.pendingCancels
      || exists ids :: M.pendingCancels == P.pendingCancels + [Deferred(ids, ev.height)]
           && forall id :: id in ids ==> id in P.market.offers && !Promised(P.market.offers[id])
  {
    hide ApplyTokenFill, ApplyPartialFill, ApplyFill, ApplyLegacyClaim;
    var target := Routed(P, ev);
    if target.Some? {
      var oid := target.value;
      if ev.score == SCORE_CANCEL { CloseEffect(P, oid, Cancelled); }
      else { AttestHasShape(P, ev); FillQueuesNone(P, ev); }
    }
  }

  lemma FillQueuesNone(P: Ledger, ev: Event)
    requires ev.Attest? && ev.score != SCORE_CANCEL
    ensures ApplyAttest(P, ev).pendingCancels == P.pendingCancels
  {
    hide FillBarred, TokenFillRefused, PartialRefused, Dominates, Needs, SettleTokens, Credit, LegacyGrants, MarkBidDone, SetStatus;
  }

  lemma ProposedUnpromised(P: Ledger, ev: Event)
    requires ev.Propose?
    ensures var M := ApplyPropose(P, ev);
      || M.pendingCancels == P.pendingCancels
      || exists ids :: M.pendingCancels == P.pendingCancels + [Deferred(ids, ev.height)]
           && forall id :: id in ids ==> id in P.market.offers && !Promised(P.market.offers[id])
  {
    hide ApplyName, ApplyNfinalize, OcancelTargets, CloseAll, EnvelopeRefused, Listable, Grants, NameRegFee, Credit, BalOf;
    match ev.rec
    case Some(Name(nm, revealed)) =>
      NameShape(P, ev, nm, revealed);
      CloseAllEffect(P, P.market.offerIds, Void(nm, ev.height));
    case Some(Nfinalize(nm, opening)) =>
      NfinalizeShape(P, ev, nm, opening);
      CloseAllEffect(P, P.market.offerIds, Void(nm, ev.height));
    case Some(Ocancel(t, nm)) =>
      var ids := OcancelTargets(P, P.market.offerIds, ev.proposer, t, nm);
      CloseAllEffect(P, ids, Immediate);
      forall id | id in ids ensures id in P.market.offers && !Promised(P.market.offers[id]) {
        TargetsAreNamed(P, P.market.offerIds, ev.proposer, t, nm, id);
      }
    case _ =>
  }

  /** No event cancels a promised offer: cancels spare it, and its name is neither displaced nor lapsed while it stands. */
  lemma MoveSparesPromised(P: Ledger, ev: Event, id: Id)
    requires IndexInv(P) && OffersInv(P) && TimeInv(P) && NameInv(P) && Next(P, ev) && P.block == ev.height
    requires id in P.market.offers && Promised(P.market.offers[id]) && P.market.offers[id].status.Open?
    ensures id in Handle(P, ev).market.offers && !Handle(P, ev).market.offers[id].status.Cancelled?
  {
    hide MoveOf, Handle, IndexInv, OffersInv, NameInv;
    HandleMoves(P, ev);
    match MoveOf(P, ev)
    case Still =>
    case Added(o) => AddedIsNew(P, ev);
    case Replaced(oid, now) => ReplacedNotCancelled(P, ev);
    case Pass(ids, why) => PassSparesPromised(P, ev, id);
  }

  lemma ReplacedNotCancelled(P: Ledger, ev: Event)
    requires MoveOf(P, ev).Replaced?
    ensures !MoveOf(P, ev).now.status.Cancelled?
  {
    ReplacedTerms(P, ev);
    if ev.Attest? && ev.score == SCORE_FILL { assert AttestMove(P, ev) == FillMove(P, ev, Routed(P, ev).value); }
  }

  lemma PassSparesPromised(P: Ledger, ev: Event, id: Id)
    requires TimeInv(P) && NameInv(P) && P.block == ev.height && MoveOf(P, ev).Pass?
    requires id in P.market.offers && Promised(P.market.offers[id]) && P.market.offers[id].status.Open?
    ensures var m := MoveOf(P, ev); !(id in m.ids && ClosesIn(P.market.offers, id, m.why))
  {
    hide OcancelTargets, ApplyName, ApplyNfinalize, NameInv, PartialRefused, Dominates, Grants, LegacyGrants, TokenFillRefused;
    assert 60_000 <= P.market.offers[id].height <= ev.height;
    if ev.Propose? && ev.rec.Some? {
      match ev.rec.value
      case Name(nm, revealed) => if Lists(P.market.offers, id, nm) { RevealVoidsNone(P, ev, nm, revealed, id); }
      case Nfinalize(nm, opening) => if Lists(P.market.offers, id, nm) { FinalizeVoidsNone(P, ev, nm, opening, id); }
      case _ =>
    }
  }

  lemma RevealVoidsNone(P: Ledger, ev: Event, nm: string, revealed: Option<Hash>, id: Id)
    requires TimeInv(P) && NameInv(P) && P.block == ev.height && ev.Propose? && Lists(P.market.offers, id, nm) && ev.height >= 60_000
    ensures ApplyName(P, ev, nm, revealed).market == P.market
  {
    hide CloseAll, NameInv, RecapturesOf, PendingOf, Beats, Lapsed, Current;
    var e := EffHeight(P, ev.height, revealed);
    if e.Some? && Beats(e.value, ev, Current(P, nm, ev.height)) {
      ListedNotBeaten(P, id, nm, ev, e.value, revealed);
    }
  }

  lemma FinalizeVoidsNone(P: Ledger, ev: Event, nm: string, opening: Hash, id: Id)
    requires TimeInv(P) && NameInv(P) && P.block == ev.height && ev.Propose? && Lists(P.market.offers, id, nm)
    ensures ApplyNfinalize(P, ev, nm, opening).market == P.market
  {
    hide CloseAll, NameInv, Lapsed, Finalizable, NameRegFee, ExpiredClaimFee;
    ListedNotLapsed(P, id, nm, ev.height);
  }

  lemma HandleKeepsPromises(P: Ledger, ev: Event)
    requires Inv(P) && Next(P, ev) && P.block == ev.height && PromisesKept(P)
    ensures PromisesKept(Handle(P, ev))
  {
    hide Handle, Inv, Next;
    var M := Handle(P, ev);
    PartsOf(P);
    QueuedUnpromised(P, ev);
    HandleTerms(P, ev);
    forall id | id in M.market.offers && Promised(M.market.offers[id]) ensures !M.market.offers[id].status.Cancelled? {
      if id in P.market.offers && P.market.offers[id].status.Open? { MoveSparesPromised(P, ev, id); }
    }
  }

  /** An event keeps every offer's terms, changes the status of open offers alone, and adds open ones. */
  lemma HandleTerms(P: Ledger, ev: Event)
    requires OffersInv(P) && Next(P, ev)
    ensures var M := Handle(P, ev);
      && P.market.offers.Keys <= M.market.offers.Keys
      && (forall id :: id in P.market.offers ==> SameTerms(P.market.offers[id], M.market.offers[id]))
      && (forall id :: id in P.market.offers && !P.market.offers[id].status.Open? ==> M.market.offers[id] == P.market.offers[id])
      && (forall id :: id in M.market.offers && id !in P.market.offers ==> M.market.offers[id].status.Open?)
  {
    hide Handle, MoveOf, OffersInv;
    HandleMoves(P, ev);
    if MoveOf(P, ev).Added? { AddedIsNew(P, ev); }
    if MoveOf(P, ev).Replaced? { ReplacedTerms(P, ev); }
  }

  lemma PartsOf(L: Ledger)
    requires Inv(L)
    ensures IndexInv(L) && OffersInv(L) && TimeInv(L) && NameInv(L)
  {
  }

  /** Over every run a firm quote is never cancelled: not by its seller, not in bulk, not by a void of its name. It stays open
      until it is filled or expires. */
  lemma {:induction false} FirmQuotesStand(evs: seq<Event>)
    requires Feed(evs)
    ensures PromisesKept(Run(evs))
  {
    hide Step, Inv, PromisesKept;
    if evs == [] {
      NonePromised();
    } else {
      var a, ev := evs[..|evs| - 1], evs[|evs| - 1];
      assert evs == a + [ev];
      LastStep(a, ev);
      FirmQuotesStand(a);
      StepKeepsPromises(Run(a), ev);
    }
  }

  /** So is every firm quote in the state served at any tip. */
  lemma FirmQuotesServed(evs: seq<Event>, tip: nat, oid: Id)
    requires Feed(evs) && Run(evs).block <= tip
    requires oid in Seal(Run(evs), tip).market.offers && Promised(Seal(Run(evs), tip).market.offers[oid])
    ensures !Seal(Run(evs), tip).market.offers[oid].status.Cancelled?
  {
    hide Run, Prepare, Seal, Inv;
    assert evs + [] == evs;
    Continues(evs, []);
    PartsOf(Run(evs));
    FirmQuotesStand(evs);
    SealIsPrepare(Run(evs), tip);
    PrepareKeepsPromises(Run(evs), tip + 1);
  }

  lemma NonePromised()
    ensures PromisesKept(EMPTY)
  {
  }

  lemma StepKeepsPromises(L: Ledger, ev: Event)
    requires Inv(L) && Next(L, ev) && PromisesKept(L)
    ensures PromisesKept(Step(L, ev))
  {
    hide Prepare, Handle, Inv, PromisesKept, Next;
    if ev.height >= ACTIVATION_HEIGHT {
      NextHeight(L, ev);
      PartsOf(L);
      PrepareKeepsInv(L, ev.height);
      PrepareNext(L, ev);
      PrepareKeepsPromises(L, ev.height);
      HandleKeepsPromises(Prepare(L, ev.height), ev);
    }
  }
}
