/** One offer's lane: what the rest of a ledger has to do with the life of an offer. A client replays only the events of
    the lane (packages/cairnx/src/verifyfill.ts, FillSpvIo); but for the hold cap, that replay and the whole chain's keep
    the same offer. */
module Lanes {
  import opened Rules
  import opened Ledgers
  import opened Handlers
  import opened Replay
  import opened Closing
  import opened OfferInvariants
  import opened Moves
  import opened HeightInvariants
  import opened Conservation
  import opened NameSafety
  import opened HoldCap
  import opened HoldSafety
  import opened Provenance
  import opened Runs

  /** What a ledger holds of one offer: its record, and whether a cancel of it waits for the end of the block. */
  datatype Cell = Cell(offer: Option<Offer>, queued: bool)

  function OfferOf(L: Ledger, oid: Id): Option<Offer> { if oid in L.market.offers then Some(L.market.offers[oid]) else None }

  predicate Queues(cs: seq<Deferred>, oid: Id) { exists i :: 0 <= i < |cs| && oid in cs[i].targets }

  function CellOf(L: Ledger, oid: Id): Cell { Cell(OfferOf(L, oid), Queues(L.pendingCancels, oid)) }

  // ----- time passing -----

  function After(o: Offer, why: Reason): Offer {
    if o.status.Open? && Due(why, o) then o.(status := Outcome(why)) else o
  }

  /** The cell a handler sees at `height`, of a ledger at `block`. */
  function Wind(c: Cell, block: int, height: nat): Cell {
    if c.offer.None? then Cell(None, c.queued && height == block)
    else
      var o := if height != block && block >= 0 && c.queued then After(c.offer.value, Flush(block)) else c.offer.value;
      Cell(Some(After(o, Sweep(height))), c.queued && height == block)
  }

  lemma PassOffer(L: Ledger, ids: seq<Id>, why: Reason, oid: Id)
    requires oid in L.market.offers
    ensures var M := CloseAll(L, ids, why);
      oid in M.market.offers && M.market.offers[oid] == if oid in ids then After(L.market.offers[oid], why) else L.market.offers[oid]
  {
    hide CloseAll, Due, NamesUnlocked;
    CloseAllEffect(L, ids, why);
  }

  lemma QueuesPush(cs: seq<Deferred>, c: Deferred, oid: Id)
    ensures Queues(cs + [c], oid) <==> Queues(cs, oid) || oid in c.targets
  {
    var all := cs + [c];
    if Queues(cs, oid) {
      var i :| 0 <= i < |cs| && oid in cs[i].targets;
      assert all[i] == cs[i];
    }
    assert all[|cs|] == c;
  }

  lemma {:induction false} FlushOffer(L: Ledger, cs: seq<Deferred>, oid: Id, block: nat)
    requires oid in L.market.offers && forall i :: 0 <= i < |cs| ==> cs[i].height == block
    ensures var M := FlushFrom(L, cs);
      oid in M.market.offers
      && M.market.offers[oid] == if Queues(cs, oid) then After(L.market.offers[oid], Flush(block)) else L.market.offers[oid]
  {
    hide Queues, CloseAll;
    if cs == [] {
      assert !Queues(cs, oid) by { NoneQueued(oid); }
    } else {
      var rest, c := cs[..|cs| - 1], cs[|cs| - 1];
      assert cs == rest + [c];
      FlushOffer(L, rest, oid, block);
      PassOffer(FlushFrom(L, rest), c.targets, Flush(block), oid);
      QueuesPush(rest, c, oid);
    }
  }

  lemma NoneQueued(oid: Id)
    ensures !Queues([], oid)
  {
  }

  lemma PrepareCell(L: Ledger, height: nat, oid: Id)
    requires IndexInv(L) && TimeInv(L) && L.block <= height
    ensures CellOf(Prepare(L, height), oid) == Wind(CellOf(L, oid), L.block, height)
  {
    hide Prepare, CloseAll, Queues, Due, Past, Unexpired, BidIndex, NameIndex;
    PrepareWinds(L, height);
    assert !Queues([], oid) by { NoneQueued(oid); }
    if oid in L.market.offers {
      PrepareIs(L, height);
      var E := EnterBlock(L, height);
      if L.block >= 0 { FlushOffer(L, L.pendingCancels, oid, L.block); } else { NoQueue(L); }
      assert oid in E.market.offerIds;
      PassOffer(E, E.market.offerIds, Sweep(height), oid);
    }
  }

  lemma NoQueue(L: Ledger)
    requires QueueInv(L) && L.block < 0
    ensures L.pendingCancels == []
  {
    assert |L.pendingCancels| > 0 ==> L.pendingCancels[0].height == L.block;
  }

  /** What a ledger's cell is to a handler at `height`. */
  function View(L: Ledger, height: nat, oid: Id): Cell { CellOf(Prepare(L, height), oid) }

  lemma DueStays(o: Offer, from: nat, to: nat)
    requires from <= to && Due(Sweep(from), o)
    ensures Due(Sweep(to), o)
  {
    ExpiryHeightExact(o, from);
    ExpiryHeightExact(o, to);
  }

  /** Time passes over a cell alike, however often it is looked at on the way. */
  lemma ViewLater(L: Ledger, from: nat, to: nat, oid: Id)
    requires IndexInv(L) && TimeInv(L) && L.block <= from <= to
    ensures View(L, to, oid) == Wind(View(L, from, oid), from, to)
  {
    hide Prepare, IndexInv, Due, Past, EffExpiry;
    PrepareCell(L, from, oid);
    PrepareCell(L, to, oid);
    var c := CellOf(L, oid);
    if L.block < 0 { NoQueue(L); }
    if c.offer.Some? {
      var o := c.offer.value;
      if Due(Sweep(from), o) { DueStays(o, from, to); }
      assert L.block == from && o.status.Open? ==> !Due(Sweep(from), o);
    }
  }

  // ----- one event -----

  /** The rungs of both claim ladders that read the offer alone. */
  predicate Claimable(o: Offer, who: Addr, height: nat) {
    && o.status.Open? && o.taker.None? && o.want.CsdWant? && !ClaimHeld(o, height)
    && !(o.hold.Some? && o.hold.value.holder == who && height < HoldEnd(o) + CLAIM_COOLDOWN_BLOCKS)
  }

  predicate FclaimRungs(o: Offer, who: Addr, E: nat, height: nat) {
    && E <= MAX_SAFE_INTEGER && Claimable(o, who, height) && E <= EffExpiry(o.expiresEpoch, o.height, height)
    && EpochOf(height) <= E <= EpochOf(height) + FCLAIM_MAX_EPOCH_AHEAD
  }

  /** Would the event get a hold on the offer, were it not for the cap? */
  predicate Contends(o: Offer, ev: Event, routed: bool) {
    if ev.Propose? then
      IsFclaim(ev) && ev.rec.value.offer == o.id && ev.height >= V28_HEIGHT && FclaimRungs(o, ev.proposer, ev.expiresEpoch, ev.height)
    else
      routed && ev.score == SCORE_CLAIM && V17_HEIGHT <= ev.height < V28_HEIGHT && Claimable(o, ev.attester, ev.height)
  }

  predicate PortionShort(o: Offer, ev: Event)
    requires ev.Attest? && IsPartial(o) && PartialSane(o)
  {
    var X := Pt(ev.paidTo, o.want.payto);
    var p := PortionOf(o, X);
    X < Min(o.want.value - o.paid, o.min.value) || Pt(ev.paidTo, TREASURY_ADDR) < p.fee || p.newDelivered <= o.delivered
  }

  /** The offer after a fill attempt: its own terms and progress decide. */
  function Attempted(o: Offer, ev: Event): Offer
    requires ev.Attest? && o.want.CsdWant?
  {
    if IsPartial(o) then
      if !PartialSane(o) || FillBarred(o, ev) || PortionShort(o, ev) then o else AfterPortion(o, PortionEntry(o, ev))
    else if FillBarred(o, ev) || !Dominates(ev.paidTo, Needs(o)) then o
    else FilledOffer(o, FillEntry(ev.attester, ev.id, ev.height, Pt(ev.paidTo, o.want.payto), FeeAt(o.want.value, o.feeBps), 0))
  }

  function Cancelling(c: Cell, height: nat): Cell
    requires c.offer.Some?
  {
    if height >= V14_HEIGHT then c.(queued := true) else c.(offer := Some(c.offer.value.(status := Cancelled)))
  }

  /** The cell after an event, but for the offer's own: besides the cell it takes only whether an attest routes to the
      offer, and whether its author has room under the hold cap. */
  function CellAfter(c: Cell, ev: Event, routed: bool, room: bool): Cell
    requires c.offer.Some? ==> c.offer.value.want.CsdWant?
  {
    if c.offer.None? then c
    else
      var o := c.offer.value;
      if Contends(o, ev, routed) then
        if !room then c
        else if ev.Propose? then
          c.(offer := Some(o.(hold := Some(Hold(ev.proposer, (ev.expiresEpoch + 1) * EPOCH_LEN)), claimTxid := Some(ev.id))))
        else c.(offer := Some(o.(hold := Some(Hold(ev.attester, ev.height + ClaimWindowAt(ev.height))))))
      else if ev.Propose? then
        if ev.rec.Some? && ev.rec.value.Ocancel? && ev.height >= V12_HEIGHT
           && OcancelTarget(o, ev.proposer, ev.rec.value.onlyTicker, ev.rec.value.onlyName) then Cancelling(c, ev.height)
        else c
      else if !routed then c
      else if ev.score == SCORE_CANCEL then
        if ev.attester == o.seller && o.status.Open? && !Firm(o) then Cancelling(c, ev.height) else c
      else if ev.score == SCORE_FILL then c.(offer := Some(Attempted(o, ev)))
      else c
  }

  predicate RoutesHere(L: Ledger, ev: Event, oid: Id) { ev.Attest? && Routed(L, ev) == Some(oid) }

  function Author(ev: Event): Addr { if ev.Propose? then ev.proposer else ev.attester }

  predicate Room(L: Ledger, ev: Event) { LiveHoldCount(L, Author(ev), ev.height) < MAX_ACTIVE_CLAIMS }

  /** An offer from after the sale embargo is not voided: its name can be neither displaced nor recaptured. */
  lemma RevealSpares(L: Ledger, ev: Event, nm: string, revealed: Option<Hash>, oid: Id)
    requires NameInv(L) && TimeInv(L) && L.block == ev.height && ev.Propose?
    requires oid in L.market.offers && L.market.offers[oid].height >= V13_HEIGHT
    ensures OfferOf(ApplyName(L, ev, nm, revealed), oid) == OfferOf(L, oid)
  {
    hide CloseAll, NameInv, TimeInv, NameRegFee, ExpiredClaimFee, PendingOf, RecapturesOf, Beats, Past;
    PassOffer(L, L.market.offerIds, Void(nm, ev.height), oid);
    if Lists(L.market.offers, oid, nm) {
      TimeParts(L);
      ListedNotLapsed(L, oid, nm, ev.height);
      ListedStands(L, ev, nm, revealed, oid);
    }
  }

  lemma TimeParts(L: Ledger)
    requires TimeInv(L)
    ensures Past(L) && (L.block >= 0 ==> Unexpired(L.market.offers, L.block))
  {
  }

  /** No reveal beats the record of a name listed after the sale embargo. */
  lemma ListedStands(L: Ledger, ev: Event, nm: string, revealed: Option<Hash>, oid: Id)
    requires NameInv(L) && Past(L) && L.block == ev.height
    requires Lists(L.market.offers, oid, nm) && L.market.offers[oid].height >= V13_HEIGHT
    ensures var eff := EffHeight(L, ev.height, revealed);
      eff.Some? ==> !Beats(eff.value, ev, Current(L, nm, ev.height))
  {
    hide NameInv, Past, EffHeight, Beats, Current;
    var eff := EffHeight(L, ev.height, revealed);
    if eff.Some? && Beats(eff.value, ev, Current(L, nm, ev.height)) {
      ListedNotBeaten(L, oid, nm, ev, eff.value, revealed);
    }
  }

  lemma FinalizeSpares(L: Ledger, ev: Event, nm: string, opening: Hash, oid: Id)
    requires NameInv(L) && TimeInv(L) && L.block == ev.height && ev.Propose? && oid in L.market.offers
    ensures OfferOf(ApplyNfinalize(L, ev, nm, opening), oid) == OfferOf(L, oid)
  {
    hide CloseAll, NameInv, TimeInv, NameRegFee, ExpiredClaimFee, Finalizable, Past;
    PassOffer(L, L.market.offerIds, Void(nm, ev.height), oid);
    if Lists(L.market.offers, oid, nm) {
      TimeParts(L);
      ListedNotLapsed(L, oid, nm, ev.height);
    }
  }

  lemma {:induction false} TargetsHold(L: Ledger, ids: seq<Id>, who: Addr, t: Option<string>, nm: Option<string>, oid: Id)
    ensures oid in OcancelTargets(L, ids, who, t, nm)
            <==> oid in ids && oid in L.market.offers && OcancelTarget(L.market.offers[oid], who, t, nm)
  {
    if ids != [] {
      TargetsHold(L, ids[..|ids| - 1], who, t, nm, oid);
      assert ids == ids[..|ids| - 1] + [ids[|ids| - 1]];
    }
  }

  /** The ladder's verdict is its rungs and the room under the cap. */
  lemma GrantsIs(L: Ledger, oid: Id, who: Addr, E: nat, height: nat)
    requires oid in L.market.offers
    ensures Grants(L, oid, who, E, height)
            <==> FclaimRungs(L.market.offers[oid], who, E, height) && LiveHoldCount(L, who, height) < MAX_ACTIVE_CLAIMS
  {
  }

  /** What a proposal other than the offer's own does to the cell. */
  lemma ProposeCell(L: Ledger, ev: Event, oid: Id)
    requires Inv(L) && Next(L, ev) && L.block == ev.height && ev.Propose? && ev.id != oid
    requires oid in L.market.offers ==> L.market.offers[oid].want.CsdWant? && L.market.offers[oid].height >= V13_HEIGHT
    ensures CellOf(ApplyPropose(L, ev), oid) == CellAfter(CellOf(L, oid), ev, false, Room(L, ev))
  {
    hide Queues, Grants, FclaimRungs, LiveHoldCount, CloseAll, OcancelTarget, OcancelTargets, Next;
    hide IndexInv, OffersInv, TimeInv, TokenInv, NameInv, CapOk;
    hide ApplyName, ApplyNfinalize, ApplyOffer, EnvelopeRefused, ApplyDeploy, ApplyMint, ApplyTransfer;
    InvIndex(L, oid);
    match ev.rec
    case Some(Name(nm, revealed)) =>
      NameCell(L, ev, oid);
    case Some(Nfinalize(nm, opening)) =>
      NameCell(L, ev, oid);
    case Some(OfferRec(_, _, _, _, _)) => OtherOffer(L, ev, ev.rec.value, oid);
    case Some(Ocancel(t, nm)) => OcancelCell(L, ev, t, nm, oid);
    case Some(FclaimRec(x)) => FclaimCell(L, ev, x, oid);
    case _ => OtherPropose(L, ev);
  }

  lemma FclaimCell(L: Ledger, ev: Event, x: Id, oid: Id)
    requires ev.Propose? && ev.rec == Some(FclaimRec(x)) && (oid in L.market.offers ==> L.market.offers[oid].id == oid)
    requires oid in L.market.offers ==> L.market.offers[oid].want.CsdWant?
    ensures CellOf(ApplyFclaim(L, ev, x), oid) == CellAfter(CellOf(L, oid), ev, false, Room(L, ev))
  {
    hide Queues, Grants, FclaimRungs, LiveHoldCount;
    assert x !in L.market.offers ==> !Grants(L, x, ev.proposer, ev.expiresEpoch, ev.height) by { GrantsNeedsOffer(L, x, ev); }
    if x in L.market.offers { GrantsIs(L, x, ev.proposer, ev.expiresEpoch, ev.height); }
  }

  lemma GrantsNeedsOffer(L: Ledger, x: Id, ev: Event)
    requires ev.Propose?
    ensures Grants(L, x, ev.proposer, ev.expiresEpoch, ev.height) ==> x in L.market.offers
  {
  }

  lemma InvIndex(L: Ledger, oid: Id)
    requires Inv(L)
    ensures oid in L.market.offerIds <==> oid in L.market.offers
    ensures oid in L.market.offers ==> L.market.offers[oid].id == oid
  {
    if oid in L.market.offers { assert OfferOk(oid, L.market.offers[oid]); }
  }

  lemma NameCell(L: Ledger, ev: Event, oid: Id)
    requires Inv(L) && L.block == ev.height && ev.Propose? && ev.rec.Some? && (ev.rec.value.Name? || ev.rec.value.Nfinalize?)
    requires oid in L.market.offers ==> L.market.offers[oid].height >= V13_HEIGHT
    ensures CellOf(ApplyPropose(L, ev), oid) == CellOf(L, oid)
  {
    hide CloseAll, ApplyName, ApplyNfinalize, IndexInv, OffersInv, TimeInv, TokenInv, NameInv, CapOk, Queues;
    match ev.rec.value
    case Name(nm, revealed) =>
      NameShape(L, ev, nm, revealed);
      CloseAllEffect(L, L.market.offerIds, Void(nm, ev.height));
      if oid in L.market.offers { RevealSpares(L, ev, nm, revealed, oid); }
    case Nfinalize(nm, opening) =>
      NfinalizeShape(L, ev, nm, opening);
      CloseAllEffect(L, L.market.offerIds, Void(nm, ev.height));
      if oid in L.market.offers { FinalizeSpares(L, ev, nm, opening, oid); }
  }

  lemma OtherOffer(L: Ledger, ev: Event, rec: Record, oid: Id)
    requires ev.Propose? && rec.OfferRec? && ev.id != oid
    ensures CellOf(ApplyOffer(L, ev, rec), oid) == CellOf(L, oid)
  {
    hide Queues, EnvelopeRefused, Listable, Credit, BalOf;
  }

  lemma OtherPropose(L: Ledger, ev: Event)
    requires ev.Propose? && ev.rec.Some? ==> !ev.rec.value.Name? && !ev.rec.value.Nfinalize? && !ev.rec.value.OfferRec?
    requires ev.Propose? && (ev.rec.Some? ==> !ev.rec.value.Ocancel? && !ev.rec.value.FclaimRec?)
    ensures ApplyPropose(L, ev).market == L.market && ApplyPropose(L, ev).pendingCancels == L.pendingCancels
  {
  }

  lemma OcancelCell(L: Ledger, ev: Event, t: Option<string>, nm: Option<string>, oid: Id)
    requires ev.Propose? && ev.rec == Some(Ocancel(t, nm)) && (oid in L.market.offerIds <==> oid in L.market.offers)
    requires oid in L.market.offers ==> L.market.offers[oid].want.CsdWant?
    ensures CellOf(ApplyOcancel(L, ev, t, nm), oid) == CellAfter(CellOf(L, oid), ev, false, Room(L, ev))
  {
    hide Queues, CloseAll, OcancelTargets, LiveHoldCount;
    var targets := OcancelTargets(L, L.market.offerIds, ev.proposer, t, nm);
    TargetsHold(L, L.market.offerIds, ev.proposer, t, nm, oid);
    QueuesPush(L.pendingCancels, Deferred(targets, ev.height), oid);
    CloseAllEffect(L, targets, Immediate);
    if oid in L.market.offers { PassOffer(L, targets, Immediate, oid); }
  }

  lemma CancelCell(L: Ledger, ev: Event, oid: Id)
    requires ev.Attest? && ev.score == SCORE_CANCEL && oid in L.market.offers && L.market.offers[oid].want.CsdWant?
    ensures CellOf(ApplyCancel(L, ev, oid), oid) == CellAfter(CellOf(L, oid), ev, true, Room(L, ev))
  {
    hide Queues, LiveHoldCount, Close;
    QueuesPush(L.pendingCancels, Deferred([oid], ev.height), oid);
    CloseEffect(L, oid, Cancelled);
  }

  lemma OtherCancel(L: Ledger, ev: Event, x: Id, oid: Id)
    requires ev.Attest? && x in L.market.offers && x != oid
    ensures CellOf(ApplyCancel(L, ev, x), oid) == CellOf(L, oid)
  {
    hide Queues, Close;
    QueuesPush(L.pendingCancels, Deferred([x], ev.height), oid);
    CloseEffect(L, x, Cancelled);
  }

  /** A fill leaves exactly what the offer's own terms and progress decide: its give is always there. */
  lemma FillOffer(L: Ledger, ev: Event, oid: Id)
    requires Inv(L) && ev.Attest? && ev.score == SCORE_FILL && Routed(L, ev) == Some(oid) && L.market.offers[oid].want.CsdWant?
    ensures OfferOf(ApplyAttest(L, ev), oid) == Some(Attempted(L.market.offers[oid], ev))
  {
    hide ApplyAttest, Inv, FillBarred, PortionEntry, Needs, Dominates;
    PartsOf(L);
    FillMoves(L, ev, oid);
    var o := L.market.offers[oid];
    if o.status.Open? { GiveThere(L, oid); }
    BarredUnlessOpen(o, ev);
  }

  lemma BarredUnlessOpen(o: Offer, ev: Event)
    requires ev.Attest?
    ensures !o.status.Open? ==> FillBarred(o, ev)
  {
  }

  lemma PartsOf(L: Ledger)
    requires Inv(L)
    ensures OffersInv(L) && IndexInv(L) && TimeInv(L) && NameInv(L) && IdsApart(L)
  {
  }

  lemma GiveThere(L: Ledger, oid: Id)
    requires Inv(L) && oid in L.market.offers && L.market.offers[oid].status.Open?
    ensures GiveReady(L, L.market.offers[oid]) && L.market.offers[oid].id == oid
  {
    var o := L.market.offers[oid];
    assert OfferOk(oid, o);
    if o.give.NameGive? { assert Lists(L.market.offers, oid, o.give.name); }
  }

  lemma ClaimCell(L: Ledger, ev: Event, oid: Id)
    requires ev.Attest? && ev.score == SCORE_CLAIM && ev.height >= V17_HEIGHT
    requires oid in L.market.offers && L.market.offers[oid].want.CsdWant?
    ensures CellOf(ApplyLegacyClaim(L, ev, oid), oid) == CellAfter(CellOf(L, oid), ev, true, Room(L, ev))
  {
    hide Queues, LiveHoldCount;
  }

  lemma OtherMove(L: Ledger, ev: Event, oid: Id)
    requires Inv(L) && ev.Attest? && Routed(L, ev) != Some(oid)
    ensures OfferOf(ApplyAttest(L, ev), oid) == OfferOf(L, oid)
  {
    hide Inv, ApplyAttest, LegacyGrants, OffersInv, IndexInv, TimeInv, NameInv, IdsApart, FillMove, Routed, NamesUnlocked, Due;
    PartsOf(L);
    AttestMoves(L, ev);
    if Routed(L, ev).Some? {
      RoutedIn(L, ev, Routed(L, ev).value);
      FillMovesIts(L, ev, Routed(L, ev).value);
    }
  }

  lemma FillMovesIts(L: Ledger, ev: Event, x: Id)
    requires ev.Attest? && x in L.market.offers
    ensures match FillMove(L, ev, x) case Still => true case Replaced(y, _) => y == x case _ => false
  {
    hide TokenFillRefused, FillBarred, PartialRefused, WholeFills, AfterPortion, PortionEntry;
  }

  /** An attest that routes elsewhere leaves the cell. */
  lemma OtherAttest(L: Ledger, ev: Event, oid: Id)
    requires Inv(L) && ev.Attest? && Routed(L, ev) != Some(oid)
    ensures CellOf(ApplyAttest(L, ev), oid) == CellOf(L, oid)
  {
    hide Inv, Queues, ApplyCancel, ApplyFill, ApplyTokenFill, ApplyPartialFill, LegacyGrants, BidsShape, NamesShape, Routed;
    OtherMove(L, ev, oid);
    if Routed(L, ev).Some? {
      RoutedIn(L, ev, Routed(L, ev).value);
      var x := Routed(L, ev).value;
      OtherCancel(L, ev, x, oid);
      if L.market.offers[x].want.TokenWant? { TokenFillShape(L, ev, x); } else { WholeFillShape(L, ev, x); }
      if IsPartial(L.market.offers[x]) { PartialFillShape(L, ev, x); }
    }
  }

  /** What an attest does to the cell. */
  lemma AttestCell(L: Ledger, ev: Event, oid: Id)
    requires Inv(L) && ev.Attest? && (oid in L.market.offers ==> L.market.offers[oid].want.CsdWant?)
    ensures CellOf(ApplyAttest(L, ev), oid) == CellAfter(CellOf(L, oid), ev, RoutesHere(L, ev, oid), Room(L, ev))
  {
    hide Inv, Queues, LiveHoldCount, Claimable, Attempted, Routed;
    hide ApplyCancel, ApplyFill, ApplyTokenFill, ApplyPartialFill, ApplyLegacyClaim;
    if Routed(L, ev) != Some(oid) {
      OtherAttest(L, ev, oid);
    } else {
      RoutedIn(L, ev, oid);
      if ev.score == SCORE_CANCEL {
        CancelCell(L, ev, oid);
      } else if ev.score == SCORE_FILL {
        FillOffer(L, ev, oid);
        var o := L.market.offers[oid];
        WholeFillShape(L, ev, oid);
        if IsPartial(o) { PartialFillShape(L, ev, oid); }
      } else if ev.height >= V17_HEIGHT && ev.score == SCORE_CLAIM {
        ClaimCell(L, ev, oid);
      }
    }
  }

  lemma RoutedIn(L: Ledger, ev: Event, oid: Id)
    requires ev.Attest? && Routed(L, ev) == Some(oid)
    ensures oid in L.market.offers
  {
  }

  /** What an event other than the offer's own does to the offer: nothing of the rest of the ledger counts but the
      routing of an attest and the author's room under the cap. */
  lemma HandleCell(L: Ledger, ev: Event, oid: Id)
    requires Inv(L) && Next(L, ev) && L.block == ev.height && (ev.Propose? ==> ev.id != oid)
    requires oid in L.market.offers ==> L.market.offers[oid].want.CsdWant? && L.market.offers[oid].height >= V13_HEIGHT
    ensures CellOf(Handle(L, ev), oid) == CellAfter(CellOf(L, oid), ev, RoutesHere(L, ev, oid), Room(L, ev))
  {
    hide ApplyPropose, ApplyAttest, CellAfter, CellOf, Room, Inv, Next;
    if ev.Propose? { ProposeCell(L, ev, oid); } else { AttestCell(L, ev, oid); }
  }

  // ----- the lane -----

  /** The fclaims of `evs` on the offer. */
  function LaneFclaims(evs: seq<Event>, oid: Id): set<Id> {
    set i | 0 <= i < |evs| && IsFclaim(evs[i]) && evs[i].rec.value.offer == oid :: evs[i].id
  }

  /** The events of the offer's lane: the offer, the fclaims on it, its seller's cancels of many, the attests on any of them. */
  predicate Bears(ev: Event, offer: Event, fclaims: set<Id>)
    requires IsOffer(offer)
  {
    if ev.Propose? then ev.id == offer.id || ev.id in fclaims || (ev.rec.Some? && ev.rec.value.Ocancel? && ev.proposer == offer.proposer)
    else ev.proposalId == offer.id || ev.proposalId in fclaims
  }

  /** The proposals that may stand beside the lane to back the give: anything but another offer or fclaim. */
  predicate Backing(ev: Event) { ev.Propose? && (ev.rec.Some? ==> !ev.rec.value.OfferRec? && !ev.rec.value.FclaimRec?) }

  /** The ledger's fclaims and offers are told apart from the lane's by their ids. */
  ghost predicate LaneIds(L: Ledger, oid: Id, fclaims: set<Id>) {
    (forall f :: f in L.fclaims ==> (f in fclaims <==> L.fclaims[f].offer == oid)) && fclaims !! L.market.offers.Keys
  }

  predicate EventFits(ev: Event, oid: Id, fclaims: set<Id>) {
    ev.Propose? ==> (ev.id in fclaims <==> IsFclaim(ev) && ev.rec.value.offer == oid)
  }

  ghost predicate SameFclaims(C: Ledger, K: Ledger, fclaims: set<Id>) {
    forall f :: f in fclaims ==> (f in C.fclaims <==> f in K.fclaims) && (f in C.fclaims ==> C.fclaims[f] == K.fclaims[f])
  }

  /** Does the attest reach the offer, by the offer's own record and the lane's fclaims? */
  predicate LaneRouted(o: Option<Offer>, known: map<Id, Fclaim>, ev: Event, oid: Id, fclaims: set<Id>) {
    ev.Attest? && o.Some?
    && (ev.proposalId == oid
        || (ev.proposalId in fclaims && ev.height >= V28_HEIGHT && ev.score == SCORE_FILL && ev.proposalId in known
            && known[ev.proposalId].granted && o.value.claimTxid == Some(ev.proposalId)))
  }

  lemma RouteIsLane(L: Ledger, ev: Event, oid: Id, fclaims: set<Id>)
    requires LaneIds(L, oid, fclaims)
    ensures RoutesHere(L, ev, oid) <==> LaneRouted(OfferOf(L, oid), L.fclaims, ev, oid, fclaims)
  {
  }

  /** The cap alone refuses the event a hold on the offer. */
  predicate CapRefused(L: Ledger, ev: Event, oid: Id) {
    oid in L.market.offers && Contends(L.market.offers[oid], ev, RoutesHere(L, ev, oid)) && !Room(L, ev)
  }

  /** The offer of `ev` in the ledger, if it is there, has its terms. */
  predicate OwnTerms(L: Ledger, offer: Event) {
    offer.id in L.market.offers ==>
      var o := L.market.offers[offer.id];
      Makes(offer, o) && o.want.CsdWant? && o.height >= V13_HEIGHT && o.seller == offer.proposer && o.id == offer.id
  }

  /** An event outside the lane leaves the cell. */
  lemma OutsideLane(P: Ledger, ev: Event, offer: Event, fclaims: set<Id>)
    requires Inv(P) && Next(P, ev) && P.block == ev.height && IsOffer(offer) && OwnTerms(P, offer)
    requires LaneIds(P, offer.id, fclaims) && EventFits(ev, offer.id, fclaims) && !Bears(ev, offer, fclaims)
    ensures CellOf(Handle(P, ev), offer.id) == CellOf(P, offer.id)
  {
    hide Handle, Inv, Next, Claimable, Room, Queues, LaneIds, Makes;
    RouteIsLane(P, ev, offer.id, fclaims);
    HandleCell(P, ev, offer.id);
  }

  /** In a ledger that knows no other offer, nobody who contends for this one is at the cap. */
  lemma RoomAlone(Q: Ledger, ev: Event, oid: Id)
    requires Q.market.offers.Keys <= {oid} && oid in Q.market.offers && Contends(Q.market.offers[oid], ev, RoutesHere(Q, ev, oid))
    ensures Room(Q, ev)
  {
    var held := LiveHolds(Q.market.offers, Author(ev), ev.height);
    assert held == {};
  }

  /** An event of the lane does the same to the same cell. */
  lemma InLane(P: Ledger, Q: Ledger, ev: Event, offer: Event, fclaims: set<Id>)
    requires Inv(P) && Next(P, ev) && P.block == ev.height && Inv(Q) && Next(Q, ev) && Q.block == ev.height
    requires IsOffer(offer) && OwnTerms(P, offer) && OwnTerms(Q, offer)
    requires CellOf(P, offer.id) == CellOf(Q, offer.id) && SameFclaims(P, Q, fclaims)
    requires LaneIds(P, offer.id, fclaims) && LaneIds(Q, offer.id, fclaims) && Q.market.offers.Keys <= {offer.id}
    requires (ev.Propose? ==> ev.id != offer.id) && !CapRefused(P, ev, offer.id)
    ensures CellOf(Handle(P, ev), offer.id) == CellOf(Handle(Q, ev), offer.id)
  {
    hide Handle, Inv, Next, Contends, Room, Queues, LaneIds, Makes, Attempted, OcancelTarget;
    var oid := offer.id;
    RouteIsLane(P, ev, oid, fclaims);
    RouteIsLane(Q, ev, oid, fclaims);
    HandleCell(P, ev, oid);
    HandleCell(Q, ev, oid);
    if oid in Q.market.offers && Contends(Q.market.offers[oid], ev, RoutesHere(Q, ev, oid)) { RoomAlone(Q, ev, oid); }
  }

  /** What an event adds to the fclaims and the offers keeps the lane's ids apart, and the same on both sides. */
  lemma HandleIds(P: Ledger, ev: Event, oid: Id, fclaims: set<Id>)
    requires Inv(P) && Next(P, ev) && LaneIds(P, oid, fclaims) && EventFits(ev, oid, fclaims)
    ensures var M := Handle(P, ev);
      && LaneIds(M, oid, fclaims)
      && M.fclaims == (if IsFclaim(ev) && ev.height >= V28_HEIGHT
                       then P.fclaims[ev.id := Fclaim(ev.rec.value.offer, ev.proposer, ev.expiresEpoch, ev.height,
                                                      Grants(P, ev.rec.value.offer, ev.proposer, ev.expiresEpoch, ev.height))]
                       else P.fclaims)
      && M.market.offers.Keys <= P.market.offers.Keys + {ev.id}
      && (ev.Attest? || !(ev.rec.Some? && ev.rec.value.OfferRec?) ==> M.market.offers.Keys == P.market.offers.Keys)
  {
    hide Handle, MoveOf, Grants, IndexInv, TimeInv, TokenInv, NameInv, CapOk;
    HandleQueue(P, ev);
    HandleMoves(P, ev);
    if MoveOf(P, ev).Added? { AddedIsNew(P, ev); }
    if IsFclaim(ev) && ev.height >= V28_HEIGHT { FclaimRecorded(P, ev); }
  }

  lemma FclaimRecorded(P: Ledger, ev: Event)
    requires IsFclaim(ev) && ev.height >= V28_HEIGHT
    ensures Handle(P, ev).fclaims
            == P.fclaims[ev.id := Fclaim(ev.rec.value.offer, ev.proposer, ev.expiresEpoch, ev.height,
                                         Grants(P, ev.rec.value.offer, ev.proposer, ev.expiresEpoch, ev.height))]
  {
    hide Grants;
  }

  /** A lane fclaim is granted on both sides or on neither. */
  lemma SameGrant(P: Ledger, Q: Ledger, ev: Event, offer: Event)
    requires IsFclaim(ev) && ev.rec.value.offer == offer.id && ev.height >= V28_HEIGHT && OwnTerms(P, offer)
    requires OfferOf(P, offer.id) == OfferOf(Q, offer.id) && Q.market.offers.Keys <= {offer.id} && !CapRefused(P, ev, offer.id)
    ensures Grants(P, offer.id, ev.proposer, ev.expiresEpoch, ev.height) == Grants(Q, offer.id, ev.proposer, ev.expiresEpoch, ev.height)
  {
    hide Grants, FclaimRungs, Makes;
    var oid := offer.id;
    if oid in P.market.offers {
      GrantsIs(P, oid, ev.proposer, ev.expiresEpoch, ev.height);
      GrantsIs(Q, oid, ev.proposer, ev.expiresEpoch, ev.height);
      if Contends(Q.market.offers[oid], ev, RoutesHere(Q, ev, oid)) { RoomAlone(Q, ev, oid); }
    } else {
      GrantsNeedsOffer(P, oid, ev);
      GrantsNeedsOffer(Q, oid, ev);
    }
  }

  // ----- the lane's replay and the chain's -----

  /** The two ledgers show a handler at `height` the same offer, and know the same of its fclaims. */
  ghost predicate SameLane(C: Ledger, K: Ledger, height: nat, oid: Id, fclaims: set<Id>) {
    && C.block <= height && K.block <= height && View(C, height, oid) == View(K, height, oid)
    && SameFclaims(C, K, fclaims) && LaneIds(C, oid, fclaims) && LaneIds(K, oid, fclaims) && K.market.offers.Keys <= {oid}
  }

  lemma SameLater(C: Ledger, K: Ledger, from: nat, to: nat, oid: Id, fclaims: set<Id>)
    requires Inv(C) && Inv(K) && SameLane(C, K, from, oid, fclaims) && from <= to
    ensures SameLane(C, K, to, oid, fclaims)
  {
    hide Inv, View, LaneIds, SameFclaims;
    PartsOf(C);
    PartsOf(K);
    ViewLater(C, from, to, oid);
    ViewLater(K, from, to, oid);
  }

  /** What a handler is handed. */
  lemma PreparedLane(L: Ledger, ev: Event, offer: Event, fclaims: set<Id>)
    requires Inv(L) && Next(L, ev) && LaneIds(L, offer.id, fclaims)
    ensures var P := Prepare(L, ev.height);
      && Inv(P) && Next(P, ev) && P.block == ev.height && LaneIds(P, offer.id, fclaims)
      && P.fclaims == L.fclaims && P.market.offers.Keys == L.market.offers.Keys && (OwnTerms(L, offer) ==> OwnTerms(P, offer))
  {
    hide Prepare, Inv, Next, OwnTerms, IndexInv, TimeInv, OffersInv, NameInv;
    NextHeight(L, ev);
    PrepareKeepsInv(L, ev.height);
    PrepareNext(L, ev);
    PartsOf(L);
    PrepareWinds(L, ev.height);
    if OwnTerms(L, offer) { PreparedTerms(L, ev.height, offer); }
  }

  lemma PreparedTerms(L: Ledger, height: nat, offer: Event)
    requires IndexInv(L) && OwnTerms(L, offer)
    ensures OwnTerms(Prepare(L, height), offer)
  {
    hide Prepare, IndexInv;
    PrepareWinds(L, height);
    assert offer.id in L.market.offers ==> Wound(L.market.offers[offer.id], Prepare(L, height).market.offers[offer.id]);
  }

  /** After an event a handler at its height sees the cell the event left. */
  lemma StepView(L: Ledger, ev: Event, oid: Id)
    requires Inv(L) && Next(L, ev) && ev.height >= ACTIVATION_HEIGHT
    ensures View(Step(L, ev), ev.height, oid) == CellOf(Handle(Prepare(L, ev.height), ev), oid)
    ensures Inv(Step(L, ev)) && Step(L, ev).block == ev.height
  {
    hide Prepare, Handle, Inv, Next, Queues, Due;
    NextHeight(L, ev);
    PrepareKeepsInv(L, ev.height);
    PrepareNext(L, ev);
    HandleKeepsInv(Prepare(L, ev.height), ev);
    var M := Step(L, ev);
    PartsOf(M);
    PrepareCell(M, ev.height, oid);
    TimeParts(M);
  }

  /** An event outside the lane: only the chain meets it. */
  lemma StepOutside(C: Ledger, K: Ledger, ev: Event, offer: Event, fclaims: set<Id>)
    requires Inv(C) && Inv(K) && Next(C, ev) && SameLane(C, K, ev.height, offer.id, fclaims) && IsOffer(offer) && OwnTerms(C, offer)
    requires EventFits(ev, offer.id, fclaims) && !Bears(ev, offer, fclaims)
    ensures SameLane(Step(C, ev), K, ev.height, offer.id, fclaims)
  {
    hide Prepare, Handle, Inv, Next, CellOf, Bears, Makes;
    if ev.height >= ACTIVATION_HEIGHT {
      PreparedLane(C, ev, offer, fclaims);
      var P := Prepare(C, ev.height);
      OutsideLane(P, ev, offer, fclaims);
      HandleIds(P, ev, offer.id, fclaims);
      StepView(C, ev, offer.id);
      OutsideFclaims(ev, offer, fclaims);
    }
  }

  lemma OutsideFclaims(ev: Event, offer: Event, fclaims: set<Id>)
    requires IsOffer(offer) && EventFits(ev, offer.id, fclaims) && !Bears(ev, offer, fclaims)
    ensures IsFclaim(ev) ==> ev.id !in fclaims
  {
  }

  /** An event both meet, other than the offer's own. */
  lemma StepInside(C: Ledger, K: Ledger, ev: Event, offer: Event, fclaims: set<Id>)
    requires Inv(C) && Inv(K) && Next(C, ev) && Next(K, ev) && SameLane(C, K, ev.height, offer.id, fclaims)
    requires IsOffer(offer) && OwnTerms(C, offer) && EventFits(ev, offer.id, fclaims)
    requires (ev.Propose? ==> ev.id != offer.id) && (Bears(ev, offer, fclaims) || Backing(ev))
    requires !CapRefused(Prepare(C, ev.height), ev, offer.id)
    ensures SameLane(Step(C, ev), Step(K, ev), ev.height, offer.id, fclaims)
  {
    hide Prepare, Handle, Inv, Next, CellOf, Makes, Grants, LaneIds, CapRefused, OwnTerms;
    if ev.height >= ACTIVATION_HEIGHT {
      var P, Q := Prepare(C, ev.height), Prepare(K, ev.height);
      PreparedLane(C, ev, offer, fclaims);
      PreparedLane(K, ev, offer, fclaims);
      SameOffer(P, Q, offer.id);
      SameTermsThere(P, Q, offer);
      InLane(P, Q, ev, offer, fclaims);
      HandleIds(P, ev, offer.id, fclaims);
      HandleIds(Q, ev, offer.id, fclaims);
      StepView(C, ev, offer.id);
      StepView(K, ev, offer.id);
      InsideIsNoOffer(ev, offer, fclaims);
      if IsFclaim(ev) && ev.height >= V28_HEIGHT { SameGrant(P, Q, ev, offer); }
    }
  }

  lemma SameOffer(P: Ledger, Q: Ledger, oid: Id)
    requires CellOf(P, oid) == CellOf(Q, oid)
    ensures OfferOf(P, oid) == OfferOf(Q, oid)
  {
  }

  lemma SameTermsThere(P: Ledger, Q: Ledger, offer: Event)
    requires OfferOf(P, offer.id) == OfferOf(Q, offer.id) && OwnTerms(P, offer)
    ensures OwnTerms(Q, offer)
  {
    hide Makes;
    assert offer.id in Q.market.offers ==> OfferOf(P, offer.id) == Some(Q.market.offers[offer.id]);
  }

  lemma InsideIsNoOffer(ev: Event, offer: Event, fclaims: set<Id>)
    requires IsOffer(offer) && EventFits(ev, offer.id, fclaims) && (Bears(ev, offer, fclaims) || Backing(ev))
    requires ev.Propose? ==> ev.id != offer.id
    ensures ev.Propose? && ev.rec.Some? ==> !ev.rec.value.OfferRec?
    ensures IsFclaim(ev) ==> ev.rec.value.offer == offer.id
  {
  }

  /** The offer's own event, admitted by both. */
  lemma StepOwn(C: Ledger, K: Ledger, offer: Event, fclaims: set<Id>)
    requires Inv(C) && Inv(K) && Next(C, offer) && Next(K, offer) && SameLane(C, K, offer.height, offer.id, fclaims)
    requires IsOffer(offer) && EventFits(offer, offer.id, fclaims)
    requires offer.id in Step(C, offer).market.offers && offer.id in Step(K, offer).market.offers
    ensures SameLane(Step(C, offer), Step(K, offer), offer.height, offer.id, fclaims)
  {
    hide Prepare, Handle, Inv, LaneIds, Queues;
    if offer.height >= ACTIVATION_HEIGHT {
      var P, Q := Prepare(C, offer.height), Prepare(K, offer.height);
      PreparedLane(C, offer, offer, fclaims);
      PreparedLane(K, offer, offer, fclaims);
      OwnCell(P, offer);
      OwnCell(Q, offer);
      HandleIds(P, offer, offer.id, fclaims);
      HandleIds(Q, offer, offer.id, fclaims);
      StepView(C, offer, offer.id);
      StepView(K, offer, offer.id);
    }
  }

  lemma OwnCell(P: Ledger, offer: Event)
    requires Inv(P) && Next(P, offer) && IsOffer(offer) && offer.id in Handle(P, offer).market.offers
    ensures CellOf(Handle(P, offer), offer.id) == CellOf(P, offer.id).(offer := Some(NewOffer(offer, offer.rec.value)))
  {
    hide Queues, EnvelopeRefused, Listable, Credit, BalOf, IndexInv, OffersInv, TimeInv, TokenInv, NameInv, CapOk;
  }

  // ----- whole chains -----

  /** The part of a chain whose ids are in `keep`, in order. */
  function Kept(evs: seq<Event>, keep: set<Id>): seq<Event> {
    if evs == [] then []
    else Kept(evs[..|evs| - 1], keep) + if evs[|evs| - 1].id in keep then [evs[|evs| - 1]] else []
  }

  lemma {:induction false} KeptIs(evs: seq<Event>, keep: set<Id>)
    requires Feed(evs)
    ensures Feed(Kept(evs, keep)) && forall e :: e in Kept(evs, keep) <==> e in evs && e.id in keep
  {
    hide Before, EventOk;
    if evs != [] {
      var rest, ev := evs[..|evs| - 1], evs[|evs| - 1];
      assert evs == rest + [ev];
      FeedParts(rest, [ev]);
      KeptIs(rest, keep);
      var d := Kept(rest, keep);
      assert ev in [ev] && [ev][0] == ev;
      forall i | 0 <= i < |d| ensures d[i].id != ev.id && Before(d[i], ev) {
        assert d[i] in rest;
        var k :| 0 <= k < |rest| && rest[k] == d[i];
        assert evs[k] == d[i];
      }
    }
  }

  /** What a client is to replay for the offer of `offer`: every event of its lane, and nothing but backing besides. */
  ghost predicate IsLane(evs: seq<Event>, keep: set<Id>, offer: Event, fclaims: set<Id>)
    requires IsOffer(offer)
  {
    forall e :: e in evs ==>
      && EventFits(e, offer.id, fclaims)
      && (Bears(e, offer, fclaims) ==> e.id in keep)
      && (e.id in keep ==> Bears(e, offer, fclaims) || Backing(e))
      && (e.Propose? && e.id == offer.id ==> e == offer)
  }

  /** No claim on the offer is refused by the cap alone. */
  ghost predicate NoneCapped(evs: seq<Event>, oid: Id) {
    forall n :: 0 <= n < |evs| ==> !CapRefused(Prepare(Run(evs[..n]), evs[n].height), evs[n], oid)
  }

  /** Offers come from their own events. */
  lemma StepOffers(L: Ledger, ev: Event, oid: Id)
    requires Inv(L) && Next(L, ev) && oid in Step(L, ev).market.offers
    ensures oid in L.market.offers || (ev.Propose? && ev.id == oid)
  {
    hide Prepare, Handle, Inv, MoveOf, Next;
    if ev.height >= ACTIVATION_HEIGHT {
      NextHeight(L, ev);
      var P := Prepare(L, ev.height);
      PartsOf(L);
      PrepareWinds(L, ev.height);
      PrepareKeepsInv(L, ev.height);
      PartsOf(P);
      HandleMoves(P, ev);
      if MoveOf(P, ev).Added? { AddedIsNew(P, ev); }
    }
  }

  lemma TermsIn(evs: seq<Event>, rest: seq<Event>, offer: Event)
    requires Feed(evs + rest) && offer in evs + rest && IsOffer(offer) && offer.rec.value.want.ValueSpec? && offer.height >= V13_HEIGHT
    ensures OwnTerms(Run(evs), offer)
  {
    hide Run;
    if offer.id in Run(evs).market.offers { OfferIs(evs, rest, offer); }
  }

  /** The event the induction takes off a chain, and where it stands. */
  lemma ChainLast(evs: seq<Event>, rest: seq<Event>)
    requires Feed(evs + rest) && evs != []
    ensures var a, ev := evs[..|evs| - 1], evs[|evs| - 1];
      && Feed(a + ([ev] + rest)) && Feed(a + [ev]) && a + [ev] == evs && evs + rest == a + ([ev] + rest)
      && (forall e :: e in a ==> e.height <= ev.height && e.id != ev.id && e in evs) && ev in evs
  {
    hide Before, EventOk;
    var a, ev := evs[..|evs| - 1], evs[|evs| - 1];
    assert a + [ev] == evs && evs + rest == a + ([ev] + rest);
    FeedParts(evs, rest);
    FeedParts(a, [ev]);
    assert [ev][0] == ev && ev in [ev];
    forall e | e in a ensures e.height <= ev.height && e.id != ev.id && e in evs {
      NotEarlier(e, ev);
      var k :| 0 <= k < |a| && a[k] == e;
      assert evs[k] == e;
    }
  }

  lemma KeptLast(a: seq<Event>, ev: Event, keep: set<Id>)
    requires Feed(a + [ev])
    ensures Kept(a + [ev], keep) == if ev.id in keep then Kept(a, keep) + [ev] else Kept(a, keep)
    ensures Feed(Kept(a + [ev], keep)) && Feed(Kept(a, keep))
  {
    assert (a + [ev])[..|a|] == a;
    FeedParts(a, [ev]);
    KeptIs(a, keep);
    KeptIs(a + [ev], keep);
  }

  lemma NotCappedBefore(evs: seq<Event>, oid: Id)
    requires NoneCapped(evs, oid) && evs != []
    ensures var a, ev := evs[..|evs| - 1], evs[|evs| - 1];
      NoneCapped(a, oid) && !CapRefused(Prepare(Run(a), ev.height), ev, oid)
  {
    hide CapRefused, Prepare, Run;
    var a := evs[..|evs| - 1];
    forall n | 0 <= n < |a| ensures !CapRefused(Prepare(Run(a[..n]), a[n].height), a[n], oid) {
      assert a[..n] == evs[..n] && a[n] == evs[n];
    }
  }

  lemma EmptyLane(height: nat, oid: Id, fclaims: set<Id>)
    ensures SameLane(EMPTY, EMPTY, height, oid, fclaims)
  {
    hide View;
  }

  /** The replay of a lane and that of the whole chain agree on the offer and its fclaims at every height they reach, so
      long as both admit the offer and no claim on it is refused by the cap alone. */
  lemma {:induction false} LaneIsTheChain(evs: seq<Event>, rest: seq<Event>, keep: set<Id>, offer: Event, fclaims: set<Id>, height: nat)
    requires Feed(evs + rest) && offer in evs + rest && IsOffer(offer) && offer.rec.value.want.ValueSpec? && offer.height >= V13_HEIGHT
    requires IsLane(evs, keep, offer, fclaims) && NoneCapped(evs, offer.id) && forall e :: e in evs ==> e.height <= height
    requires offer in evs ==> offer.id in Run(evs).market.offers && offer.id in Run(Kept(evs, keep)).market.offers
    ensures Feed(Kept(evs, keep)) && Inv(Run(evs)) && Inv(Run(Kept(evs, keep)))
    ensures SameLane(Run(evs), Run(Kept(evs, keep)), height, offer.id, fclaims)
    decreases |evs|
  {
    hide RunFrom, Step, Inv, Feed, SameLane, NoneCapped, IsLane;
    if evs == [] {
      EmptyRun();
      EmptyInv();
      EmptyLane(height, offer.id, fclaims);
    } else {
      var a, ev := evs[..|evs| - 1], evs[|evs| - 1];
      ChainLast(evs, rest);
      NotCappedBefore(evs, offer.id);
      LaneOfPrefix(evs, keep, offer, fclaims);
      if offer in a { AdmittedBefore(a, ev, keep, offer); }
      LaneIsTheChain(a, [ev] + rest, keep, offer, fclaims, ev.height);
      LaneStep(a, ev, rest, keep, offer, fclaims);
      SameLater(Run(evs), Run(Kept(evs, keep)), ev.height, height, offer.id, fclaims);
    }
  }

  lemma LaneOfPrefix(evs: seq<Event>, keep: set<Id>, offer: Event, fclaims: set<Id>)
    requires IsOffer(offer) && IsLane(evs, keep, offer, fclaims) && evs != []
    ensures IsLane(evs[..|evs| - 1], keep, offer, fclaims) && IsLane([evs[|evs| - 1]], keep, offer, fclaims)
  {
    hide EventFits, Bears, Backing;
  }

  /** One more event of the chain: outside the lane it moves nothing there, inside it moves both sides alike. */
  lemma LaneStep(a: seq<Event>, ev: Event, rest: seq<Event>, keep: set<Id>, offer: Event, fclaims: set<Id>)
    requires Feed(a + ([ev] + rest)) && Feed(a + [ev]) && offer in a + ([ev] + rest) && IsOffer(offer)
    requires offer.rec.value.want.ValueSpec? && offer.height >= V13_HEIGHT
    requires IsLane([ev], keep, offer, fclaims) && !CapRefused(Prepare(Run(a), ev.height), ev, offer.id)
    requires Inv(Run(a)) && Inv(Run(Kept(a, keep))) && SameLane(Run(a), Run(Kept(a, keep)), ev.height, offer.id, fclaims)
    requires ev == offer ==> offer.id in Run(a + [ev]).market.offers && offer.id in Run(Kept(a + [ev], keep)).market.offers
    ensures Feed(Kept(a + [ev], keep)) && Inv(Run(a + [ev])) && Inv(Run(Kept(a + [ev], keep)))
    ensures SameLane(Run(a + [ev]), Run(Kept(a + [ev], keep)), ev.height, offer.id, fclaims)
  {
    hide RunFrom, Step, Inv, Feed, Prepare, SameLane, CapRefused, Bears, Backing, EventFits, OwnTerms, Next;
    KeptLast(a, ev, keep);
    LastStep(a, ev);
    TermsIn(a, [ev] + rest, offer);
    var C, K := Run(a), Run(Kept(a, keep));
    StepKeepsInv(C, ev);
    assert ev in [ev];
    if ev.id !in keep {
      StepOutside(C, K, ev, offer, fclaims);
    } else {
      LastStep(Kept(a, keep), ev);
      StepKeepsInv(K, ev);
      if ev == offer { StepOwn(C, K, offer, fclaims); } else { StepInside(C, K, ev, offer, fclaims); }
    }
  }

  lemma EmptyRun()
    ensures Run([]) == EMPTY && Feed([])
  {
  }

  lemma AdmittedBefore(a: seq<Event>, ev: Event, keep: set<Id>, offer: Event)
    requires Feed(a + [ev]) && (forall e :: e in a ==> e.id != ev.id) && IsOffer(offer) && offer in a
    requires offer.id in Run(a + [ev]).market.offers && offer.id in Run(Kept(a + [ev], keep)).market.offers
    ensures offer.id in Run(a).market.offers && offer.id in Run(Kept(a, keep)).market.offers
  {
    hide RunFrom, Step, Inv;
    LastStep(a, ev);
    StepOffers(Run(a), ev, offer.id);
    KeptLast(a, ev, keep);
    if ev.id in keep {
      LastStep(Kept(a, keep), ev);
      StepOffers(Run(Kept(a, keep)), ev, offer.id);
    }
  }
}
