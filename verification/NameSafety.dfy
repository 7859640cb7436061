/** Listed-name safety: while an offer of a name is open, the name is there, registered, owned by the seller,
    locked by that one offer, not displaceable and not lapsed. */
module NameSafety {
  import opened Rules
  import opened Ledgers
  import opened Handlers
  import opened Replay
  import opened Closing
  import opened OfferInvariants
  import opened Moves
  import opened HeightInvariants

  predicate Lists(offers: map<Id, Offer>, id: Id, nm: string) {
    id in offers && offers[id].status.Open? && offers[id].give == NameGive(nm)
  }

  ghost predicate Listed(offers: map<Id, Offer>, nm: string) { exists id :: Lists(offers, id, nm) }

  /** What a name's record is while the offer that lists it is open. */
  predicate ListedOk(n: NameRec, o: Offer) {
    && n.owner == o.seller && !n.pending && n.locked
    && n.effHeight <= o.height
    && (o.height >= V13_HEIGHT ==> n.viaFill || o.height - n.effHeight > SaleEmbargo(o.height))
    && (o.height >= V15_HEIGHT ==> PaidThrough(n) >= o.expiresEpoch)
  }

  predicate RecordSound(n: NameRec) {
    && PaidThrough(n) >= V15_EPOCH + NAME_TERM_EPOCHS
    && (n.pending ==>
          !n.locked && !n.viaFill && n.paidThroughEpoch.None? && n.finalizeBy == Some(FinalizeBy(n.effHeight))
          && n.effHeight + REG_COMMIT_MAX_BLOCKS >= V25_HEIGHT)
  }

  /** Names and the open offers that list them agree. */
  ghost predicate NamesOk(names: map<string, NameRec>, offers: map<Id, Offer>) {
    && (forall nm :: nm in names ==> RecordSound(names[nm]))
    && (forall id, nm :: Lists(offers, id, nm) ==> nm in names && ListedOk(names[nm], offers[id]))
    && (forall i, j, nm :: Lists(offers, i, nm) && Lists(offers, j, nm) ==> i == j)
    && (forall nm :: nm in names && names[nm].locked ==> Listed(offers, nm))
  }

  ghost predicate NameInv(L: Ledger) { NamesOk(L.registry.names, L.market.offers) }

  // ----- passes -----

  /** A pass that leaves a listing open does not unlock its name. */
  lemma ListingSpared(names: map<string, NameRec>, a: map<Id, Offer>, ids: seq<Id>, why: Reason, id: Id, nm: string)
    requires NamesOk(names, a) && Lists(a, id, nm) && !(id in ids && ClosesIn(a, id, why))
    ensures !ClosesName(a, ids, why, nm)
  {
    forall j | j in ids && ClosesIn(a, j, why) && a[j].give == NameGive(nm) ensures j == id {
      assert Lists(a, j, nm);
    }
  }

  lemma PassKeepsNames(L: Ledger, ids: seq<Id>, why: Reason)
    requires NameInv(L)
    ensures NameInv(CloseAll(L, ids, why))
  {
    hide CloseAll, ListedOk, RecordSound, ClosesName, Due;
    var M := CloseAll(L, ids, why);
    CloseAllEffect(L, ids, why);
    var a, b := L.market.offers, M.market.offers;
    forall id, nm | Lists(b, id, nm) ensures Lists(a, id, nm) && b[id] == a[id] && M.registry.names[nm] == L.registry.names[nm] {
      assert Lists(a, id, nm);
      ListingSpared(L.registry.names, a, ids, why, id, nm);
    }
    forall nm | nm in M.registry.names && M.registry.names[nm].locked ensures Listed(b, nm) {
      StillListed(L, M, ids, why, nm);
    }
    forall nm | nm in M.registry.names ensures RecordSound(M.registry.names[nm]) {
      UnlockedSound(L.registry.names[nm], M.registry.names[nm]);
    }
  }

  lemma UnlockedSound(a: NameRec, b: NameRec)
    requires RecordSound(a) && (b == a || b == a.(locked := false))
    ensures RecordSound(b)
  {
  }

  lemma StillListed(L: Ledger, M: Ledger, ids: seq<Id>, why: Reason, nm: string)
    requires NameInv(L) && PassEffect(L, M, ids, why) && nm in M.registry.names && M.registry.names[nm].locked
    ensures Listed(M.market.offers, nm)
  {
    hide Due;
    assert !ClosesName(L.market.offers, ids, why, nm) && L.registry.names[nm].locked;
    var id :| Lists(L.market.offers, id, nm);
    assert Lists(M.market.offers, id, nm);
  }

  lemma {:induction false} FlushKeepsNames(L: Ledger, cancels: seq<Deferred>)
    requires NameInv(L)
    ensures NameInv(FlushFrom(L, cancels))
  {
    if cancels != [] {
      var c, rest := cancels[|cancels| - 1], cancels[..|cancels| - 1];
      FlushKeepsNames(L, rest);
      PassKeepsNames(FlushFrom(L, rest), c.targets, Flush(c.height));
    }
  }

  lemma PrepareKeepsNames(L: Ledger, height: nat)
    requires NameInv(L) && IndexInv(L)
    ensures NameInv(Prepare(L, height))
  {
    PrepareIs(L, height);
    FlushKeepsNames(L, L.pendingCancels);
    var E, S := EnterBlock(L, height), SweptOffers(L, height);
    PassKeepsNames(E, E.market.offerIds, Sweep(height));
    var P := Prepare(L, height);
    forall id, nm | Lists(P.market.offers, id, nm)
      ensures nm in P.registry.names && ListedOk(P.registry.names[nm], P.market.offers[id])
    {
      assert Lists(S.market.offers, id, nm);
    }
    forall nm | nm in P.registry.names && P.registry.names[nm].locked ensures Listed(P.market.offers, nm) {
      assert Listed(S.market.offers, nm);
    }
  }

  // ----- a listed name cannot lapse, and cannot be displaced -----

  /** An open offer that has not expired keeps its name's lease alive. */
  lemma ListedNotLapsed(L: Ledger, id: Id, nm: string, height: nat)
    requires NameInv(L) && Past(L) && L.block == height && Unexpired(L.market.offers, height) && Lists(L.market.offers, id, nm)
    ensures !Lapsed(L.registry.names[nm], EpochOf(height))
  {
    var n, o := L.registry.names[nm], L.market.offers[id];
    assert ListedOk(n, o) && RecordSound(n) && !Due(Sweep(height), o);
    if o.height < V15_HEIGHT {
      assert EpochOf(o.height) <= V15_EPOCH;
      if height < V21_HEIGHT { assert EpochOf(height) <= EpochOf(V21_HEIGHT); }
    }
  }

  /** A reveal that beats the record of a listed name comes from before the sale embargo existed. */
  lemma ListedNotBeaten(L: Ledger, id: Id, nm: string, ev: Event, eff: nat, revealed: Option<Hash>)
    requires NameInv(L) && Past(L) && L.block == ev.height && Lists(L.market.offers, id, nm)
    requires EffHeight(L, ev.height, revealed) == Some(eff)
    requires Beats(eff, ev, Current(L, nm, ev.height))
    ensures L.market.offers[id].height < V13_HEIGHT && ev.height < V28_HEIGHT
  {
    var n, o := L.registry.names[nm], L.market.offers[id];
    assert ListedOk(n, o);
    assert Current(L, nm, ev.height) == Some(n);
    assert eff + RegWindow(ev.height) >= ev.height >= o.height;
  }

  /** So the void that a displacement makes leaves no open offer of the name. */
  lemma VoidUnlists(L: Ledger, nm: string, ev: Event, eff: nat, revealed: Option<Hash>)
    requires NameInv(L) && IndexInv(L) && Past(L) && L.block == ev.height
    requires EffHeight(L, ev.height, revealed) == Some(eff)
    requires Beats(eff, ev, Current(L, nm, ev.height))
    ensures !Listed(VoidOpenNameOffers(L, nm, ev.height).market.offers, nm)
  {
    var V := VoidOpenNameOffers(L, nm, ev.height);
    CloseAllEffect(L, L.market.offerIds, Void(nm, ev.height));
    forall id ensures !Lists(V.market.offers, id, nm) {
      if Lists(V.market.offers, id, nm) {
        assert Lists(L.market.offers, id, nm);
        ListedNotBeaten(L, id, nm, ev, eff, revealed);
      }
    }
  }

  lemma UnlistedWhenGone(L: Ledger, nm: string)
    requires NameInv(L) && (nm !in L.registry.names || L.registry.names[nm].pending || !L.registry.names[nm].locked)
    ensures !Listed(L.market.offers, nm)
  {
  }

  lemma UnlistedWhenLapsed(L: Ledger, nm: string, height: nat)
    requires NameInv(L) && Past(L) && L.block == height && Unexpired(L.market.offers, height)
    requires nm in L.registry.names && Lapsed(L.registry.names[nm], EpochOf(height))
    ensures !Listed(L.market.offers, nm)
  {
    forall id ensures !Lists(L.market.offers, id, nm) {
      if Lists(L.market.offers, id, nm) { ListedNotLapsed(L, id, nm, height); }
    }
  }

  /** A fresh, unlocked record for a name no open offer lists. */
  lemma PutKeepsNames(names: map<string, NameRec>, offers: map<Id, Offer>, nm: string, n: NameRec)
    requires NamesOk(names, offers) && !Listed(offers, nm) && RecordSound(n) && !n.locked
    ensures NamesOk(names[nm := n], offers)
  {
    forall id, x | Lists(offers, id, x) ensures x in names[nm := n] && ListedOk(names[nm := n][x], offers[id]) {
      assert Listed(offers, x);
    }
  }

  // ----- the handlers -----

  lemma ReclaimKeepsNames(L: Ledger, ev: Event, nm: string, eff: nat, cur: NameRec)
    requires NameInv(L) && TimeInv(L) && L.block == ev.height && ev.Propose? && ev.height >= V15_HEIGHT
    requires nm in L.registry.names && cur == L.registry.names[nm] && Lapsed(cur, EpochOf(ev.height))
    ensures NameInv(Reclaim(L, ev, nm, eff, cur))
  {
    hide CloseAll, ExpiredClaimFee, NamesOk, Listed, Past;
    var V := VoidOpenNameOffers(L, nm, ev.height);
    UnlistedWhenLapsed(L, nm, ev.height);
    PassKeepsNames(L, L.market.offerIds, Void(nm, ev.height));
    CloseAllEffect(L, L.market.offerIds, Void(nm, ev.height));
    StaysUnlisted(L, V, nm);
    var n := NameRec(ev.proposer, eff, ev.pos, ev.id, ev.height, false, true, Some(EpochOf(ev.height) + NAME_TERM_EPOCHS), false, None);
    PutKeepsNames(V.registry.names, V.market.offers, nm, n);
  }

  lemma StaysUnlisted(L: Ledger, V: Ledger, nm: string)
    requires !Listed(L.market.offers, nm) && V.market.offers.Keys == L.market.offers.Keys
    requires forall id :: id in L.market.offers ==> Wound(L.market.offers[id], V.market.offers[id])
    ensures !Listed(V.market.offers, nm)
  {
    forall id ensures !Lists(V.market.offers, id, nm) {
      assert !Lists(L.market.offers, id, nm);
    }
  }

  lemma TakeKeepsNames(L: Ledger, ev: Event, nm: string, eff: nat, revealed: Option<Hash>, n: NameRec)
    requires NameInv(L) && IndexInv(L) && TimeInv(L) && L.block == ev.height
    requires EffHeight(L, ev.height, revealed) == Some(eff) && Beats(eff, ev, Current(L, nm, ev.height))
    requires RecordSound(n) && !n.locked
    ensures NameInv(TakeName(L, nm, Current(L, nm, ev.height), n, ev.height))
  {
    if Current(L, nm, ev.height).Some? {
      PassKeepsNames(L, L.market.offerIds, Void(nm, ev.height));
      VoidUnlists(L, nm, ev, eff, revealed);
      var V := VoidOpenNameOffers(L, nm, ev.height);
      PutKeepsNames(V.registry.names, V.market.offers, nm, n);
    } else {
      UnlistedWhenGone(L, nm);
      PutKeepsNames(L.registry.names, L.market.offers, nm, n);
    }
  }

  lemma ReserveKeepsNames(L: Ledger, ev: Event, nm: string, eff: nat, revealed: Option<Hash>)
    requires NameInv(L) && IndexInv(L) && TimeInv(L) && L.block == ev.height && ev.Propose?
    requires EffHeight(L, ev.height, revealed) == Some(eff)
    ensures ev.height >= V25_HEIGHT ==> NameInv(Reserve(L, ev, nm, eff, Current(L, nm, ev.height)))
    ensures NameInv(Register(L, ev, nm, eff, Current(L, nm, ev.height)))
  {
    if Beats(eff, ev, Current(L, nm, ev.height)) {
      var paid := if ev.height >= V15_HEIGHT then Some(EpochOf(ev.height) + NAME_TERM_EPOCHS) else None;
      if ev.height >= V25_HEIGHT {
        TakeKeepsNames(L, ev, nm, eff, revealed,
                       NameRec(ev.proposer, eff, ev.pos, ev.id, ev.height, false, false, None, true, Some(FinalizeBy(eff))));
      }
      TakeKeepsNames(L, ev, nm, eff, revealed,
                     NameRec(ev.proposer, eff, ev.pos, ev.id, ev.height, false, false, paid, false, None));
    }
  }

  lemma NameKeepsNames(L: Ledger, ev: Event, nm: string, revealed: Option<Hash>)
    requires NameInv(L) && IndexInv(L) && TimeInv(L) && L.block == ev.height && ev.Propose?
    ensures NameInv(ApplyName(L, ev, nm, revealed))
  {
    hide Reclaim, Reserve, Register;
    var effHeight := EffHeight(L, ev.height, revealed);
    if ev.height >= V11_HEIGHT && effHeight.Some? {
      var cur := Current(L, nm, ev.height);
      if IsLapsedClaim(cur, ev.height) {
        ReclaimKeepsNames(L, ev, nm, effHeight.value, cur.value);
      } else {
        ReserveKeepsNames(L, ev, nm, effHeight.value, revealed);
      }
    }
  }

  lemma FinalizeKeepsNames(L: Ledger, ev: Event, nm: string, opening: Hash)
    requires NameInv(L) && TimeInv(L) && L.block == ev.height && ev.height >= V25_HEIGHT
    requires nm in L.registry.names && L.registry.names[nm].pending
    ensures NameInv(FinalizeRegistration(L, ev, nm, opening, L.registry.names[nm]))
  {
    var n := L.registry.names[nm];
    UnlistedWhenGone(L, nm);
    assert RecordSound(n);
    PutKeepsNames(L.registry.names, L.market.offers, nm,
                  n.(pending := false, finalizeBy := None, paidThroughEpoch := Some(EpochOf(ev.height) + NAME_TERM_EPOCHS)));
  }

  lemma RecaptureKeepsNames(L: Ledger, ev: Event, nm: string, opening: Hash, r: Recapture)
    requires NameInv(L) && TimeInv(L) && L.block == ev.height && ev.height >= V26_HEIGHT
    ensures NameInv(FinalizeRecapture(L, ev, nm, opening, r))
  {
    hide CloseAll, ExpiredClaimFee, Finalizable, NamesOk, Listed, Past;
    var ep := EpochOf(ev.height);
    if nm in L.registry.names && Lapsed(L.registry.names[nm], ep) {
      var V := VoidOpenNameOffers(L, nm, ev.height);
      UnlistedWhenLapsed(L, nm, ev.height);
      PassKeepsNames(L, L.market.offerIds, Void(nm, ev.height));
      CloseAllEffect(L, L.market.offerIds, Void(nm, ev.height));
      StaysUnlisted(L, V, nm);
      PutKeepsNames(V.registry.names, V.market.offers, nm,
                    NameRec(r.owner, r.effHeight, r.pos, r.id, r.height, false, false, Some(ep + NAME_TERM_EPOCHS), false, None));
    }
  }

  lemma TransferKeepsNames(L: Ledger, ev: Event, nm: string, to: Addr)
    requires NameInv(L) && ev.Propose?
    ensures NameInv(ApplyNxfer(L, ev, nm, to))
  {
    if nm in L.registry.names && !L.registry.names[nm].locked {
      UnlistedWhenGone(L, nm);
      PutKeepsNames(L.registry.names, L.market.offers, nm, L.registry.names[nm].(owner := to));
    }
  }

  lemma RenewKeepsNames(L: Ledger, ev: Event, nm: string)
    requires NameInv(L) && ev.Propose?
    ensures NameInv(ApplyNrenew(L, ev, nm))
  {
    var M := ApplyNrenew(L, ev, nm);
    forall id, x | Lists(M.market.offers, id, x) ensures x in M.registry.names && ListedOk(M.registry.names[x], M.market.offers[id]) {
      assert Lists(L.market.offers, id, x);
    }
    forall x | x in M.registry.names && M.registry.names[x].locked ensures Listed(M.market.offers, x) {
      assert L.registry.names[x].locked;
    }
  }

  /** A listing locks a name that nothing lists. */
  lemma ListKeepsNames(L: Ledger, ev: Event, rec: Record)
    requires NameInv(L) && Past(L) && Next(L, ev) && L.block == ev.height && ev.Propose? && rec.OfferRec? && rec.give.NameGive?
    requires rec.give.name in L.registry.names
    requires Listable(L.registry.names[rec.give.name], ev.proposer, ev.height, ev.expiresEpoch)
    ensures NamesOk(SetLocked(L.registry, rec.give.name, true).names, L.market.offers[ev.id := NewOffer(ev, rec)])
  {
    var nm, a := rec.give.name, L.market.offers;
    var b := a[ev.id := NewOffer(ev, rec)];
    var n := SetLocked(L.registry, nm, true).names;
    UnlistedWhenGone(L, nm);
    forall id, x | Lists(b, id, x) ensures x in n && ListedOk(n[x], b[id]) {
      if id != ev.id {
        assert Lists(a, id, x) && Listed(a, x);
      }
    }
    forall x | x in n && n[x].locked ensures Listed(b, x) {
      if x == nm { assert Lists(b, ev.id, nm); } else {
        var id :| Lists(a, id, x);
        assert Lists(b, id, x);
      }
    }
    forall i, j, x | Lists(b, i, x) && Lists(b, j, x) ensures i == j {
      assert (i != ev.id ==> Lists(a, i, x) && Listed(a, x)) && (j != ev.id ==> Lists(a, j, x) && Listed(a, x));
    }
  }

  /** An offer that was not listing a name still is not. */
  lemma TokenOfferKeepsNames(names: map<string, NameRec>, a: map<Id, Offer>, id: Id, o: Offer)
    requires NamesOk(names, a) && o.give.TokenGive? && (id in a ==> a[id].give.TokenGive?)
    ensures NamesOk(names, a[id := o])
  {
    var b := a[id := o];
    forall i, nm ensures Lists(b, i, nm) <==> Lists(a, i, nm) {}
    forall nm | nm in names && names[nm].locked ensures Listed(b, nm) {
      var i :| Lists(a, i, nm);
      assert Lists(b, i, nm);
    }
  }

  /** Replacing an open offer by one with the same terms, still open, keeps its listing. */
  lemma SameListing(names: map<string, NameRec>, a: map<Id, Offer>, id: Id, o: Offer)
    requires NamesOk(names, a) && id in a && SameTerms(a[id], o) && o.status == a[id].status
    ensures NamesOk(names, a[id := o])
  {
    var b := a[id := o];
    forall i, nm ensures Lists(b, i, nm) <==> Lists(a, i, nm) {}
    forall nm | nm in names && names[nm].locked ensures Listed(b, nm) {
      var i :| Lists(a, i, nm);
      assert Lists(b, i, nm);
    }
  }

  /** A sale hands the name over unlocked and closes the one offer that listed it. */
  lemma SaleKeepsNames(names: map<string, NameRec>, a: map<Id, Offer>, id: Id, nm: string, o: Offer, who: Addr, ev: Event)
    requires NamesOk(names, a) && Lists(a, id, nm) && nm in names && !o.status.Open?
    ensures NamesOk(names[nm := Deliver(names[nm], who, ev)], a[id := o])
  {
    var b, n := a[id := o], names[nm := Deliver(names[nm], who, ev)];
    assert RecordSound(names[nm]) && ListedOk(names[nm], a[id]);
    forall i, x | Lists(b, i, x) ensures x in n && ListedOk(n[x], b[i]) { assert Lists(a, i, x); }
    forall x | x in n && n[x].locked ensures Listed(b, x) {
      var i :| Lists(a, i, x);
      assert Lists(b, i, x);
    }
    forall i, j, x | Lists(b, i, x) && Lists(b, j, x) ensures i == j { assert Lists(a, i, x) && Lists(a, j, x); }
  }

  lemma OfferKeepsNames(L: Ledger, ev: Event, rec: Record)
    requires NameInv(L) && Past(L) && Next(L, ev) && L.block == ev.height && ev.Propose? && rec.OfferRec?
    ensures NameInv(ApplyOffer(L, ev, rec))
  {
    if rec.give.NameGive? {
      if rec.give.name in L.registry.names && Listable(L.registry.names[rec.give.name], ev.proposer, ev.height, ev.expiresEpoch) {
        ListKeepsNames(L, ev, rec);
      }
    } else {
      TokenOfferKeepsNames(L.registry.names, L.market.offers, ev.id, NewOffer(ev, rec));
    }
  }

  lemma DeliveryKeepsNames(L: Ledger, ev: Event, oid: Id, fees: nat, entry: FillEntry)
    requires NameInv(L) && oid in L.market.offers && L.market.offers[oid].status.Open? && GiveReady(L, L.market.offers[oid])
    ensures NameInv(FinishFill(DeliverGive(L, L.market.offers[oid], entry.buyer, ev).(feesPaid := fees), oid, entry))
  {
    var o := L.market.offers[oid];
    var D := DeliverGive(L, o, entry.buyer, ev).(feesPaid := fees);
    FinishMoves(L, D, oid, entry);
    if o.give.NameGive? {
      SaleKeepsNames(L.registry.names, L.market.offers, oid, o.give.name, FilledOffer(o, entry), entry.buyer, ev);
    } else {
      TokenOfferKeepsNames(L.registry.names, L.market.offers, oid, FilledOffer(o, entry));
    }
  }

  lemma TokenFillKeepsNames(L: Ledger, ev: Event, oid: Id)
    requires NameInv(L) && ev.Attest? && oid in L.market.offers && L.market.offers[oid].want.TokenWant?
    ensures NameInv(ApplyTokenFill(L, ev, oid))
  {
    var o := L.market.offers[oid];
    if !TokenFillRefused(L, ev, o) {
      var fee := FeeAt(o.want.amount, o.feeBps);
      DeliveryKeepsNames(Pay(L, SettleTokens(L.assets.balances, o.want, ev.attester, fee)), ev, oid, L.feesPaid,
                         FillEntry(ev.attester, ev.id, ev.height, o.want.amount, fee, 0));
    }
  }

  lemma FillKeepsNames(L: Ledger, ev: Event, oid: Id)
    requires NameInv(L) && ev.Attest? && oid in L.market.offers && L.market.offers[oid].want.CsdWant?
    ensures NameInv(ApplyFill(L, ev, oid))
  {
    var o := L.market.offers[oid];
    if WholeFills(L, ev, o) {
      var fee := FeeAt(o.want.value, o.feeBps);
      DeliveryKeepsNames(L, ev, oid, L.feesPaid + fee,
                         FillEntry(ev.attester, ev.id, ev.height, Pt(ev.paidTo, o.want.payto), fee, 0));
    }
  }

  lemma PartialFillKeepsNames(L: Ledger, ev: Event, oid: Id)
    requires NameInv(L) && OffersInv(L) && ev.Attest? && oid in L.market.offers && IsPartial(L.market.offers[oid])
    ensures NameInv(ApplyPartialFill(L, ev, oid))
  {
    PartialFillOffers(L, ev, oid);
    var M := ApplyPartialFill(L, ev, oid);
    TokenOfferKeepsNames(L.registry.names, L.market.offers, oid, M.market.offers[oid]);
  }

  lemma ClaimKeepsNames(L: Ledger, ev: Event, oid: Id)
    requires NameInv(L) && ev.Attest? && oid in L.market.offers
    ensures NameInv(ApplyLegacyClaim(L, ev, oid))
  {
    SameListing(L.registry.names, L.market.offers, oid, ApplyLegacyClaim(L, ev, oid).market.offers[oid]);
  }

  lemma FclaimKeepsNames(L: Ledger, ev: Event, oid: Id)
    requires NameInv(L) && ev.Propose?
    ensures NameInv(ApplyFclaim(L, ev, oid))
  {
    if oid in L.market.offers {
      SameListing(L.registry.names, L.market.offers, oid, ApplyFclaim(L, ev, oid).market.offers[oid]);
    }
  }

  lemma AttestKeepsNames(L: Ledger, ev: Event)
    requires NameInv(L) && OffersInv(L) && ev.Attest?
    ensures NameInv(ApplyAttest(L, ev))
  {
    hide ApplyTokenFill, ApplyPartialFill, ApplyFill, ApplyLegacyClaim, NamesOk;
    var target := Routed(L, ev);
    if target.Some? {
      var oid := target.value;
      if ev.score == SCORE_CANCEL {
        PassKeepsNames(L, [oid], Immediate);
        assert CloseAll(L, [oid], Immediate) == CloseOne(CloseAll(L, [], Immediate), oid, Immediate);
      } else if ev.score == SCORE_FILL && L.market.offers[oid].want.TokenWant? {
        TokenFillKeepsNames(L, ev, oid);
      } else if ev.score == SCORE_FILL && IsPartial(L.market.offers[oid]) {
        PartialFillKeepsNames(L, ev, oid);
      } else if ev.score == SCORE_FILL {
        FillKeepsNames(L, ev, oid);
      } else {
        ClaimKeepsNames(L, ev, oid);
      }
    }
  }

  lemma NfinalizeKeepsNames(L: Ledger, ev: Event, nm: string, opening: Hash)
    requires NameInv(L) && TimeInv(L) && L.block == ev.height && ev.Propose?
    ensures NameInv(ApplyNfinalize(L, ev, nm, opening))
  {
    hide FinalizeRegistration, FinalizeRecapture, NamesOk;
    if ev.height >= V25_HEIGHT {
      if nm in L.registry.names && L.registry.names[nm].pending { FinalizeKeepsNames(L, ev, nm, opening); }
      if ev.height >= V26_HEIGHT && nm in L.registry.recaptures { RecaptureKeepsNames(L, ev, nm, opening, L.registry.recaptures[nm]); }
    }
  }

  lemma ProposeKeepsNames(L: Ledger, ev: Event)
    requires NameInv(L) && OffersInv(L) && IndexInv(L) && TimeInv(L) && Next(L, ev) && L.block == ev.height && ev.Propose?
    ensures NameInv(ApplyPropose(L, ev))
  {
    hide ApplyName, ApplyNfinalize, ApplyNxfer, ApplyNrenew, ApplyOffer, ApplyFclaim, NamesOk;
    match ev.rec
    case Some(Name(nm, revealed)) => NameKeepsNames(L, ev, nm, revealed);
    case Some(Nfinalize(nm, opening)) => NfinalizeKeepsNames(L, ev, nm, opening);
    case Some(Nxfer(nm, to)) => TransferKeepsNames(L, ev, nm, to);
    case Some(Nrenew(nm)) => RenewKeepsNames(L, ev, nm);
    case Some(OfferRec(_, _, _, _, _)) => OfferKeepsNames(L, ev, ev.rec.value);
    case Some(Ocancel(t, nm)) => PassKeepsNames(L, OcancelTargets(L, L.market.offerIds, ev.proposer, t, nm), Immediate);
    case Some(FclaimRec(oid)) => FclaimKeepsNames(L, ev, oid);
    case _ =>
  }

  lemma HandleKeepsNames(L: Ledger, ev: Event)
    requires NameInv(L) && OffersInv(L) && IndexInv(L) && TimeInv(L) && Next(L, ev) && L.block == ev.height
    ensures NameInv(Handle(L, ev))
  {
    if ev.Propose? { ProposeKeepsNames(L, ev); } else { AttestKeepsNames(L, ev); }
  }
}
