/** The registration freeze: past its reveal window a name changes hands only by transfer, by sale, or by recapture
    after its lease lapsed; so a finalize the client calls safe is accepted. */
module Registration {
  import opened Rules
  import opened Ledgers
  import opened Handlers
  import opened Replay
  import opened Closing
  import opened OfferInvariants
  import opened HeightInvariants
  import opened NameSafety
  import opened HoldCap
  import opened Runs

  /** The record stays with its holder and its anchor; a reservation stays as it was. */
  predicate Kept(n: NameRec, m: NameRec) {
    m == n.(locked := m.locked, paidThroughEpoch := m.paidThroughEpoch) && (n.pending ==> m == n)
  }

  predicate IsTransfer(ev: Event, nm: string, n: NameRec, to: Addr) {
    ev.Propose? && ev.rec == Some(Nxfer(nm, to)) && ev.proposer == n.owner && !n.pending && !n.locked
  }

  /** A fill of the open offer that lists the name. */
  predicate IsSale(L: Ledger, ev: Event, nm: string) {
    ev.Attest? && ev.score == SCORE_FILL && Routed(L, ev).Some? && Lists(L.market.offers, Routed(L, ev).value, nm)
  }

  predicate IsFinalize(ev: Event, nm: string) {
    ev.Propose? && ev.rec.Some? && ev.rec.value.Nfinalize? && ev.rec.value.name == nm
  }

  /** The winner of a recapture contest takes a lapsed name. */
  predicate IsRecapture(L: Ledger, ev: Event, nm: string, n: NameRec) {
    IsFinalize(ev, nm) && !n.pending && Lapsed(n, EpochOf(ev.height))
    && nm in L.registry.recaptures && L.registry.recaptures[nm].owner == ev.proposer
  }

  /** What one event may do to the record of a frozen name. */
  ghost predicate Holds(L: Ledger, M: Ledger, ev: Event, nm: string)
    requires nm in L.registry.names
  {
    var n := L.registry.names[nm];
    && nm in M.registry.names
    && var m := M.registry.names[nm];
       || Kept(n, m)
       || IsTransfer(ev, nm, n, m.owner)
       || (IsSale(L, ev, nm) && m.owner == ev.attester)
       || (IsRecapture(L, ev, nm, n) && m.owner == ev.proposer)
       || (IsFinalize(ev, nm) && n.pending && ev.proposer == n.owner && m.owner == n.owner && m.effHeight == n.effHeight)
  }

  /** A name past its freeze: no window-valid reveal can carry an earlier anchor. */
  predicate FrozenAt(n: NameRec, height: nat) {
    height >= V25_HEIGHT && height > n.effHeight + REG_COMMIT_MAX_BLOCKS && !Abandoned(n, height)
  }

  lemma PassHolds(L: Ledger, ids: seq<Id>, why: Reason, ev: Event, nm: string)
    requires NameInv(L) && nm in L.registry.names
    ensures Holds(L, CloseAll(L, ids, why), ev, nm)
  {
    CloseAllEffect(L, ids, why);
    if ClosesName(L.market.offers, ids, why, nm) {
      var id :| id in ids && ClosesIn(L.market.offers, id, why) && L.market.offers[id].give == NameGive(nm);
      assert Lists(L.market.offers, id, nm);
    }
  }

  /** No reveal beats a frozen name. */
  lemma FrozenNotBeaten(L: Ledger, ev: Event, nm: string, eff: nat, revealed: Option<Hash>)
    requires nm in L.registry.names && FrozenAt(L.registry.names[nm], ev.height)
    requires EffHeight(L, ev.height, revealed) == Some(eff)
    ensures Current(L, nm, ev.height) == Some(L.registry.names[nm]) && !Beats(eff, ev, Current(L, nm, ev.height))
  {
  }

  lemma NameHolds(L: Ledger, ev: Event, x: string, revealed: Option<Hash>, nm: string)
    requires NameInv(L) && ev.Propose? && nm in L.registry.names && FrozenAt(L.registry.names[nm], ev.height)
    ensures Holds(L, ApplyName(L, ev, x, revealed), ev, nm)
  {
    hide Reclaim, Reserve;
    var effHeight := EffHeight(L, ev.height, revealed);
    if effHeight.Some? {
      var cur := Current(L, x, ev.height);
      if IsLapsedClaim(cur, ev.height) {
        LapsedIsLate(L, x, ev.height);
      } else {
        ReserveHolds(L, ev, x, effHeight.value, revealed, nm);
      }
    }
  }

  lemma LapsedIsLate(L: Ledger, x: string, height: nat)
    requires NameInv(L) && x in L.registry.names && Lapsed(L.registry.names[x], EpochOf(height))
    ensures height >= V26_HEIGHT
  {
    assert RecordSound(L.registry.names[x]);
  }

  lemma ReserveHolds(L: Ledger, ev: Event, x: string, eff: nat, revealed: Option<Hash>, nm: string)
    requires NameInv(L) && ev.Propose? && nm in L.registry.names && FrozenAt(L.registry.names[nm], ev.height)
    requires EffHeight(L, ev.height, revealed) == Some(eff)
    ensures Holds(L, Reserve(L, ev, x, eff, Current(L, x, ev.height)), ev, nm)
  {
    FrozenNotBeaten(L, ev, nm, eff, revealed);
    PassHolds(L, L.market.offerIds, Void(x, ev.height), ev, nm);
  }

  lemma FinalizeHolds(L: Ledger, ev: Event, x: string, opening: Hash, nm: string)
    requires NameInv(L) && ev.Propose? && ev.rec == Some(Nfinalize(x, opening)) && nm in L.registry.names
    ensures Holds(L, ApplyNfinalize(L, ev, x, opening), ev, nm)
  {
    PassHolds(L, L.market.offerIds, Void(x, ev.height), ev, nm);
  }

  lemma OfferHolds(L: Ledger, ev: Event, rec: Record, nm: string)
    requires ev.Propose? && rec.OfferRec? && nm in L.registry.names
    ensures Holds(L, ApplyOffer(L, ev, rec), ev, nm)
  {
  }

  lemma ProposeHolds(L: Ledger, ev: Event, nm: string)
    requires NameInv(L) && ev.Propose? && nm in L.registry.names && FrozenAt(L.registry.names[nm], ev.height)
    ensures Holds(L, ApplyPropose(L, ev), ev, nm)
  {
    hide EnvelopeRefused, Listable, Grants, NameRegFee, Lapsed, OcancelTargets, CloseAll;
    hide ApplyName, ApplyNfinalize, ApplyOffer, NameInv, FrozenAt, Credit, BalOf, MintCredit, Pt, PaidThrough;
    match ev.rec
    case Some(Name(x, revealed)) => NameHolds(L, ev, x, revealed, nm);
    case Some(Nfinalize(x, opening)) => FinalizeHolds(L, ev, x, opening, nm);
    case Some(OfferRec(_, _, _, _, _)) => OfferHolds(L, ev, ev.rec.value, nm);
    case Some(Ocancel(t, x)) => PassHolds(L, OcancelTargets(L, L.market.offerIds, ev.proposer, t, x), Immediate, ev, nm);
    case _ =>
  }

  lemma DeliveryHolds(L: Ledger, D: Ledger, ev: Event, oid: Id, nm: string)
    requires ev.Attest? && ev.score == SCORE_FILL && Routed(L, ev) == Some(oid) && nm in L.registry.names
    requires GiveReady(L, L.market.offers[oid]) && L.market.offers[oid].status.Open?
    requires D.registry == DeliverGive(L, L.market.offers[oid], ev.attester, ev).registry
    ensures Holds(L, D, ev, nm)
  {
  }

  lemma AttestHolds(L: Ledger, ev: Event, nm: string)
    requires NameInv(L) && ev.Attest? && nm in L.registry.names
    ensures Holds(L, ApplyAttest(L, ev), ev, nm)
  {
    var target := Routed(L, ev);
    if target.Some? {
      var oid := target.value;
      var o := L.market.offers[oid];
      if ev.score == SCORE_CANCEL {
        PassHolds(L, [oid], Immediate, ev, nm);
        assert CloseAll(L, [oid], Immediate) == CloseOne(CloseAll(L, [], Immediate), oid, Immediate);
      } else if ev.score == SCORE_FILL && o.status.Open? && GiveReady(L, o) {
        FillHolds(L, ev, oid, nm);
      }
    }
  }

  lemma FillHolds(L: Ledger, ev: Event, oid: Id, nm: string)
    requires ev.Attest? && ev.score == SCORE_FILL && Routed(L, ev) == Some(oid) && nm in L.registry.names
    requires GiveReady(L, L.market.offers[oid]) && L.market.offers[oid].status.Open?
    ensures Holds(L, ApplyAttest(L, ev), ev, nm)
  {
    var o, M := L.market.offers[oid], ApplyAttest(L, ev);
    if M.registry != L.registry { DeliveryHolds(L, M, ev, oid, nm); }
  }

  /** From V25 on, once the reveal window of its anchor has passed, a name's record stays with its holder except by
      the holder's transfer, a fill of the offer that lists it, a recapture after its lease lapsed, or - for a
      reservation - the holder's own finalize. */
  lemma FrozenNameHolds(L: Ledger, ev: Event, nm: string)
    requires NameInv(L) && nm in L.registry.names && FrozenAt(L.registry.names[nm], ev.height)
    ensures Holds(L, Handle(L, ev), ev, nm)
  {
    if ev.Propose? { ProposeHolds(L, ev, nm); } else { AttestHolds(L, ev, nm); }
  }

  // ----- finalizeWinnerCheck -----

  /** Is the fee-bearing finalize of the reservation committed at `commitHeight` safe to sign at `tip`? */
  predicate FinalizeWinnerCheck(n: Option<NameRec>, me: Addr, commitHeight: nat, tip: Option<nat>) {
    n.Some? && n.value.owner == me && n.value.pending && n.value.effHeight == commitHeight
    && (tip.Some? ==>
          tip.value <= MAX_SAFE_INTEGER
          && tip.value > commitHeight + REG_COMMIT_MAX_BLOCKS + FINALIZE_TIP_MARGIN
          && tip.value <= commitHeight + REG_COMMIT_MAX_BLOCKS + REG_FINALIZE_GRACE_BLOCKS - FINALIZE_TIP_MARGIN)
  }

  function RecordOf(L: Ledger, nm: string): Option<NameRec> {
    if nm in L.registry.names then Some(L.registry.names[nm]) else None
  }

  /** Handing over or listing needs a registered name, so a reservation survives every event but its holder's finalize. */
  lemma ReservationSpared(L: Ledger, ev: Event, nm: string)
    requires Inv(L) && Next(L, ev) && nm in L.registry.names && L.registry.names[nm].pending
    requires L.registry.names[nm].effHeight + REG_COMMIT_MAX_BLOCKS < ev.height <= FinalizeBy(L.registry.names[nm].effHeight)
    requires !(IsFinalize(ev, nm) && ev.proposer == L.registry.names[nm].owner)
    ensures nm in Step(L, ev).registry.names && Step(L, ev).registry.names[nm] == L.registry.names[nm]
  {
    hide Prepare, Handle;
    var n, P := L.registry.names[nm], Prepare(L, ev.height);
    assert RecordSound(n);
    PrepareWinds(L, ev.height);
    PrepareKeepsInv(L, ev.height);
    assert P.registry.names[nm] == n;
    FrozenNameHolds(P, ev, nm);
    UnlistedWhenGone(P, nm);
  }

  lemma CommitKept(L: Ledger, ev: Event, c: Hash)
    requires Inv(L) && Next(L, ev) && c in L.registry.commits
    ensures c in Step(L, ev).registry.commits && Step(L, ev).registry.commits[c] == L.registry.commits[c]
  {
    hide Prepare;
    if ev.height >= ACTIVATION_HEIGHT {
      PrepareWinds(L, ev.height);
      assert L.registry.commits[c] <= L.block;
      HandleCommits(Prepare(L, ev.height), ev, c);
    }
  }

  lemma HandleCommits(L: Ledger, ev: Event, c: Hash)
    requires c in L.registry.commits && L.registry.commits[c] <= ev.height
    ensures c in Handle(L, ev).registry.commits && Handle(L, ev).registry.commits[c] == L.registry.commits[c]
  {
    if ev.Propose? {
      ProposeCommits(L, ev, c);
    } else {
      hide ApplyAttest;
      AttestHasShape(L, ev);
    }
  }

  lemma ProposeCommits(L: Ledger, ev: Event, c: Hash)
    requires ev.Propose? && c in L.registry.commits && L.registry.commits[c] <= ev.height
    ensures c in ApplyPropose(L, ev).registry.commits && ApplyPropose(L, ev).registry.commits[c] == L.registry.commits[c]
  {
    match ev.rec
    case Some(Name(x, revealed)) => CloseAllEffect(L, L.market.offerIds, Void(x, ev.height));
    case Some(Nfinalize(x, opening)) => CloseAllEffect(L, L.market.offerIds, Void(x, ev.height));
    case Some(Ocancel(t, x)) => CloseAllEffect(L, OcancelTargets(L, L.market.offerIds, ev.proposer, t, x), Immediate);
    case _ =>
  }

  /** The reservation, and the commit that opens it, come unchanged through any continuation in the window. */
  lemma {:induction false} ReservationKept(L: Ledger, evs: seq<Event>, nm: string, c: Hash)
    requires Inv(L) && Follows(L, evs) && nm in L.registry.names && L.registry.names[nm].pending && c in L.registry.commits
    requires var n := L.registry.names[nm];
      forall i :: 0 <= i < |evs| ==> n.effHeight + REG_COMMIT_MAX_BLOCKS < evs[i].height <= FinalizeBy(n.effHeight)
                                     && !(IsFinalize(evs[i], nm) && evs[i].proposer == n.owner)
    ensures var M := RunFrom(L, evs);
      && nm in M.registry.names && M.registry.names[nm] == L.registry.names[nm]
      && c in M.registry.commits && M.registry.commits[c] == L.registry.commits[c]
  {
    hide Step, Inv, FinalizeBy, IsFinalize;
    if evs != [] {
      var rest, ev := evs[..|evs| - 1], evs[|evs| - 1];
      RestFollows(L, evs);
      RunKeepsInv(L, rest);
      LastNext(L, RunFrom(L, rest), evs);
      ReservationKept(L, rest, nm, c);
      ReservationSpared(RunFrom(L, rest), ev, nm);
      CommitKept(RunFrom(L, rest), ev, c);
    }
  }

  lemma FinalizeAccepted(L: Ledger, fin: Event, nm: string, opening: Hash)
    requires Inv(L) && Next(L, fin) && fin.Propose? && fin.rec == Some(Nfinalize(nm, opening))
    requires nm in L.registry.names && L.registry.names[nm].pending && L.registry.names[nm].owner == fin.proposer
    requires var n := L.registry.names[nm];
      n.effHeight + REG_COMMIT_MAX_BLOCKS < fin.height <= FinalizeBy(n.effHeight)
      && opening in L.registry.commits && L.registry.commits[opening] == n.effHeight
    requires Pt(fin.paidTo, TREASURY_ADDR) >= NameRegFee(|nm|, fin.height)
    ensures var M := Step(L, fin); var n := L.registry.names[nm];
      && nm in M.registry.names
      && M.registry.names[nm] == n.(pending := false, finalizeBy := None,
                                    paidThroughEpoch := Some(EpochOf(fin.height) + NAME_TERM_EPOCHS))
      && M.feesPaid == L.feesPaid + NameRegFee(|nm|, fin.height)
  {
    hide Prepare;
    assert RecordSound(L.registry.names[nm]);
    PrepareWinds(L, fin.height);
  }

  /** A finalize the client calls safe is accepted. `L` is the ledger of the whole chain up to `tip`; the check ran on
      its closing view and the caller's own commit height; then whatever anyone anchors in the meantime, a finalize with
      the right opening and fee mined at tip+1 or tip+2 registers the name to the caller for a full term. */
  lemma SafeFinalizeIsAccepted(L: Ledger, tip: nat, evs: seq<Event>, fin: Event, nm: string, opening: Hash)
    requires Inv(L) && L.block <= tip && opening in L.registry.commits && fin.Propose?
    requires FinalizeWinnerCheck(RecordOf(Seal(L, tip), nm), fin.proposer, L.registry.commits[opening], Some(tip))
    requires fin.rec == Some(Nfinalize(nm, opening)) && tip < fin.height <= tip + FINALIZE_TIP_MARGIN
    requires Pt(fin.paidTo, TREASURY_ADDR) >= NameRegFee(|nm|, fin.height)
    requires Follows(L, evs + [fin])
    requires forall i :: 0 <= i < |evs| ==> evs[i].height > tip && !(IsFinalize(evs[i], nm) && evs[i].proposer == fin.proposer)
    ensures var M := RunFrom(L, evs + [fin]);
      && nm in M.registry.names && M.registry.names[nm].owner == fin.proposer && !M.registry.names[nm].pending
      && M.registry.names[nm].effHeight == L.registry.commits[opening]
      && M.registry.names[nm].paidThroughEpoch == Some(EpochOf(fin.height) + NAME_TERM_EPOCHS)
      && M.feesPaid == RunFrom(L, evs).feesPaid + NameRegFee(|nm|, fin.height)
  {
    hide Step, Inv, Seal, Prepare, IsFinalize, NameRegFee;
    SealIsPrepare(L, tip);
    PendingInView(L, tip, nm);
    BeforeLast(L, evs, fin);
    ReservationKept(L, evs, nm, opening);
    FinalizeAccepted(RunFrom(L, evs), fin, nm, opening);
    assert (evs + [fin])[..|evs|] == evs;
  }

  lemma PendingInView(L: Ledger, tip: nat, nm: string)
    requires Inv(L) && nm in Prepare(L, tip + 1).registry.names && Prepare(L, tip + 1).registry.names[nm].pending
    ensures nm in L.registry.names && L.registry.names[nm] == Prepare(L, tip + 1).registry.names[nm]
  {
    hide Prepare;
    PrepareWinds(L, tip + 1);
    assert RecordSound(L.registry.names[nm]);
  }
}
