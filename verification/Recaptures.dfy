/** The sealed recapture of a lapsed name (packages/cairnx/src/resolve/names.ts:77-90 and 176-198): a reservation past
    its reveal window is safe to the end of its finalize window, and its owner's paid finalize takes the name. */
module RecaptureLane {
  import opened Rules
  import opened Ledgers
  import opened Handlers
  import opened Replay
  import opened Closing
  import opened OfferInvariants
  import opened HeightInvariants
  import opened Conservation
  import opened NameSafety
  import opened HoldCap
  import opened Runs
  import opened Registration

  /** The reservation is of a name whose lease has lapsed. */
  predicate RecaptureSound(r: Recapture, names: map<string, NameRec>, nm: string, height: nat) {
    && r.finalizeBy == FinalizeBy(r.effHeight) && r.effHeight <= height
    && nm in names && !names[nm].pending && Lapsed(names[nm], EpochOf(height))
  }

  ghost predicate RecapturesOk(g: Registry, height: nat) {
    forall nm :: nm in g.recaptures ==> RecaptureSound(g.recaptures[nm], g.names, nm, height)
  }

  function BlockOf(L: Ledger): nat { if L.block >= 0 then L.block else 0 }

  ghost predicate RecaptureInv(L: Ledger) { RecapturesOk(L.registry, BlockOf(L)) }

  /** A lapsed name is not for sale, so not locked. */
  lemma LapsedUnlocked(L: Ledger, nm: string, height: nat)
    requires NameInv(L) && TimeInv(L) && L.block == height && nm in L.registry.names && Lapsed(L.registry.names[nm], EpochOf(height))
    ensures !L.registry.names[nm].locked && !Listed(L.market.offers, nm)
  {
    UnlistedWhenLapsed(L, nm, height);
  }

  lemma PrepareKeepsRecaptures(L: Ledger, height: nat)
    requires IndexInv(L) && RecaptureInv(L) && height >= L.block
    ensures RecapturesOk(Prepare(L, height).registry, height)
    ensures forall nm :: nm in L.registry.recaptures && height <= L.registry.recaptures[nm].finalizeBy ==>
              var P := Prepare(L, height);
              nm in P.registry.recaptures && P.registry.recaptures[nm] == L.registry.recaptures[nm]
              && nm in L.registry.names && nm in P.registry.names && Unlocked(L.registry.names[nm], P.registry.names[nm])
  {
    hide Prepare, IndexInv;
    PrepareWinds(L, height);
    var P := Prepare(L, height);
    forall nm | nm in L.registry.recaptures ensures nm in P.registry.names && Unlocked(L.registry.names[nm], P.registry.names[nm]) {
      assert RecaptureSound(L.registry.recaptures[nm], L.registry.names, nm, BlockOf(L));
    }
    forall nm | nm in P.registry.recaptures ensures RecaptureSound(P.registry.recaptures[nm], P.registry.names, nm, height) {
      SoundLater(L.registry.recaptures[nm], L.registry.names, P.registry.names, nm, BlockOf(L), height);
    }
  }

  lemma SoundLater(r: Recapture, a: map<string, NameRec>, b: map<string, NameRec>, nm: string, from: nat, to: nat)
    requires RecaptureSound(r, a, nm, from) && from <= to && nm in b && Unlocked(a[nm], b[nm])
    ensures RecaptureSound(r, b, nm, to)
  {
    assert EpochOf(from) <= EpochOf(to);
  }

  /** The reservation of `nm` is left, and so is the lapsed record, but for its lock. */
  ghost predicate Quiet(L: Ledger, M: Ledger, nm: string) {
    && (nm in M.registry.recaptures <==> nm in L.registry.recaptures)
    && (nm in L.registry.recaptures ==>
          M.registry.recaptures[nm] == L.registry.recaptures[nm] && nm in L.registry.names && nm in M.registry.names
          && M.registry.names[nm] == L.registry.names[nm].(locked := M.registry.names[nm].locked))
  }

  /** Past its reveal window and still in its finalize window. */
  predicate InFinalizeWindow(r: Recapture, height: nat) { r.effHeight + REG_COMMIT_MAX_BLOCKS < height <= r.finalizeBy }

  /** What one event may do to the reservation of `nm`: leave it; before its reveal window ends, replace it by one that
      is as sound; or end it, and then only by its own window or its owner's finalize. */
  ghost predicate RecaptureMoved(L: Ledger, M: Ledger, ev: Event, nm: string) {
    || Quiet(L, M, nm)
    || (&& (nm in M.registry.recaptures ==> RecaptureSound(M.registry.recaptures[nm], M.registry.names, nm, ev.height))
        && (nm in L.registry.recaptures && InFinalizeWindow(L.registry.recaptures[nm], ev.height) ==>
              IsFinalize(ev, nm) && ev.proposer == L.registry.recaptures[nm].owner))
  }

  lemma PassQuiet(L: Ledger, ids: seq<Id>, why: Reason, nm: string)
    requires nm in L.registry.recaptures ==> nm in L.registry.names
    ensures Quiet(L, CloseAll(L, ids, why), nm)
  {
    hide CloseAll, ClosesName;
    CloseAllEffect(L, ids, why);
  }

  lemma SoundOne(L: Ledger, nm: string, height: nat)
    requires RecapturesOk(L.registry, height) && nm in L.registry.recaptures
    ensures RecaptureSound(L.registry.recaptures[nm], L.registry.names, nm, height)
  {
  }

  /** The reveals that reserve or register a name find no lapsed record there. */
  lemma TakeQuiet(L: Ledger, ev: Event, x: string, n: NameRec, nm: string)
    requires NameInv(L) && RecapturesOk(L.registry, ev.height) && !IsLapsedClaim(Current(L, x, ev.height), ev.height)
    ensures Quiet(L, TakeName(L, x, Current(L, x, ev.height), n, ev.height), nm)
  {
    hide CloseAll, NameInv, RecapturesOk, IsOpen, Closes;
    if nm in L.registry.recaptures {
      SoundOne(L, nm, ev.height);
      LapsedIsLate(L, nm, ev.height);
      PassQuiet(L, L.market.offerIds, Void(x, ev.height), nm);
    } else {
      CloseAllEffect(L, L.market.offerIds, Void(x, ev.height));
    }
  }

  lemma ReserveQuiet(L: Ledger, ev: Event, x: string, eff: nat, nm: string)
    requires NameInv(L) && RecapturesOk(L.registry, ev.height) && ev.Propose? && !IsLapsedClaim(Current(L, x, ev.height), ev.height)
    ensures Quiet(L, Reserve(L, ev, x, eff, Current(L, x, ev.height)), nm)
    ensures Quiet(L, Register(L, ev, x, eff, Current(L, x, ev.height)), nm)
  {
    hide TakeName, NameInv, RecapturesOk, Beats, PendingOf, NameRegFee;
    if nm in L.registry.recaptures { SoundOne(L, nm, ev.height); }
    var paid := if ev.height >= V15_HEIGHT then Some(EpochOf(ev.height) + NAME_TERM_EPOCHS) else None;
    TakeQuiet(L, ev, x, NameRec(ev.proposer, eff, ev.pos, ev.id, ev.height, false, false, None, true, Some(FinalizeBy(eff))), nm);
    TakeQuiet(L, ev, x, NameRec(ev.proposer, eff, ev.pos, ev.id, ev.height, false, false, paid, false, None), nm);
  }

  /** A reveal of a lapsed name can only contest its reservation, and past the window no anchor is early enough. */
  lemma ContestMoves(L: Ledger, ev: Event, x: string, eff: nat, revealed: Option<Hash>, nm: string)
    requires NameInv(L) && RecapturesOk(L.registry, ev.height) && ev.Propose? && ev.height >= V26_HEIGHT
    requires EffHeight(L, ev.height, revealed) == Some(eff) && IsLapsedClaim(Current(L, x, ev.height), ev.height)
    ensures RecaptureMoved(L, ReserveRecapture(L, ev, x, eff), ev, nm)
  {
    hide NameInv, RecapturesOk, RecapturesOf;
    if nm in L.registry.recaptures { SoundOne(L, nm, ev.height); }
  }

  lemma RevealMoves(L: Ledger, ev: Event, x: string, revealed: Option<Hash>, nm: string)
    requires NameInv(L) && RecapturesOk(L.registry, ev.height) && ev.Propose?
    ensures RecaptureMoved(L, ApplyName(L, ev, x, revealed), ev, nm)
  {
    hide Reclaim, Reserve, Register, ReserveRecapture, NameInv, RecapturesOk;
    if nm in L.registry.recaptures { SoundOne(L, nm, ev.height); }
    var effHeight := EffHeight(L, ev.height, revealed);
    if effHeight.Some? {
      var cur := Current(L, x, ev.height);
      if IsLapsedClaim(cur, ev.height) {
        LapsedIsLate(L, x, ev.height);
        ContestMoves(L, ev, x, effHeight.value, revealed, nm);
      } else {
        ReserveQuiet(L, ev, x, effHeight.value, nm);
      }
    }
  }

  /** A finalize of either lane: registration touches no lapsed name, recapture ends its own reservation. */
  lemma FinalizeMoves(L: Ledger, ev: Event, x: string, opening: Hash, nm: string)
    requires RecapturesOk(L.registry, ev.height) && ev.Propose? && ev.rec == Some(Nfinalize(x, opening))
    ensures RecaptureMoved(L, ApplyNfinalize(L, ev, x, opening), ev, nm)
  {
    hide CloseAll, RecapturesOk, NameRegFee, ExpiredClaimFee, Finalizable;
    if nm in L.registry.recaptures {
      SoundOne(L, nm, ev.height);
      PassQuiet(L, L.market.offerIds, Void(x, ev.height), nm);
    } else {
      CloseAllEffect(L, L.market.offerIds, Void(x, ev.height));
    }
  }

  lemma ProposeMovesRecapture(L: Ledger, ev: Event, nm: string)
    requires NameInv(L) && RecapturesOk(L.registry, ev.height) && ev.Propose?
    ensures RecaptureMoved(L, ApplyPropose(L, ev), ev, nm)
  {
    hide EnvelopeRefused, Listable, Grants, NameRegFee, OcancelTargets, CloseAll, RecapturesOk, NameInv;
    hide ApplyName, ApplyNfinalize, Credit, BalOf, MintCredit, Pt, NewOffer, AddOffer, EffExpiry;
    if nm in L.registry.recaptures {
      SoundOne(L, nm, ev.height);
      LapsedIsLate(L, nm, ev.height);
    }
    match ev.rec
    case Some(Name(x, revealed)) => RevealMoves(L, ev, x, revealed, nm);
    case Some(Nfinalize(x, opening)) => FinalizeMoves(L, ev, x, opening, nm);
    case Some(Ocancel(t, x)) => PassQuiet(L, OcancelTargets(L, L.market.offerIds, ev.proposer, t, x), Immediate, nm);
    case _ =>
  }

  lemma NotForSale(L: Ledger, ev: Event, nm: string)
    requires !Listed(L.market.offers, nm)
    ensures !IsSale(L, ev, nm)
  {
  }

  /** A lapsed name is not listed, so no fill hands it over. */
  lemma AttestQuiet(L: Ledger, ev: Event, nm: string)
    requires NameInv(L) && TimeInv(L) && RecapturesOk(L.registry, ev.height) && ev.Attest? && L.block == ev.height
    ensures Quiet(L, ApplyAttest(L, ev), nm)
  {
    hide ApplyAttest, NameInv, TimeInv, RecapturesOk;
    AttestHasShape(L, ev);
    if nm in L.registry.recaptures {
      SoundOne(L, nm, ev.height);
      LapsedUnlocked(L, nm, ev.height);
      AttestHolds(L, ev, nm);
      NotForSale(L, ev, nm);
    }
  }

  lemma HandleMovesRecapture(L: Ledger, ev: Event, nm: string)
    requires NameInv(L) && TimeInv(L) && RecapturesOk(L.registry, ev.height) && L.block == ev.height
    ensures RecaptureMoved(L, Handle(L, ev), ev, nm)
  {
    hide ApplyPropose, ApplyAttest;
    if ev.Propose? { ProposeMovesRecapture(L, ev, nm); } else { AttestQuiet(L, ev, nm); }
  }

  // ----- over runs -----

  lemma MovedKeepsRecaptures(L: Ledger, M: Ledger, ev: Event)
    requires RecapturesOk(L.registry, ev.height) && forall nm :: RecaptureMoved(L, M, ev, nm)
    ensures RecapturesOk(M.registry, ev.height)
  {
    hide Lapsed;
    forall nm | nm in M.registry.recaptures ensures RecaptureSound(M.registry.recaptures[nm], M.registry.names, nm, ev.height) {
      assert RecaptureMoved(L, M, ev, nm);
      if Quiet(L, M, nm) {
        SoundOne(L, nm, ev.height);
        SoundBesidesLock(L.registry.recaptures[nm], L.registry.names, M.registry.names, nm, ev.height);
      }
    }
  }

  lemma SoundBesidesLock(r: Recapture, a: map<string, NameRec>, b: map<string, NameRec>, nm: string, height: nat)
    requires RecaptureSound(r, a, nm, height) && nm in b && b[nm] == a[nm].(locked := b[nm].locked)
    ensures RecaptureSound(r, b, nm, height)
  {
  }

  lemma StepKeepsRecaptures(L: Ledger, ev: Event)
    requires Inv(L) && Next(L, ev) && RecaptureInv(L)
    ensures RecaptureInv(Step(L, ev))
  {
    hide Prepare, Handle, IndexInv, OffersInv, TimeInv, TokenInv, NameInv, CapOk, RecapturesOk, RecaptureMoved;
    if ev.height >= ACTIVATION_HEIGHT {
      NextHeight(L, ev);
      var P := Prepare(L, ev.height);
      PrepareKeepsInv(L, ev.height);
      PrepareKeepsRecaptures(L, ev.height);
      forall nm ensures RecaptureMoved(P, Handle(P, ev), ev, nm) { HandleMovesRecapture(P, ev, nm); }
      MovedKeepsRecaptures(P, Handle(P, ev), ev);
      PrepareNext(L, ev);
      HandleKeepsInv(P, ev);
    }
  }

  /** On every reachable ledger a recapture reservation is of a name whose lease has lapsed: the branch of the finalize
      that finds the name no longer lapsed never runs. */
  lemma {:induction false} RunKeepsRecaptures(L: Ledger, evs: seq<Event>)
    requires Inv(L) && RecaptureInv(L) && Follows(L, evs)
    ensures RecaptureInv(RunFrom(L, evs))
  {
    hide Step, Inv, RecaptureInv;
    if evs != [] {
      var rest, ev := evs[..|evs| - 1], evs[|evs| - 1];
      RestFollows(L, evs);
      RunKeepsInv(L, rest);
      LastNext(L, RunFrom(L, rest), evs);
      RunKeepsRecaptures(L, rest);
      StepKeepsRecaptures(RunFrom(L, rest), ev);
    }
  }

  lemma FeedRecaptures(evs: seq<Event>)
    requires Feed(evs)
    ensures Inv(Run(evs)) && RecaptureInv(Run(evs))
  {
    hide Step, Inv, RecaptureInv;
    EmptyInv();
    EmptyRecaptures();
    RunKeepsInv(EMPTY, evs);
    RunKeepsRecaptures(EMPTY, evs);
  }

  lemma EmptyRecaptures()
    ensures RecaptureInv(EMPTY)
  {
  }

  /** The reservation and the lapsed record it is of. */
  ghost predicate SameRecapture(L: Ledger, M: Ledger, nm: string)
    requires nm in L.registry.recaptures && nm in L.registry.names
  {
    nm in M.registry.recaptures && M.registry.recaptures[nm] == L.registry.recaptures[nm]
    && nm in M.registry.names && M.registry.names[nm] == L.registry.names[nm]
  }

  lemma RecaptureUnlocked(L: Ledger, nm: string)
    requires Inv(L) && RecaptureInv(L) && L.block >= 0 && nm in L.registry.recaptures
    ensures nm in L.registry.names && !L.registry.names[nm].pending && !L.registry.names[nm].locked
    ensures L.registry.recaptures[nm].finalizeBy == FinalizeBy(L.registry.recaptures[nm].effHeight)
  {
    hide IndexInv, OffersInv, TokenInv, NameInv, CapOk, TimeInv, Lapsed;
    SoundOne(L, nm, L.block);
    LapsedUnlocked(L, nm, L.block);
  }

  /** In its finalize window nothing but its owner's finalize touches the reservation or the lapsed record. */
  lemma RecaptureSpared(L: Ledger, ev: Event, nm: string)
    requires Inv(L) && RecaptureInv(L) && Next(L, ev) && L.block >= 0 && nm in L.registry.recaptures && nm in L.registry.names
    requires InFinalizeWindow(L.registry.recaptures[nm], ev.height)
    requires !(IsFinalize(ev, nm) && ev.proposer == L.registry.recaptures[nm].owner)
    ensures SameRecapture(L, Step(L, ev), nm)
  {
    hide Prepare, Handle, Inv, RecaptureInv, Next;
    NextHeight(L, ev);
    RecaptureUnlocked(L, nm);
    StepKeepsInv(L, ev);
    StepKeepsRecaptures(L, ev);
    if ev.height >= ACTIVATION_HEIGHT {
      RecaptureThrough(L, ev, nm);
      RecaptureUnlocked(Step(L, ev), nm);
    }
  }

  lemma RecaptureThrough(L: Ledger, ev: Event, nm: string)
    requires Inv(L) && RecaptureInv(L) && Next(L, ev) && nm in L.registry.recaptures && nm in L.registry.names
    requires InFinalizeWindow(L.registry.recaptures[nm], ev.height) && ev.height >= ACTIVATION_HEIGHT
    requires !(IsFinalize(ev, nm) && ev.proposer == L.registry.recaptures[nm].owner)
    ensures var M := Step(L, ev);
      && nm in M.registry.recaptures && M.registry.recaptures[nm] == L.registry.recaptures[nm]
      && nm in M.registry.names && M.registry.names[nm] == L.registry.names[nm].(locked := M.registry.names[nm].locked)
      && M.block >= 0
  {
    hide Prepare, Handle, IndexInv, OffersInv, TimeInv, TokenInv, NameInv, CapOk, RecapturesOk, IsFinalize, Next;
    NextHeight(L, ev);
    var P := Prepare(L, ev.height);
    PrepareKeepsInv(L, ev.height);
    PrepareKeepsRecaptures(L, ev.height);
    HandleMovesRecapture(P, ev, nm);
    PrepareNext(L, ev);
    HandleKeepsInv(P, ev);
  }

  /** A live recapture reservation past its reveal window, the lapsed record it is of and the commit that opens it come
      unchanged through any continuation of its finalize window, short of its owner's own finalize. */
  lemma {:induction false} RecaptureKept(L: Ledger, evs: seq<Event>, nm: string, c: Hash)
    requires Inv(L) && RecaptureInv(L) && L.block >= 0 && Follows(L, evs)
    requires nm in L.registry.recaptures && nm in L.registry.names && c in L.registry.commits
    requires var r := L.registry.recaptures[nm];
      forall i :: 0 <= i < |evs| ==> InFinalizeWindow(r, evs[i].height) && !(IsFinalize(evs[i], nm) && evs[i].proposer == r.owner)
    ensures var M := RunFrom(L, evs);
      && Inv(M) && RecaptureInv(M) && M.block >= 0 && SameRecapture(L, M, nm)
      && c in M.registry.commits && M.registry.commits[c] == L.registry.commits[c]
  {
    hide Step, Inv, RecaptureInv, InFinalizeWindow, IsFinalize;
    if evs != [] {
      var rest, ev := evs[..|evs| - 1], evs[|evs| - 1];
      RestFollows(L, evs);
      RunKeepsInv(L, evs);
      RunKeepsInv(L, rest);
      RunKeepsRecaptures(L, evs);
      LastNext(L, RunFrom(L, rest), evs);
      RecaptureKept(L, rest, nm, c);
      RecaptureSpared(RunFrom(L, rest), ev, nm);
      CommitKept(RunFrom(L, rest), ev, c);
    }
  }

  /** The decaying premium of a lapsed name at `height`. */
  function Premium(n: NameRec, nm: string, height: nat): nat {
    var past := EpochOf(height) - (PaidThrough(n) + NAME_GRACE_EPOCHS);
    ExpiredClaimFee(|nm|, if past >= 0 then past else 0, height)
  }

  /** The record a finalized recapture leaves: the winner's own anchor, a full fresh term. */
  function Recaptured(r: Recapture, height: nat): NameRec {
    NameRec(r.owner, r.effHeight, r.pos, r.id, r.height, false, false, Some(EpochOf(height) + NAME_TERM_EPOCHS), false, None)
  }

  lemma RecaptureAccepted(L: Ledger, fin: Event, nm: string, opening: Hash)
    requires Inv(L) && RecaptureInv(L) && Next(L, fin) && L.block >= 0 && nm in L.registry.recaptures && nm in L.registry.names
    requires fin.Propose? && fin.rec == Some(Nfinalize(nm, opening)) && fin.proposer == L.registry.recaptures[nm].owner
    requires InFinalizeWindow(L.registry.recaptures[nm], fin.height)
    requires opening in L.registry.commits && L.registry.commits[opening] == L.registry.recaptures[nm].effHeight
    requires Pt(fin.paidTo, TREASURY_ADDR) >= Premium(L.registry.names[nm], nm, fin.height)
    ensures var M := Step(L, fin);
      && nm in M.registry.names && M.registry.names[nm] == Recaptured(L.registry.recaptures[nm], fin.height)
      && nm !in M.registry.recaptures
      && M.feesPaid == L.feesPaid + Premium(L.registry.names[nm], nm, fin.height)
  {
    hide Prepare, Handle, IndexInv, OffersInv, TimeInv, TokenInv, NameInv, CapOk, RecapturesOk, Premium, Next;
    NextHeight(L, fin);
    RecaptureUnlocked(L, nm);
    PrepareKeepsRecaptures(L, fin.height);
    PrepareKeepsInv(L, fin.height);
    var P := Prepare(L, fin.height);
    PrepareWinds(L, fin.height);
    SoundOne(P, nm, fin.height);
    LapsedIsLate(P, nm, fin.height);
    FinalizeTakes(P, fin, nm, opening);
  }

  /** An opened, paid finalize of a live reservation takes the lapsed name. */
  lemma FinalizeTakes(P: Ledger, fin: Event, nm: string, opening: Hash)
    requires nm in P.registry.recaptures && RecaptureSound(P.registry.recaptures[nm], P.registry.names, nm, fin.height)
    requires fin.Propose? && fin.rec == Some(Nfinalize(nm, opening)) && fin.proposer == P.registry.recaptures[nm].owner
    requires fin.height >= V26_HEIGHT && InFinalizeWindow(P.registry.recaptures[nm], fin.height)
    requires opening in P.registry.commits && P.registry.commits[opening] == P.registry.recaptures[nm].effHeight
    requires Pt(fin.paidTo, TREASURY_ADDR) >= Premium(P.registry.names[nm], nm, fin.height)
    ensures var M := Handle(P, fin);
      && nm in M.registry.names && M.registry.names[nm] == Recaptured(P.registry.recaptures[nm], fin.height)
      && nm !in M.registry.recaptures && M.feesPaid == P.feesPaid + Premium(P.registry.names[nm], nm, fin.height)
  {
    hide ExpiredClaimFee, CloseAll;
    CloseAllEffect(P, P.market.offerIds, Void(nm, fin.height));
  }

  /** A live recapture reservation wins: whatever anyone anchors in its finalize window, its owner's opened finalize that
      pays the premium of the lapsed record, mined before the window ends, takes the name for a full term. */
  lemma SafeRecaptureIsAccepted(L: Ledger, evs: seq<Event>, fin: Event, nm: string, opening: Hash)
    requires Inv(L) && RecaptureInv(L) && L.block >= 0 && Follows(L, evs + [fin])
    requires nm in L.registry.recaptures && nm in L.registry.names
    requires opening in L.registry.commits && L.registry.commits[opening] == L.registry.recaptures[nm].effHeight
    requires fin.Propose? && fin.rec == Some(Nfinalize(nm, opening)) && fin.proposer == L.registry.recaptures[nm].owner
    requires InFinalizeWindow(L.registry.recaptures[nm], fin.height)
    requires Pt(fin.paidTo, TREASURY_ADDR) >= Premium(L.registry.names[nm], nm, fin.height)
    requires var r := L.registry.recaptures[nm];
      forall i :: 0 <= i < |evs| ==> InFinalizeWindow(r, evs[i].height) && !(IsFinalize(evs[i], nm) && evs[i].proposer == r.owner)
    ensures var M := RunFrom(L, evs + [fin]);
      && nm in M.registry.names && M.registry.names[nm] == Recaptured(L.registry.recaptures[nm], fin.height)
      && nm !in M.registry.recaptures
      && M.feesPaid == RunFrom(L, evs).feesPaid + Premium(L.registry.names[nm], nm, fin.height)
  {
    hide Step, Inv, RecaptureInv, InFinalizeWindow, IsFinalize, Premium;
    BeforeLast(L, evs, fin);
    RecaptureKept(L, evs, nm, opening);
    RecaptureAccepted(RunFrom(L, evs), fin, nm, opening);
  }
}
