/** Hold safety: once an fclaim is granted, nothing but the holder's own fill touches the offer until the hold ends. */
module HoldSafety {
  import opened Rules
  import opened Ledgers
  import opened Handlers
  import opened Replay
  import opened Closing
  import opened OfferInvariants
  import opened Moves
  import opened HeightInvariants
  import opened HoldCap

  /** `o` is open and held by `who` through fclaim `f`, to the end of epoch `E`, no later than the offer itself lives. */
  predicate HeldThrough(o: Offer, who: Addr, f: Id, E: nat) {
    && o.status.Open? && o.claimTxid == Some(f) && o.hold == Some(Hold(who, (E + 1) * EPOCH_LEN))
    && E <= EffExpiry(o.expiresEpoch, o.height, V28_HEIGHT)
  }

  /** Is the event a fill attempt by `who` on the offer, under its own id or the fclaim's? */
  predicate OwnFill(ev: Event, who: Addr, oid: Id, f: Id) {
    ev.Attest? && ev.score == SCORE_FILL && ev.attester == who && (ev.proposalId == oid || ev.proposalId == f)
  }

  /** From V28 on neither a deferred cancel, a name void nor the sweep closes a held offer. */
  lemma HeldNotDue(o: Offer, who: Addr, f: Id, E: nat, why: Reason)
    requires HeldThrough(o, who, f, E) && !why.Immediate?
    requires V28_HEIGHT <= why.height <= FclaimHoldEnd(E)
    ensures !Due(why, o)
  {
  }

  lemma {:induction false} FlushSparesHeld(L: Ledger, cancels: seq<Deferred>, oid: Id, who: Addr, f: Id, E: nat)
    requires oid in L.market.offers && HeldThrough(L.market.offers[oid], who, f, E)
    requires forall i :: 0 <= i < |cancels| ==> V28_HEIGHT <= cancels[i].height <= FclaimHoldEnd(E)
    ensures oid in FlushFrom(L, cancels).market.offers && FlushFrom(L, cancels).market.offers[oid] == L.market.offers[oid]
  {
    if cancels != [] {
      var c, rest := cancels[|cancels| - 1], cancels[..|cancels| - 1];
      FlushSparesHeld(L, rest, oid, who, f, E);
      CloseAllEffect(FlushFrom(L, rest), c.targets, Flush(c.height));
      HeldNotDue(L.market.offers[oid], who, f, E, Flush(c.height));
    }
  }

  lemma PrepareSparesHeld(L: Ledger, height: nat, oid: Id, who: Addr, f: Id, E: nat)
    requires Inv(L) && L.block <= height <= FclaimHoldEnd(E)
    requires oid in L.market.offers && HeldThrough(L.market.offers[oid], who, f, E)
    ensures oid in Prepare(L, height).market.offers && Prepare(L, height).market.offers[oid] == L.market.offers[oid]
  {
    var o := L.market.offers[oid];
    assert ClaimOk(oid, o, L.fclaims);
    assert V28_HEIGHT <= L.fclaims[f].height <= L.block;
    FlushSparesHeld(L, L.pendingCancels, oid, who, f, E);
    PrepareIs(L, height);
    var B := EnterBlock(L, height);
    CloseAllEffect(B, B.market.offerIds, Sweep(height));
    HeldNotDue(o, who, f, E, Sweep(height));
  }

  /** No event but the holder's fill moves a held offer. */
  lemma MoveSparesHeld(L: Ledger, ev: Event, oid: Id, who: Addr, f: Id, E: nat)
    requires OffersInv(L) && Next(L, ev) && V28_HEIGHT <= ev.height <= FclaimHoldEnd(E)
    requires oid in L.market.offers && HeldThrough(L.market.offers[oid], who, f, E) && !OwnFill(ev, who, oid, f)
    ensures match MoveOf(L, ev)
            case Still => true
            case Pass(_, why) => !Due(why, L.market.offers[oid])
            case Added(o) => o.id != oid
            case Replaced(id, _) => id != oid
  {
    var o := L.market.offers[oid];
    assert OfferOk(oid, o) && ClaimHeld(o, ev.height);
    if ev.Attest? {
      if Routed(L, ev) == Some(oid) { AttestSparesHeld(L, ev, oid, who, f, E); }
    } else {
      ProposeSparesHeld(L, ev, oid, who, f, E);
    }
  }

  lemma AttestSparesHeld(L: Ledger, ev: Event, oid: Id, who: Addr, f: Id, E: nat)
    requires OffersInv(L) && ev.Attest? && V28_HEIGHT <= ev.height <= FclaimHoldEnd(E) && Routed(L, ev) == Some(oid)
    requires HeldThrough(L.market.offers[oid], who, f, E) && !OwnFill(ev, who, oid, f)
    ensures AttestMove(L, ev).Still?
  {
    var o := L.market.offers[oid];
    assert OfferOk(oid, o) && ClaimHeld(o, ev.height);
    if ev.score == SCORE_FILL {
      assert ev.proposalId == oid || o.claimTxid == Some(ev.proposalId);
      assert FillBarred(o, ev);
    }
  }

  lemma ProposeSparesHeld(L: Ledger, ev: Event, oid: Id, who: Addr, f: Id, E: nat)
    requires Next(L, ev) && ev.Propose? && V28_HEIGHT <= ev.height <= FclaimHoldEnd(E)
    requires oid in L.market.offers && HeldThrough(L.market.offers[oid], who, f, E)
    ensures match ProposeMove(L, ev)
            case Still => true
            case Pass(_, why) => !Due(why, L.market.offers[oid])
            case Added(o) => o.id != oid
            case Replaced(id, _) => id != oid
  {
    var o := L.market.offers[oid];
    assert ClaimHeld(o, ev.height);
    match ev.rec
    case Some(Name(nm, _)) => HeldNotDue(o, who, f, E, Void(nm, ev.height));
    case Some(Nfinalize(nm, _)) => HeldNotDue(o, who, f, E, Void(nm, ev.height));
    case _ =>
  }

  lemma StepSparesHeld(L: Ledger, ev: Event, oid: Id, who: Addr, f: Id, E: nat)
    requires Inv(L) && Next(L, ev) && ev.height <= FclaimHoldEnd(E)
    requires oid in L.market.offers && HeldThrough(L.market.offers[oid], who, f, E) && !OwnFill(ev, who, oid, f)
    ensures oid in Step(L, ev).market.offers && Step(L, ev).market.offers[oid] == L.market.offers[oid]
  {
    hide Prepare, Handle, MoveOf;
    var o := L.market.offers[oid];
    assert ClaimOk(oid, o, L.fclaims);
    assert V28_HEIGHT <= L.fclaims[f].height <= L.block;
    var P := Prepare(L, ev.height);
    PrepareSparesHeld(L, ev.height, oid, who, f, E);
    PrepareKeepsInv(L, ev.height);
    PrepareNext(L, ev);
    MoveSparesHeld(P, ev, oid, who, f, E);
    HandleMoves(P, ev);
  }

  /** Whatever anyone anchors after the ledger, short of the holder's own fill, the offer is untouched - open, held,
      routed to the same fclaim, its progress unchanged - through the last height of the hold. */
  lemma {:induction false} HeldOfferUntouched(L: Ledger, evs: seq<Event>, oid: Id, who: Addr, f: Id, E: nat)
    requires Inv(L) && Follows(L, evs)
    requires oid in L.market.offers && HeldThrough(L.market.offers[oid], who, f, E)
    requires forall i :: 0 <= i < |evs| ==> evs[i].height <= FclaimHoldEnd(E) && !OwnFill(evs[i], who, oid, f)
    ensures oid in RunFrom(L, evs).market.offers && RunFrom(L, evs).market.offers[oid] == L.market.offers[oid]
  {
    hide Step, Inv;
    if evs != [] {
      var rest, ev := evs[..|evs| - 1], evs[|evs| - 1];
      RestFollows(L, evs);
      RunKeepsInv(L, rest);
      LastNext(L, RunFrom(L, rest), evs);
      HeldOfferUntouched(L, rest, oid, who, f, E);
      StepSparesHeld(RunFrom(L, rest), ev, oid, who, f, E);
    }
  }

  predicate IsFclaim(ev: Event) { ev.Propose? && ev.rec.Some? && ev.rec.value.FclaimRec? }

  /** Does the ledger grant the fclaim that `ev` anchors? */
  predicate GrantedBy(L: Ledger, ev: Event)
    requires IsFclaim(ev)
  {
    ev.id in Step(L, ev).fclaims && Step(L, ev).fclaims[ev.id].granted
  }

  lemma FclaimHolds(L: Ledger, ev: Event)
    requires IsFclaim(ev) && ev.id !in L.fclaims
    requires var M := ApplyFclaim(L, ev, ev.rec.value.offer); ev.id in M.fclaims && M.fclaims[ev.id].granted
    ensures var oid := ev.rec.value.offer; var M := ApplyFclaim(L, ev, oid);
      oid in M.market.offers && HeldThrough(M.market.offers[oid], ev.proposer, ev.id, ev.expiresEpoch)
      && ev.height <= FclaimHoldEnd(ev.expiresEpoch)
  {
  }

  /** What a granted fclaim leaves: its proposer holds the offer to the end of the epoch it asked for. */
  lemma GrantHolds(L: Ledger, ev: Event)
    requires Inv(L) && Next(L, ev) && IsFclaim(ev) && GrantedBy(L, ev)
    ensures var oid := ev.rec.value.offer; var M := Step(L, ev);
      oid in M.market.offers && HeldThrough(M.market.offers[oid], ev.proposer, ev.id, ev.expiresEpoch)
      && ev.height <= FclaimHoldEnd(ev.expiresEpoch)
  {
    hide Prepare, ApplyFclaim;
    var P := Prepare(L, ev.height);
    PrepareWinds(L, ev.height);
    assert ev.height >= ACTIVATION_HEIGHT;
    assert Step(L, ev) == ApplyFclaim(P, ev, ev.rec.value.offer);
    FclaimHolds(P, ev);
  }

  /** From the grant on: the two lemmas together, over every continuation of the run. */
  lemma GrantedHoldIsSafe(L: Ledger, grant: Event, M: Ledger, evs: seq<Event>)
    requires Inv(L) && Next(L, grant) && IsFclaim(grant) && GrantedBy(L, grant) && M == Step(L, grant)
    requires Follows(M, evs)
    requires forall i :: 0 <= i < |evs| ==>
               evs[i].height <= FclaimHoldEnd(grant.expiresEpoch)
               && !OwnFill(evs[i], grant.proposer, grant.rec.value.offer, grant.id)
    ensures var N := RunFrom(M, evs); var oid := grant.rec.value.offer;
      && Inv(N) && oid in M.market.offers && oid in N.market.offers && N.market.offers[oid] == M.market.offers[oid]
      && HeldThrough(N.market.offers[oid], grant.proposer, grant.id, grant.expiresEpoch)
  {
    hide Step, Inv, RunFrom, GrantedBy;
    StepKeepsInv(L, grant);
    GrantHolds(L, grant);
    HeldOfferUntouched(M, evs, grant.rec.value.offer, grant.proposer, grant.id, grant.expiresEpoch);
    RunKeepsInv(M, evs);
  }
}
