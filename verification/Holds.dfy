/** The per-address cap on concurrent holds, and the invariant of every reachable ledger. */
module HoldCap {
  import opened Rules
  import opened Ledgers
  import opened Handlers
  import opened Replay
  import opened Closing
  import opened OfferInvariants
  import opened Moves
  import opened HeightInvariants
  import opened IndexInvariants
  import opened Conservation
  import opened NameSafety

  /** The open offers that `who` holds at `height`. */
  function OpenHolds(offers: map<Id, Offer>, who: Addr, height: nat): set<Id> {
    set id | id in offers && offers[id].status.Open? && HeldBy(offers[id], who, height)
  }

  ghost predicate CapOk(offers: map<Id, Offer>, height: nat) {
    forall who: Addr :: |OpenHolds(offers, who, height)| <= MAX_ACTIVE_CLAIMS
  }

  ghost predicate HoldInv(L: Ledger) { CapOk(L.market.offers, if L.block >= 0 then L.block else 0) }

  lemma {:induction false} SubsetSize(a: set<Id>, b: set<Id>)
    requires a <= b
    ensures |a| <= |b|
  {
    if a != {} {
      var x :| x in a;
      SubsetSize(a - {x}, b - {x});
    }
  }

  /** Closing offers and moving on in height only ends holds. */
  lemma WindKeepsCap(a: map<Id, Offer>, b: map<Id, Offer>, from: nat, to: nat)
    requires CapOk(a, from) && from <= to && b.Keys == a.Keys && forall id :: id in a ==> Wound(a[id], b[id])
    ensures CapOk(b, to)
  {
    forall who: Addr ensures |OpenHolds(b, who, to)| <= MAX_ACTIVE_CLAIMS {
      SubsetSize(OpenHolds(b, who, to), OpenHolds(a, who, from));
    }
  }

  lemma PrepareKeepsCap(L: Ledger, height: nat)
    requires HoldInv(L) && IndexInv(L) && height >= L.block
    ensures CapOk(Prepare(L, height).market.offers, height)
  {
    PrepareWinds(L, height);
    WindKeepsCap(L.market.offers, Prepare(L, height).market.offers, if L.block >= 0 then L.block else 0, height);
  }

  /** A replaced offer keeps its claim, or gets a hold the ladder allows. */
  lemma ReplacedHold(L: Ledger, ev: Event)
    requires MoveOf(L, ev).Replaced?
    ensures var o, now := L.market.offers[MoveOf(L, ev).oid], MoveOf(L, ev).now;
      (now.hold == o.hold && now.claimTxid == o.claimTxid)
      || (now.hold.Some? && !ClaimHeld(o, ev.height) && LiveHoldCount(L, now.hold.value.holder, ev.height) < MAX_ACTIVE_CLAIMS)
  {
    ReplacedTerms(L, ev);
    if ev.Attest? && ev.score == SCORE_FILL { assert AttestMove(L, ev) == FillMove(L, ev, Routed(L, ev).value); }
  }

  lemma GrantKeepsCap(L: Ledger, oid: Id, now: Offer, height: nat)
    requires CapOk(L.market.offers, height) && oid in L.market.offers
    requires now.hold.Some? && !ClaimHeld(L.market.offers[oid], height)
    requires LiveHoldCount(L, now.hold.value.holder, height) < MAX_ACTIVE_CLAIMS
    ensures CapOk(L.market.offers[oid := now], height)
  {
    var a := L.market.offers;
    var b := a[oid := now];
    forall who: Addr ensures |OpenHolds(b, who, height)| <= MAX_ACTIVE_CLAIMS {
      if who == now.hold.value.holder {
        var live := LiveHolds(a, who, height);
        SubsetSize(OpenHolds(b, who, height), live + {oid});
      } else {
        SubsetSize(OpenHolds(b, who, height), OpenHolds(a, who, height));
      }
    }
  }

  lemma PutKeepsCap(a: map<Id, Offer>, oid: Id, now: Offer, height: nat)
    requires CapOk(a, height) && (oid in a ==> a[oid].status.Open? && now.hold == a[oid].hold && now.claimTxid == a[oid].claimTxid)
    requires oid !in a ==> now.hold.None?
    ensures CapOk(a[oid := now], height)
  {
    var b := a[oid := now];
    forall who: Addr ensures |OpenHolds(b, who, height)| <= MAX_ACTIVE_CLAIMS {
      SubsetSize(OpenHolds(b, who, height), OpenHolds(a, who, height));
    }
  }

  lemma HandleKeepsCap(L: Ledger, ev: Event)
    requires CapOk(L.market.offers, ev.height) && OffersInv(L) && Next(L, ev)
    ensures CapOk(Handle(L, ev).market.offers, ev.height)
  {
    HandleMoves(L, ev);
    var m, a, b := MoveOf(L, ev), L.market.offers, Handle(L, ev).market.offers;
    if m.Pass? {
      WindKeepsCap(a, b, ev.height, ev.height);
    } else if m.Added? {
      AddedIsNew(L, ev);
      PutKeepsCap(a, m.o.id, m.o, ev.height);
    } else if m.Replaced? {
      ReplacedTerms(L, ev);
      ReplacedHold(L, ev);
      if m.now.hold == a[m.oid].hold && m.now.claimTxid == a[m.oid].claimTxid {
        PutKeepsCap(a, m.oid, m.now, ev.height);
      } else {
        GrantKeepsCap(L, m.oid, m.now, ev.height);
      }
    }
  }

  // ----- every reachable ledger -----

  /** No id is both an offer and an fclaim. */
  ghost predicate IdsApart(L: Ledger) { L.fclaims.Keys !! L.market.offers.Keys }

  ghost predicate Inv(L: Ledger) {
    IndexInv(L) && OffersInv(L) && TimeInv(L) && TokenInv(L) && NameInv(L) && HoldInv(L) && IdsApart(L)
  }

  lemma PrepareKeepsInv(L: Ledger, height: nat)
    requires Inv(L) && height >= L.block
    ensures Inv(Prepare(L, height)) && Prepare(L, height).block == height
  {
    hide Prepare, IndexInv, OffersInv, TimeInv, TokenInv, NameInv, CapOk;
    PrepareWinds(L, height);
    PrepareKeepsTime(L, height);
    PrepareKeepsOffers(L, height);
    PrepareKeepsTokens(L, height);
    PrepareKeepsNames(L, height);
    PrepareKeepsCap(L, height);
    PrepareKeepsIndex(L, height);
  }

  lemma PrepareKeepsIndex(L: Ledger, height: nat)
    requires IndexInv(L)
    ensures IndexInv(Prepare(L, height))
  {
    PrepareIs(L, height);
    SweepIndex(EnterBlock(L, height), height);
  }

  lemma PrepareNext(L: Ledger, ev: Event)
    requires Inv(L) && Next(L, ev)
    ensures Next(Prepare(L, ev.height), ev)
  {
    PrepareWinds(L, ev.height);
  }

  lemma HandleKeepsInv(L: Ledger, ev: Event)
    requires Inv(L) && Next(L, ev) && L.block == ev.height
    ensures Inv(Handle(L, ev)) && Handle(L, ev).block == ev.height
  {
    hide Handle, IndexInv, OffersInv, TimeInv, TokenInv, NameInv, CapOk, Next;
    HandleKeepsIndex(L, ev);
    HandleKeepsOffers(L, ev);
    HandleKeepsTime(L, ev);
    HandleKeepsTokens(L, ev);
    HandleKeepsNames(L, ev);
    HandleKeepsCap(L, ev);
    HandleKeepsIds(L, ev);
  }

  lemma HandleKeepsIds(L: Ledger, ev: Event)
    requires OffersInv(L) && Next(L, ev) && IdsApart(L)
    ensures IdsApart(Handle(L, ev))
  {
    hide Handle, MoveOf;
    HandleMoves(L, ev);
    HandleQueue(L, ev);
    if MoveOf(L, ev).Added? { AddedIsNew(L, ev); }
  }

  lemma HandleKeepsOffers(L: Ledger, ev: Event)
    requires OffersInv(L) && TimeInv(L) && Next(L, ev)
    ensures OffersInv(Handle(L, ev))
  {
    hide ApplyPropose, ApplyAttest;
    if ev.Propose? { ProposeKeepsOffers(L, ev); } else { AttestKeepsOffers(L, ev); }
  }

  /** One event keeps everything. */
  lemma StepKeepsInv(L: Ledger, ev: Event)
    requires Inv(L) && Next(L, ev)
    ensures Inv(Step(L, ev)) && L.block <= Step(L, ev).block <= ev.height
  {
    hide Prepare, Handle, Inv, Next;
    NextHeight(L, ev);
    if ev.height >= ACTIVATION_HEIGHT {
      PrepareKeepsInv(L, ev.height);
      PrepareNext(L, ev);
      HandleKeepsInv(Prepare(L, ev.height), ev);
    }
  }

  lemma NextHeight(L: Ledger, ev: Event)
    requires Next(L, ev)
    ensures ev.height >= L.block
  {
  }

  // ----- whole runs -----

  /** The proposal ids a ledger has met. */
  function Known(L: Ledger): set<Id> { L.market.offers.Keys + L.fclaims.Keys + L.bidBook.bids.Keys }

  function Ids(evs: seq<Event>): set<Id> { set i | 0 <= i < |evs| :: evs[i].id }

  /** A feed that can follow `L`: nothing earlier than its block, no id it has met. */
  ghost predicate Follows(L: Ledger, evs: seq<Event>) {
    Feed(evs) && (forall i :: 0 <= i < |evs| ==> evs[i].height >= L.block) && Ids(evs) !! Known(L)
  }

  lemma HandleKnown(L: Ledger, ev: Event)
    requires OffersInv(L)
    ensures Known(Handle(L, ev)) <= Known(L) + {ev.id}
  {
    HandleQueue(L, ev);
    HandleMoves(L, ev);
    if MoveOf(L, ev).Added? { AddedIsNew(L, ev); }
  }

  lemma StepKnown(L: Ledger, ev: Event)
    requires Inv(L) && Next(L, ev)
    ensures Known(Step(L, ev)) <= Known(L) + {ev.id}
  {
    hide Prepare, Handle, MoveOf;
    if ev.height >= ACTIVATION_HEIGHT {
      PrepareWinds(L, ev.height);
      PrepareKeepsOffers(L, ev.height);
      HandleKnown(Prepare(L, ev.height), ev);
    }
  }

  /** Every ledger a run can reach keeps the invariant. */
  lemma {:induction false} RunKeepsInv(L: Ledger, evs: seq<Event>)
    requires Inv(L) && Follows(L, evs)
    ensures var M := RunFrom(L, evs);
      && Inv(M) && Known(M) <= Known(L) + Ids(evs) && L.block <= M.block
      && (evs != [] ==> M.block <= evs[|evs| - 1].height || M.block == L.block)
  {
    hide Step, Inv;
    if evs != [] {
      var rest, ev := evs[..|evs| - 1], evs[|evs| - 1];
      RestFollows(L, evs);
      RunKeepsInv(L, rest);
      LastNext(L, RunFrom(L, rest), evs);
      StepKeepsInv(RunFrom(L, rest), ev);
      StepKnown(RunFrom(L, rest), ev);
      assert ev.id in Ids(evs) && Ids(rest) <= Ids(evs);
    }
  }

  lemma RestFollows(L: Ledger, evs: seq<Event>)
    requires Follows(L, evs) && evs != []
    ensures Follows(L, evs[..|evs| - 1]) && Ids(evs[..|evs| - 1]) <= Ids(evs)
  {
    var rest := evs[..|evs| - 1];
    assert forall i :: 0 <= i < |rest| ==> rest[i] == evs[i];
    forall x | x in Ids(rest) ensures x in Ids(evs) {
      var i :| 0 <= i < |rest| && rest[i].id == x;
      assert evs[i].id == x;
    }
  }

  lemma LastNext(L: Ledger, M: Ledger, evs: seq<Event>)
    requires Follows(L, evs) && evs != [] && Known(M) <= Known(L) + Ids(evs[..|evs| - 1]) && L.block <= M.block
    requires M.block == L.block || (|evs| > 1 && M.block <= evs[|evs| - 2].height)
    ensures Next(M, evs[|evs| - 1])
  {
    var ev, rest := evs[|evs| - 1], evs[..|evs| - 1];
    assert forall i :: 0 <= i < |rest| ==> rest[i] == evs[i] && evs[i].id != ev.id;
    assert ev.id in Ids(evs) && ev.id !in Ids(rest);
    if |evs| > 1 { assert Before(evs[|evs| - 2], ev); }
  }

  /** The ledger a run starts from keeps everything, and any feed can follow it. */
  lemma EmptyInv()
    ensures Inv(EMPTY) && Known(EMPTY) == {}
  {
    forall who: Addr ensures |OpenHolds(EMPTY.market.offers, who, 0)| <= MAX_ACTIVE_CLAIMS {
      assert OpenHolds(EMPTY.market.offers, who, 0) == {};
    }
  }
}
