/** Where what a ledger holds comes from: every offer and every fclaim record is that of one event of the run, and
    an open offer that routes to an fclaim has done so ever since that fclaim's own event. */
module Provenance {
  import opened Rules
  import opened Ledgers
  import opened Handlers
  import opened Replay
  import opened Closing
  import opened OfferInvariants
  import opened Moves
  import opened HeightInvariants
  import opened Conservation
  import opened NameSafety
  import opened HoldCap
  import opened HoldSafety
  import opened Runs

  predicate IsOffer(ev: Event) { ev.Propose? && ev.rec.Some? && ev.rec.value.OfferRec? }

  /** `f` is the record of this fclaim event. */
  predicate RecordsFclaim(ev: Event, id: Id, f: Fclaim) {
    IsFclaim(ev) && ev.id == id && ev.height >= V28_HEIGHT
    && f == Fclaim(ev.rec.value.offer, ev.proposer, ev.expiresEpoch, ev.height, f.granted)
  }

  /** `o` is the offer this event made. */
  predicate Makes(ev: Event, o: Offer) { IsOffer(ev) && SameTerms(NewOffer(ev, ev.rec.value), o) }

  ghost predicate FclaimFrom(evs: seq<Event>, id: Id, f: Fclaim) {
    exists i :: 0 <= i < |evs| && RecordsFclaim(evs[i], id, f)
  }

  ghost predicate OfferFrom(evs: seq<Event>, o: Offer) { exists i :: 0 <= i < |evs| && Makes(evs[i], o) }

  ghost predicate FromEvents(L: Ledger, evs: seq<Event>) {
    && (forall f :: f in L.fclaims ==> FclaimFrom(evs, f, L.fclaims[f]))
    && (forall o :: o in L.market.offers ==> OfferFrom(evs, L.market.offers[o]))
  }

  lemma HandleRecords(L: Ledger, ev: Event)
    requires OffersInv(L)
    ensures var M := Handle(L, ev);
      && (forall f :: f in M.fclaims && !(f in L.fclaims && M.fclaims[f] == L.fclaims[f]) ==> RecordsFclaim(ev, f, M.fclaims[f]))
      && (forall o :: o in M.market.offers && !(o in L.market.offers && SameTerms(L.market.offers[o], M.market.offers[o]))
            ==> Makes(ev, M.market.offers[o]))
  {
    hide Handle, MoveOf;
    HandleQueue(L, ev);
    HandleMoves(L, ev);
    var m := MoveOf(L, ev);
    if m.Added? { AddedIsNew(L, ev); }
    if m.Replaced? { ReplacedTerms(L, ev); }
  }

  lemma StepRecords(L: Ledger, ev: Event)
    requires Inv(L) && Next(L, ev)
    ensures var M := Step(L, ev);
      && (forall f :: f in M.fclaims && !(f in L.fclaims && M.fclaims[f] == L.fclaims[f]) ==> RecordsFclaim(ev, f, M.fclaims[f]))
      && (forall o :: o in M.market.offers && !(o in L.market.offers && SameTerms(L.market.offers[o], M.market.offers[o]))
            ==> Makes(ev, M.market.offers[o]))
  {
    hide Prepare, Handle, RecordsFclaim, Makes, Next, IndexInv, OffersInv, TimeInv, TokenInv, NameInv, CapOk;
    if ev.height >= ACTIVATION_HEIGHT {
      var P := Prepare(L, ev.height);
      PrepareWinds(L, ev.height);
      NextHeight(L, ev);
      PrepareKeepsInv(L, ev.height);
      HandleRecords(P, ev);
      var M := Handle(P, ev);
      forall o | o in M.market.offers && !(o in L.market.offers && SameTerms(L.market.offers[o], M.market.offers[o]))
        ensures Makes(ev, M.market.offers[o])
      {
        assert o in P.market.offers ==> Wound(L.market.offers[o], P.market.offers[o]);
      }
    }
  }

  lemma FclaimFromMore(evs: seq<Event>, ev: Event, id: Id, f: Fclaim)
    requires FclaimFrom(evs, id, f) || RecordsFclaim(ev, id, f)
    ensures FclaimFrom(evs + [ev], id, f)
  {
    var all := evs + [ev];
    if FclaimFrom(evs, id, f) {
      var i :| 0 <= i < |evs| && RecordsFclaim(evs[i], id, f);
      assert all[i] == evs[i];
    } else {
      assert all[|evs|] == ev;
    }
  }

  lemma OfferFromMore(evs: seq<Event>, ev: Event, a: Offer, b: Offer)
    requires (OfferFrom(evs, a) && SameTerms(a, b)) || Makes(ev, b)
    ensures OfferFrom(evs + [ev], b)
  {
    var all := evs + [ev];
    if OfferFrom(evs, a) && SameTerms(a, b) {
      var i :| 0 <= i < |evs| && Makes(evs[i], a);
      assert all[i] == evs[i] && Makes(all[i], b);
    } else {
      assert all[|evs|] == ev;
    }
  }

  /** Everything a run holds was anchored by one of its events. */
  lemma {:induction false} RunFromEvents(L: Ledger, before: seq<Event>, evs: seq<Event>)
    requires Inv(L) && Follows(L, evs) && FromEvents(L, before)
    ensures FromEvents(RunFrom(L, evs), before + evs)
  {
    hide Step, Inv, FclaimFrom, OfferFrom, SameTerms;
    if evs == [] {
      assert before + evs == before;
    } else {
      var rest, ev := evs[..|evs| - 1], evs[|evs| - 1];
      var K, M := RunFrom(L, rest), RunFrom(L, evs);
      assert before + evs == (before + rest) + [ev];
      RestFollows(L, evs);
      RunKeepsInv(L, rest);
      LastNext(L, K, evs);
      RunFromEvents(L, before, rest);
      StepRecords(K, ev);
      forall f | f in M.fclaims ensures FclaimFrom(before + evs, f, M.fclaims[f]) {
        FclaimFromMore(before + rest, ev, f, M.fclaims[f]);
      }
      forall o | o in M.market.offers ensures OfferFrom(before + evs, M.market.offers[o]) {
        OfferFromMore(before + rest, ev, if o in K.market.offers then K.market.offers[o] else M.market.offers[o], M.market.offers[o]);
      }
    }
  }

  /** The record under an event's id is that event's. */
  lemma FclaimIs(evs: seq<Event>, e: Event)
    requires Feed(evs) && e in evs && e.id in Run(evs).fclaims
    ensures RecordsFclaim(e, e.id, Run(evs).fclaims[e.id])
  {
    hide Step, Inv, RecordsFclaim;
    WholeRunFromEvents(evs);
    var f := Run(evs).fclaims[e.id];
    assert FclaimFrom(evs, e.id, f);
    var i :| 0 <= i < |evs| && RecordsFclaim(evs[i], e.id, f);
    var j :| 0 <= j < |evs| && evs[j] == e;
    assert evs[i].id == e.id by { RecordId(evs[i], e.id, f); }
    assert i == j;
  }

  /** The offer under an event's id has that event's terms: `a` is the part of the feed replayed so far. */
  lemma OfferIs(a: seq<Event>, rest: seq<Event>, e: Event)
    requires Feed(a + rest) && e in a + rest && e.id in Run(a).market.offers
    ensures Makes(e, Run(a).market.offers[e.id])
  {
    hide Step, Makes;
    Continues(a, rest);
    WholeRunFromEvents(a);
    var o := Run(a).market.offers[e.id];
    assert OfferFrom(a, o) && OfferOk(e.id, o);
    var i :| 0 <= i < |a| && Makes(a[i], o);
    MakesId(a[i], o);
    var j :| 0 <= j < |a + rest| && (a + rest)[j] == e;
    assert (a + rest)[i] == a[i];
    assert i == j;
  }

  lemma MakesId(ev: Event, o: Offer)
    requires Makes(ev, o)
    ensures ev.id == o.id
  {
  }

  lemma RecordId(ev: Event, id: Id, f: Fclaim)
    requires RecordsFclaim(ev, id, f)
    ensures ev.id == id
  {
  }

  lemma WholeRunFromEvents(evs: seq<Event>)
    requires Feed(evs)
    ensures FromEvents(Run(evs), evs)
  {
    hide Step, Inv;
    EmptyInv();
    RunFromEvents(EMPTY, [], evs);
    assert [] + evs == evs;
  }

  // ----- an open offer's claim goes back to its own fclaim -----

  /** The offer is open and routes to fclaim `f`. */
  predicate RoutesTo(L: Ledger, oid: Id, f: Id) {
    oid in L.market.offers && L.market.offers[oid].status.Open? && L.market.offers[oid].claimTxid == Some(f)
  }

  lemma HandleRoutes(L: Ledger, ev: Event, oid: Id, f: Id)
    requires OffersInv(L) && ev.id != f && RoutesTo(Handle(L, ev), oid, f)
    ensures RoutesTo(L, oid, f)
  {
    hide Handle;
    HandleMoves(L, ev);
    if MoveOf(L, ev).Replaced? { ReplacedClaim(L, ev); ReplacedTerms(L, ev); }
    if MoveOf(L, ev).Added? { AddedIsNew(L, ev); }
  }

  /** Only a granted fclaim routes an offer anew, and to itself. */
  lemma ReplacedClaim(L: Ledger, ev: Event)
    requires MoveOf(L, ev).Replaced?
    ensures var oid, now := MoveOf(L, ev).oid, MoveOf(L, ev).now;
      oid in L.market.offers && (now.claimTxid == L.market.offers[oid].claimTxid || now.claimTxid == Some(ev.id))
  {
    ReplacedTerms(L, ev);
    if ev.Attest? && ev.score == SCORE_FILL { assert AttestMove(L, ev) == FillMove(L, ev, Routed(L, ev).value); }
  }

  lemma StepRoutes(L: Ledger, ev: Event, oid: Id, f: Id)
    requires Inv(L) && Next(L, ev) && ev.id != f && RoutesTo(Step(L, ev), oid, f)
    ensures RoutesTo(L, oid, f)
  {
    hide Prepare, Handle, IndexInv, OffersInv, TimeInv, TokenInv, NameInv, CapOk;
    if ev.height >= ACTIVATION_HEIGHT {
      NextHeight(L, ev);
      PrepareWinds(L, ev.height);
      PrepareKeepsInv(L, ev.height);
      HandleRoutes(Prepare(L, ev.height), ev, oid, f);
    }
  }

  lemma {:induction false} RunRoutes(L: Ledger, evs: seq<Event>, oid: Id, f: Id)
    requires Inv(L) && Follows(L, evs) && f !in Ids(evs) && RoutesTo(RunFrom(L, evs), oid, f)
    ensures RoutesTo(L, oid, f)
  {
    hide Step, Inv;
    if evs != [] {
      var rest, ev := evs[..|evs| - 1], evs[|evs| - 1];
      RestFollows(L, evs);
      RunKeepsInv(L, rest);
      LastNext(L, RunFrom(L, rest), evs);
      assert ev.id in Ids(evs);
      StepRoutes(RunFrom(L, rest), ev, oid, f);
      RunRoutes(L, rest, oid, f);
    }
  }
}
