/** Who wins a name (packages/cairnx/src/resolve/names.ts:24-25, 49-124): over every run from V25 a reservation's anchor is
    the least of all the reveals that contended for it, and so is a recapture reservation's. */
module Contest {
  import opened Rules
  import opened Ledgers
  import opened Handlers
  import opened Replay
  import opened Closing
  import opened OfferInvariants
  import opened HeightInvariants
  import opened NameSafety
  import opened HoldCap
  import opened Runs
  import opened Registration

  /** What a contest is decided by: the height of the commit, then the place of the reveal in its block. */
  datatype Anchor = Anchor(eff: nat, pos: nat, id: Id)

  /** Lexicographically before. */
  predicate Lower(a: Anchor, b: Anchor) {
    if a.eff != b.eff then a.eff < b.eff
    else if a.pos != b.pos then a.pos < b.pos
    else a.id < b.id
  }

  lemma LowerOrders(a: Anchor, b: Anchor, c: Anchor)
    ensures Lower(a, b) && Lower(b, c) ==> Lower(a, c)
    ensures Lower(a, b) ==> !Lower(b, a)
    ensures !Lower(a, b) && !Lower(b, a) ==> a == b
  {
  }

  function AnchorOf(n: NameRec): Anchor { Anchor(n.effHeight, n.pos, n.id) }

  function RevealAnchor(ev: Event, eff: nat): Anchor { Anchor(eff, ev.pos, ev.id) }

  /** A reveal of `nm` whose commit, at `eff`, is at most eight blocks old. */
  predicate ValidReveal(P: Ledger, ev: Event, nm: string, eff: nat) {
    && ev.Propose? && ev.rec.Some? && ev.rec.value.Name? && ev.rec.value.name == nm && ev.rec.value.revealed.Some?
    && ev.rec.value.revealed.value in P.registry.commits && P.registry.commits[ev.rec.value.revealed.value] == eff
    && eff < ev.height <= eff + 8
  }

  /** The author holds fewer than three live reservations of other names. */
  predicate HasRoom(P: Ledger, ev: Event, nm: string)
    requires ev.Propose?
  {
    |set x | x in P.registry.names && x != nm && P.registry.names[x].pending && P.registry.names[x].owner == ev.proposer
             && P.registry.names[x].finalizeBy.Some? && ev.height <= P.registry.names[x].finalizeBy.value| < 3
  }

  /** Has the lease of the name lapsed? Then a reveal contends for the recapture, not for the registration. */
  predicate HasLapsed(P: Ledger, nm: string, height: nat) {
    nm in P.registry.names && !P.registry.names[nm].pending && Lapsed(P.registry.names[nm], EpochOf(height))
  }

  // ----- what one event does to a record -----

  /** From V25 on an event leaves a record's anchor, sells the name, displaces it by a lower anchor of a reveal in its
      window, or finalizes a recapture that is past its window. */
  ghost predicate RecordMoved(P: Ledger, M: Ledger, ev: Event, nm: string)
    requires nm in P.registry.names
  {
    && nm in M.registry.names
    && var n, m := P.registry.names[nm], M.registry.names[nm];
       || (AnchorOf(m) == AnchorOf(n) && m.viaFill == n.viaFill && (m.pending ==> n.pending && m.owner == n.owner))
       || (!m.pending && m.viaFill)
       || (&& ValidReveal(P, ev, nm, m.effHeight) && AnchorOf(m) == RevealAnchor(ev, m.effHeight) && m.owner == ev.proposer
           && !n.viaFill && Lower(AnchorOf(m), AnchorOf(n)))
       || (!m.pending && ev.height > m.effHeight + 8)
  }

  lemma PassRecord(L: Ledger, ids: seq<Id>, why: Reason, ev: Event, nm: string)
    requires nm in L.registry.names
    ensures RecordMoved(L, CloseAll(L, ids, why), ev, nm)
  {
    hide CloseAll, ClosesName;
    CloseAllEffect(L, ids, why);
  }

  lemma ReserveRecord(P: Ledger, ev: Event, x: string, revealed: Option<Hash>, eff: nat, nm: string)
    requires ev.Propose? && ev.rec == Some(Name(x, revealed)) && revealed.Some? && ev.height >= V25_HEIGHT
    requires EffHeight(P, ev.height, revealed) == Some(eff) && nm in P.registry.names && !Abandoned(P.registry.names[nm], ev.height)
    ensures RecordMoved(P, Reserve(P, ev, x, eff, Current(P, x, ev.height)), ev, nm)
  {
    hide CloseAll, PendingOf, Lapsed;
    CloseAllEffect(P, P.market.offerIds, Void(x, ev.height));
  }

  lemma NameRecord(P: Ledger, ev: Event, x: string, revealed: Option<Hash>, nm: string)
    requires NameInv(P) && ev.Propose? && ev.rec == Some(Name(x, revealed)) && ev.height >= V25_HEIGHT
    requires nm in P.registry.names && !Abandoned(P.registry.names[nm], ev.height)
    ensures RecordMoved(P, ApplyName(P, ev, x, revealed), ev, nm)
  {
    hide Reserve, Reclaim, NameInv, RecapturesOf, Lapsed;
    var effHeight := EffHeight(P, ev.height, revealed);
    if effHeight.Some? {
      if IsLapsedClaim(Current(P, x, ev.height), ev.height) {
        LapsedIsLate(P, x, ev.height);
      } else if revealed.Some? {
        ReserveRecord(P, ev, x, revealed, effHeight.value, nm);
      }
    }
  }

  lemma FinalizeRecord(P: Ledger, ev: Event, x: string, opening: Hash, nm: string)
    requires ev.Propose? && nm in P.registry.names
    ensures RecordMoved(P, ApplyNfinalize(P, ev, x, opening), ev, nm)
  {
    hide CloseAll, NameRegFee, ExpiredClaimFee, ValidReveal, Lapsed;
    CloseAllEffect(P, P.market.offerIds, Void(x, ev.height));
  }

  lemma ProposeRecord(P: Ledger, ev: Event, nm: string)
    requires NameInv(P) && ev.Propose? && ev.height >= V25_HEIGHT
    requires nm in P.registry.names && !Abandoned(P.registry.names[nm], ev.height)
    ensures RecordMoved(P, ApplyPropose(P, ev), ev, nm)
  {
    hide EnvelopeRefused, Listable, Grants, NameRegFee, Lapsed, OcancelTargets, CloseAll, NameInv, ValidReveal, Lower;
    hide ApplyName, ApplyNfinalize, Credit, BalOf, MintCredit, Pt, PaidThrough, NewOffer, AddOffer;
    match ev.rec
    case Some(Name(x, revealed)) => NameRecord(P, ev, x, revealed, nm);
    case Some(Nfinalize(x, opening)) => FinalizeRecord(P, ev, x, opening, nm);
    case Some(Ocancel(t, x)) => PassRecord(P, OcancelTargets(P, P.market.offerIds, ev.proposer, t, x), Immediate, ev, nm);
    case _ =>
  }

  lemma AttestRecord(P: Ledger, ev: Event, nm: string)
    requires NameInv(P) && ev.Attest? && ev.height >= V25_HEIGHT && nm in P.registry.names
    ensures RecordMoved(P, ApplyAttest(P, ev), ev, nm)
  {
    hide ApplyAttest, NameInv, ValidReveal, Lower, BidsShape;
    AttestHasShape(P, ev);
    AttestHolds(P, ev, nm);
    if IsSale(P, ev, nm) { ListedStandsFirm(P, Routed(P, ev).value, nm); }
  }

  lemma ListedStandsFirm(P: Ledger, id: Id, nm: string)
    requires NameInv(P) && Lists(P.market.offers, id, nm)
    ensures nm in P.registry.names && !P.registry.names[nm].pending
  {
    assert ListedOk(P.registry.names[nm], P.market.offers[id]);
  }

  lemma HandleRecord(P: Ledger, ev: Event, nm: string)
    requires NameInv(P) && ev.height >= V25_HEIGHT && nm in P.registry.names && !Abandoned(P.registry.names[nm], ev.height)
    ensures RecordMoved(P, Handle(P, ev), ev, nm)
  {
    hide ApplyPropose, ApplyAttest, RecordMoved;
    if ev.Propose? { ProposeRecord(P, ev, nm); } else { AttestRecord(P, ev, nm); }
  }

  // ----- the registration contest -----

  /** The name is held against the anchor `a`: by a reservation that is not behind it, or by a registered record that is
      not, was bought, or is past its window. */
  predicate Stands(g: Registry, height: nat, a: Anchor, nm: string) {
    nm in g.names
    && var n := g.names[nm];
       if n.pending then !Lower(a, AnchorOf(n)) else n.viaFill || !Lower(a, AnchorOf(n)) || height > n.effHeight + 8
  }

  lemma MovedStands(P: Ledger, M: Ledger, ev: Event, a: Anchor, nm: string)
    requires Stands(P.registry, ev.height, a, nm) && RecordMoved(P, M, ev, nm)
    ensures Stands(M.registry, ev.height, a, nm)
  {
    LowerOrders(AnchorOf(M.registry.names[nm]), AnchorOf(P.registry.names[nm]), a);
    LowerOrders(a, AnchorOf(M.registry.names[nm]), AnchorOf(P.registry.names[nm]));
  }

  /** A contending reveal takes the name, or finds it held against its anchor. */
  lemma RevealSettles(P: Ledger, ev: Event, nm: string, eff: nat)
    requires NameInv(P) && ev.height >= V25_HEIGHT && (nm in P.registry.names ==> !Abandoned(P.registry.names[nm], ev.height))
    requires ValidReveal(P, ev, nm, eff) && HasRoom(P, ev, nm) && !HasLapsed(P, nm, ev.height)
    ensures Stands(Handle(P, ev).registry, ev.height, RevealAnchor(ev, eff), nm)
  {
    hide CloseAll, Lapsed, Reserve, NameInv, HasRoom, PendingOf, Reclaim, RecapturesOf;
    assert Handle(P, ev) == Reserve(P, ev, nm, eff, Current(P, nm, ev.height));
    ReserveSettles(P, ev, nm, eff);
  }

  lemma ReserveSettles(P: Ledger, ev: Event, nm: string, eff: nat)
    requires NameInv(P) && ev.Propose? && HasRoom(P, ev, nm)
    requires nm in P.registry.names ==> !Abandoned(P.registry.names[nm], ev.height)
    ensures Stands(Reserve(P, ev, nm, eff, Current(P, nm, ev.height)).registry, ev.height, RevealAnchor(ev, eff), nm)
  {
    hide CloseAll, HasRoom, PendingOf;
    CloseAllEffect(P, P.market.offerIds, Void(nm, ev.height));
    RoomIs(P, ev, nm);
    if nm in P.registry.names { assert RecordSound(P.registry.names[nm]); }
  }

  lemma RoomIs(P: Ledger, ev: Event, nm: string)
    requires ev.Propose?
    ensures HasRoom(P, ev, nm) <==> |PendingOf(P.registry.names, ev.proposer, nm, ev.height)| < MAX_PENDING_REG
  {
    assert PendingOf(P.registry.names, ev.proposer, nm, ev.height)
           == set x | x in P.registry.names && x != nm && P.registry.names[x].pending && P.registry.names[x].owner == ev.proposer
                      && P.registry.names[x].finalizeBy.Some? && ev.height <= P.registry.names[x].finalizeBy.value;
  }

  /** What the sweep before an event leaves of a standing record: it stands, or the name is open again. */
  lemma PreparedStands(L: Ledger, height: nat, a: Anchor, nm: string)
    requires IndexInv(L) && 0 <= L.block <= height && Stands(L.registry, L.block, a, nm)
    ensures var P := Prepare(L, height); nm in P.registry.names ==> Stands(P.registry, height, a, nm)
  {
    hide Prepare, IndexInv;
    PrepareWinds(L, height);
    assert nm in Prepare(L, height).registry.names ==> Unlocked(L.registry.names[nm], Prepare(L, height).registry.names[nm]);
  }

  /** What an event's handler is handed. */
  function Handed(evs: seq<Event>, k: nat): Ledger
    requires k < |evs|
  {
    Prepare(Run(evs[..k]), evs[k].height)
  }

  lemma HandedIs(a: seq<Event>, ev: Event)
    requires Feed(a + [ev]) && ev.height >= ACTIVATION_HEIGHT
    ensures var P := Prepare(Run(a), ev.height);
      && Inv(P) && P.block == ev.height && Run(a + [ev]) == Handle(P, ev) && Inv(Run(a + [ev])) && Run(a + [ev]).block == ev.height
      && Inv(Run(a)) && Run(a).block <= ev.height
      && forall nm :: nm in P.registry.names ==> !Abandoned(P.registry.names[nm], ev.height)
  {
    hide Prepare, Handle, Inv, Next, Abandoned;
    LastStep(a, ev);
    var L := Run(a);
    NextHeight(L, ev);
    PrepareKeepsInv(L, ev.height);
    PrepareNext(L, ev);
    HandleKeepsInv(Prepare(L, ev.height), ev);
    IndexOf(L);
    PrepareWinds(L, ev.height);
    forall nm | nm in Prepare(L, ev.height).registry.names ensures !Abandoned(Prepare(L, ev.height).registry.names[nm], ev.height) {
      StillLive(L.registry.names[nm], Prepare(L, ev.height).registry.names[nm], ev.height);
    }
  }

  lemma IndexOf(L: Ledger)
    requires Inv(L)
    ensures IndexInv(L) && NameInv(L)
  {
  }

  lemma StillLive(n: NameRec, m: NameRec, height: nat)
    requires Unlocked(n, m) && !Abandoned(n, height)
    ensures !Abandoned(m, height)
  {
  }

  /** The name was open again at some event after the k-th. */
  ghost predicate Reopened(evs: seq<Event>, k: nat, nm: string) {
    exists j :: k < j < |evs| && nm !in Handed(evs, j).registry.names
  }

  lemma ReopenedLater(a: seq<Event>, ev: Event, k: nat, nm: string)
    requires k < |a| && (Reopened(a, k, nm) || nm !in Prepare(Run(a), ev.height).registry.names)
    ensures Reopened(a + [ev], k, nm)
  {
    hide Run, Prepare;
    var all := a + [ev];
    if Reopened(a, k, nm) {
      var j :| k < j < |a| && nm !in Handed(a, j).registry.names;
      assert all[..j] == a[..j] && all[j] == a[j];
      assert nm !in Handed(all, j).registry.names;
    } else {
      assert all[..|a|] == a && all[|a|] == ev;
      assert nm !in Handed(all, |a|).registry.names;
    }
  }

  /** The reveal contends for the registration of `nm` at its own place in the chain. */
  ghost predicate Contender(evs: seq<Event>, k: nat, nm: string, eff: nat) {
    && k < |evs| && evs[k].height >= V25_HEIGHT && ValidReveal(Handed(evs, k), evs[k], nm, eff)
    && HasRoom(Handed(evs, k), evs[k], nm) && !HasLapsed(Handed(evs, k), nm, evs[k].height)
  }

  lemma {:induction false} ContenderStands(evs: seq<Event>, k: nat, nm: string, eff: nat)
    requires Feed(evs) && Contender(evs, k, nm, eff)
    ensures Run(evs).block >= 0
    ensures Stands(Run(evs).registry, Run(evs).block, RevealAnchor(evs[k], eff), nm) || Reopened(evs, k, nm)
    decreases |evs|
  {
    hide Run, Prepare, Handle, Inv, Stands, ValidReveal, HasRoom, HasLapsed, Reopened, RecordMoved;
    var a, ev := evs[..|evs| - 1], evs[|evs| - 1];
    assert evs == a + [ev];
    if k == |a| {
      assert evs[..k] == a;
      HandedIs(a, ev);
      IndexOf(Handed(evs, k));
      RevealSettles(Handed(evs, k), ev, nm, eff);
    } else {
      EarlierEvent(a, ev, k);
      assert evs[..k] == a[..k] && evs[k] == a[k];
      FeedParts(a, [ev]);
      ContenderStands(a, k, nm, eff);
      HandedIs(a, ev);
      var P := Prepare(Run(a), ev.height);
      if Reopened(a, k, nm) || nm !in P.registry.names {
        ReopenedLater(a, ev, k, nm);
      } else {
        IndexOf(Run(a));
        PreparedStands(Run(a), ev.height, RevealAnchor(evs[k], eff), nm);
        IndexOf(P);
        HandleRecord(P, ev, nm);
        MovedStands(P, Handle(P, ev), ev, RevealAnchor(evs[k], eff), nm);
      }
    }
  }

  lemma EarlierEvent(a: seq<Event>, ev: Event, k: nat)
    requires Feed(a + [ev]) && k < |a|
    ensures a[k].height <= ev.height
  {
    assert (a + [ev])[k] == a[k] && (a + [ev])[|a|] == ev;
    NotEarlier(a[k], ev);
  }

  /** Over every run from V25 on: the anchor of a live reservation is the least of all the reveals that contended for the
      name - in their window, with room, of a name not lapsed - since it was last open. */
  lemma WinnerIsLeast(evs: seq<Event>, k: nat, nm: string, eff: nat)
    requires Feed(evs) && Contender(evs, k, nm, eff)
    requires nm in Run(evs).registry.names && Run(evs).registry.names[nm].pending
    ensures !Lower(RevealAnchor(evs[k], eff), AnchorOf(Run(evs).registry.names[nm])) || Reopened(evs, k, nm)
  {
    hide Run, Prepare, Reopened, Contender;
    ContenderStands(evs, k, nm, eff);
  }

  /** A reservation is there before an event, or is the event's own. */
  ghost predicate PendingMoved(P: Ledger, M: Ledger, ev: Event, nm: string) {
    nm in M.registry.names && M.registry.names[nm].pending ==>
      var m := M.registry.names[nm];
      || (nm in P.registry.names && P.registry.names[nm].pending && AnchorOf(P.registry.names[nm]) == AnchorOf(m)
          && P.registry.names[nm].owner == m.owner)
      || (ev.Propose? && ev.height >= V25_HEIGHT && ValidReveal(P, ev, nm, m.effHeight)
          && AnchorOf(m) == RevealAnchor(ev, m.effHeight) && m.owner == ev.proposer)
  }

  lemma TakePending(P: Ledger, ev: Event, x: string, n: NameRec, nm: string)
    requires !n.pending || (ev.Propose? && ev.height >= V25_HEIGHT && ValidReveal(P, ev, x, n.effHeight)
                            && AnchorOf(n) == RevealAnchor(ev, n.effHeight) && n.owner == ev.proposer)
    ensures PendingMoved(P, TakeName(P, x, Current(P, x, ev.height), n, ev.height), ev, nm)
  {
    hide CloseAll, ClosesName, ValidReveal;
    CloseAllEffect(P, P.market.offerIds, Void(x, ev.height));
  }

  lemma SamePending(P: Ledger, M: Ledger, ev: Event, nm: string)
    requires M.registry.names == P.registry.names
    ensures PendingMoved(P, M, ev, nm)
  {
    hide ValidReveal;
  }

  lemma ReclaimPending(P: Ledger, ev: Event, x: string, eff: nat, cur: NameRec, nm: string)
    requires ev.Propose? && Lapsed(cur, EpochOf(ev.height))
    ensures PendingMoved(P, Reclaim(P, ev, x, eff, cur), ev, nm)
  {
    hide CloseAll, ClosesName, ExpiredClaimFee, PaidThrough, ValidReveal, Lapsed;
    CloseAllEffect(P, P.market.offerIds, Void(x, ev.height));
  }

  lemma RegisterPending(P: Ledger, ev: Event, x: string, eff: nat, nm: string)
    requires ev.Propose?
    ensures PendingMoved(P, Register(P, ev, x, eff, Current(P, x, ev.height)), ev, nm)
  {
    hide TakeName, NameRegFee, Beats, Current, PendingMoved;
    var paid := if ev.height >= V15_HEIGHT then Some(EpochOf(ev.height) + NAME_TERM_EPOCHS) else None;
    var n := NameRec(ev.proposer, eff, ev.pos, ev.id, ev.height, false, false, paid, false, None);
    SamePending(P, P, ev, nm);
    TakePending(P, ev, x, n, nm);
    FeesPending(P, TakeName(P, x, Current(P, x, ev.height), n, ev.height), ev, nm, P.feesPaid + NameRegFee(|x|, ev.height));
  }

  lemma FeesPending(P: Ledger, M: Ledger, ev: Event, nm: string, fees: nat)
    requires PendingMoved(P, M, ev, nm)
    ensures PendingMoved(P, M.(feesPaid := fees), ev, nm)
  {
    hide ValidReveal;
  }

  lemma NamePending(P: Ledger, ev: Event, x: string, revealed: Option<Hash>, nm: string)
    requires ev.Propose? && ev.rec == Some(Name(x, revealed))
    ensures PendingMoved(P, ApplyName(P, ev, x, revealed), ev, nm)
  {
    hide TakeName, Reclaim, Register, RecapturesOf, PendingOf, Lapsed, Beats, PendingMoved, Current;
    var e, cur := EffHeight(P, ev.height, revealed), Current(P, x, ev.height);
    SamePending(P, P, ev, nm);
    if ev.height >= V11_HEIGHT && e.Some? {
      if IsLapsedClaim(cur, ev.height) {
        if ev.height >= V26_HEIGHT { SamePending(P, ApplyName(P, ev, x, revealed), ev, nm); }
        else { ReclaimPending(P, ev, x, e.value, cur.value, nm); }
      } else if ev.height < V25_HEIGHT {
        RegisterPending(P, ev, x, e.value, nm);
      } else if revealed.Some? {
        TakePending(P, ev, x, NameRec(ev.proposer, e.value, ev.pos, ev.id, ev.height, false, false, None, true,
                                      Some(FinalizeBy(e.value))), nm);
      }
    }
  }

  lemma ProposePending(P: Ledger, ev: Event, nm: string)
    requires ev.Propose?
    ensures PendingMoved(P, ApplyPropose(P, ev), ev, nm)
  {
    hide EnvelopeRefused, Listable, Grants, NameRegFee, ExpiredClaimFee, Lapsed, OcancelTargets, CloseAll, ClosesName, ValidReveal, Lower;
    hide ApplyName, Credit, BalOf, MintCredit, Pt, PaidThrough, NewOffer, AddOffer, Finalizable;
    match ev.rec
    case Some(Name(x, revealed)) => NamePending(P, ev, x, revealed, nm);
    case Some(Nfinalize(x, opening)) => CloseAllEffect(P, P.market.offerIds, Void(x, ev.height));
    case Some(Ocancel(t, x)) => CloseAllEffect(P, OcancelTargets(P, P.market.offerIds, ev.proposer, t, x), Immediate);
    case _ =>
  }

  lemma AttestPending(P: Ledger, ev: Event, nm: string)
    requires NameInv(P) && ev.Attest?
    ensures PendingMoved(P, ApplyAttest(P, ev), ev, nm)
  {
    hide ApplyAttest, NameInv, ValidReveal, BidsShape;
    AttestHasShape(P, ev);
    if nm in P.registry.names {
      AttestHolds(P, ev, nm);
      if IsSale(P, ev, nm) { ListedStandsFirm(P, Routed(P, ev).value, nm); }
    }
  }

  lemma HandlePending(P: Ledger, ev: Event, nm: string)
    requires NameInv(P)
    ensures PendingMoved(P, Handle(P, ev), ev, nm)
  {
    hide ApplyPropose, ApplyAttest, PendingMoved;
    if ev.Propose? { ProposePending(P, ev, nm); } else { AttestPending(P, ev, nm); }
  }

  /** The reservation is that of the k-th event: a reveal in its window by the owner. */
  ghost predicate RevealedAt(evs: seq<Event>, k: nat, nm: string, n: NameRec) {
    && k < |evs| && evs[k].Propose? && evs[k].height >= V25_HEIGHT && ValidReveal(Handed(evs, k), evs[k], nm, n.effHeight)
    && AnchorOf(n) == RevealAnchor(evs[k], n.effHeight) && n.owner == evs[k].proposer
  }

  lemma RevealedStill(a: seq<Event>, ev: Event, k: nat, nm: string, n: NameRec, m: NameRec)
    requires RevealedAt(a, k, nm, n) && AnchorOf(n) == AnchorOf(m) && n.owner == m.owner
    ensures RevealedAt(a + [ev], k, nm, m)
  {
    hide Run, Prepare, ValidReveal;
    assert (a + [ev])[..k] == a[..k] && (a + [ev])[k] == a[k];
    assert Handed(a + [ev], k) == Handed(a, k);
  }

  /** Over every run a reservation belongs to the author of one of the reveals that contended for it, at that reveal's
      anchor. */
  lemma {:induction false} WinnerRevealed(evs: seq<Event>, nm: string)
    requires Feed(evs) && nm in Run(evs).registry.names && Run(evs).registry.names[nm].pending
    ensures exists k: nat :: RevealedAt(evs, k, nm, Run(evs).registry.names[nm])
    decreases |evs|, 0
  {
    hide Prepare, Handle, Inv, Step, RevealedAt, ValidReveal, PendingMoved;
    var a, ev := evs[..|evs| - 1], evs[|evs| - 1];
    assert evs == a + [ev];
    FeedParts(a, [ev]);
    LastStep(a, ev);
    if ev.height < ACTIVATION_HEIGHT {
      EarlyStep(Run(a), ev);
      WinnerRevealed(a, nm);
      var n := Run(a).registry.names[nm];
      var k: nat :| RevealedAt(a, k, nm, n);
      RevealedStill(a, ev, k, nm, n, n);
    } else {
      HandedIs(a, ev);
      var P := Prepare(Run(a), ev.height);
      IndexOf(P);
      HandlePending(P, ev, nm);
      PendingBefore(a, ev, nm);
    }
  }

  lemma EarlyStep(L: Ledger, ev: Event)
    requires ev.height < ACTIVATION_HEIGHT
    ensures Step(L, ev) == L
  {
  }

  lemma PendingBefore(a: seq<Event>, ev: Event, nm: string)
    requires Feed(a + [ev]) && Feed(a) && ev.height >= ACTIVATION_HEIGHT
    requires var P := Prepare(Run(a), ev.height); PendingMoved(P, Handle(P, ev), ev, nm) && Run(a + [ev]) == Handle(P, ev) && Inv(Run(a))
    requires nm in Run(a + [ev]).registry.names && Run(a + [ev]).registry.names[nm].pending
    ensures exists k: nat :: RevealedAt(a + [ev], k, nm, Run(a + [ev]).registry.names[nm])
    decreases |a|, 1
  {
    hide Prepare, Handle, Inv, Step, Run, ValidReveal;
    var P, m := Prepare(Run(a), ev.height), Run(a + [ev]).registry.names[nm];
    assert (a + [ev])[..|a|] == a && (a + [ev])[|a|] == ev;
    if nm in P.registry.names && P.registry.names[nm].pending && AnchorOf(P.registry.names[nm]) == AnchorOf(m)
       && P.registry.names[nm].owner == m.owner {
      IndexOf(Run(a));
      PrepareWinds(Run(a), ev.height);
      var n := Run(a).registry.names[nm];
      assert Unlocked(n, P.registry.names[nm]);
      WinnerRevealed(a, nm);
      var k: nat :| RevealedAt(a, k, nm, n);
      RevealedStill(a, ev, k, nm, n, m);
    } else {
      assert RevealedAt(a + [ev], |a|, nm, m);
    }
  }

  // ----- the recapture contest -----

  function RecaptureAnchor(r: Recapture): Anchor { Anchor(r.effHeight, r.pos, r.id) }

  /** The author holds fewer than three live recapture reservations of other names. */
  predicate HasRecaptureRoom(P: Ledger, ev: Event, nm: string)
    requires ev.Propose?
  {
    |set x | x in P.registry.recaptures && P.registry.recaptures[x].owner == ev.proposer && x != nm
             && ev.height <= P.registry.recaptures[x].finalizeBy| < 3
  }

  /** An event leaves a live recapture reservation, displaces it by a lower anchor of a reveal in its window, or ends it. */
  ghost predicate ReservationMoved(P: Ledger, M: Ledger, ev: Event, nm: string)
    requires nm in P.registry.recaptures
  {
    nm in M.registry.recaptures ==>
      var r, s := P.registry.recaptures[nm], M.registry.recaptures[nm];
      || s == r
      || (ValidReveal(P, ev, nm, s.effHeight) && RecaptureAnchor(s) == RevealAnchor(ev, s.effHeight) && s.owner == ev.proposer
          && Lower(RecaptureAnchor(s), RecaptureAnchor(r)))
  }

  lemma ProposeReservation(P: Ledger, ev: Event, nm: string)
    requires NameInv(P) && ev.Propose? && nm in P.registry.recaptures && ev.height <= P.registry.recaptures[nm].finalizeBy
    requires ev.height >= V25_HEIGHT
    ensures ReservationMoved(P, ApplyPropose(P, ev), ev, nm)
  {
    hide EnvelopeRefused, Listable, Grants, NameRegFee, ExpiredClaimFee, Lapsed, OcancelTargets, CloseAll, NameInv;
    hide ApplyName, Credit, BalOf, MintCredit, Pt, PaidThrough, NewOffer, AddOffer, Finalizable, ValidReveal;
    match ev.rec
    case Some(Name(x, revealed)) => NameReservation(P, ev, x, revealed, nm);
    case Some(Nfinalize(x, opening)) => CloseAllEffect(P, P.market.offerIds, Void(x, ev.height));
    case Some(Ocancel(t, x)) => CloseAllEffect(P, OcancelTargets(P, P.market.offerIds, ev.proposer, t, x), Immediate);
    case _ =>
  }

  lemma NameReservation(P: Ledger, ev: Event, x: string, revealed: Option<Hash>, nm: string)
    requires NameInv(P) && ev.Propose? && ev.rec == Some(Name(x, revealed)) && ev.height >= V25_HEIGHT
    requires nm in P.registry.recaptures && ev.height <= P.registry.recaptures[nm].finalizeBy
    ensures ReservationMoved(P, ApplyName(P, ev, x, revealed), ev, nm)
  {
    hide CloseAll, NameInv, RecapturesOf, PendingOf, Lapsed, Reclaim, Beats;
    CloseAllEffect(P, P.market.offerIds, Void(x, ev.height));
    if IsLapsedClaim(Current(P, x, ev.height), ev.height) { LapsedIsLate(P, x, ev.height); }
  }

  lemma HandleReservation(P: Ledger, ev: Event, nm: string)
    requires NameInv(P) && nm in P.registry.recaptures && ev.height <= P.registry.recaptures[nm].finalizeBy && ev.height >= V25_HEIGHT
    ensures ReservationMoved(P, Handle(P, ev), ev, nm)
  {
    hide ApplyPropose, ApplyAttest, ValidReveal;
    if ev.Propose? { ProposeReservation(P, ev, nm); } else { AttestHasShape(P, ev); }
  }

  predicate Reserved(g: Registry, a: Anchor, nm: string) {
    nm in g.recaptures && !Lower(a, RecaptureAnchor(g.recaptures[nm]))
  }

  /** A contending reveal of a lapsed name takes the recapture reservation, or finds it held by no higher an anchor. */
  lemma RecaptureSettles(P: Ledger, ev: Event, nm: string, eff: nat)
    requires NameInv(P) && ev.height >= V25_HEIGHT
    requires ValidReveal(P, ev, nm, eff) && HasRecaptureRoom(P, ev, nm) && HasLapsed(P, nm, ev.height)
    ensures Reserved(Handle(P, ev).registry, RevealAnchor(ev, eff), nm)
  {
    hide NameInv, RecapturesOf, HasRecaptureRoom, Lapsed;
    LapsedIsLate(P, nm, ev.height);
    RecaptureRoomIs(P, ev, nm);
  }

  lemma RecaptureRoomIs(P: Ledger, ev: Event, nm: string)
    requires ev.Propose?
    ensures HasRecaptureRoom(P, ev, nm) <==> |RecapturesOf(P.registry.recaptures, ev.proposer, nm, ev.height)| < MAX_PENDING_REG
  {
    assert RecapturesOf(P.registry.recaptures, ev.proposer, nm, ev.height)
           == set x | x in P.registry.recaptures && P.registry.recaptures[x].owner == ev.proposer && x != nm
                      && ev.height <= P.registry.recaptures[x].finalizeBy;
  }

  /** The recapture was open again at some event after the k-th. */
  ghost predicate Unreserved(evs: seq<Event>, k: nat, nm: string) {
    exists j :: k < j < |evs| && nm !in Handed(evs, j).registry.recaptures
  }

  lemma UnreservedLater(a: seq<Event>, ev: Event, k: nat, nm: string)
    requires k < |a| && (Unreserved(a, k, nm) || nm !in Prepare(Run(a), ev.height).registry.recaptures)
    ensures Unreserved(a + [ev], k, nm)
  {
    hide Run, Prepare;
    var all := a + [ev];
    if Unreserved(a, k, nm) {
      var j :| k < j < |a| && nm !in Handed(a, j).registry.recaptures;
      assert all[..j] == a[..j] && all[j] == a[j];
      assert nm !in Handed(all, j).registry.recaptures;
    } else {
      assert all[..|a|] == a && all[|a|] == ev;
      assert nm !in Handed(all, |a|).registry.recaptures;
    }
  }

  ghost predicate RecaptureContender(evs: seq<Event>, k: nat, nm: string, eff: nat) {
    && k < |evs| && evs[k].height >= V25_HEIGHT && ValidReveal(Handed(evs, k), evs[k], nm, eff)
    && HasRecaptureRoom(Handed(evs, k), evs[k], nm) && HasLapsed(Handed(evs, k), nm, evs[k].height)
  }

  /** The same of the sealed recapture: its reservation's anchor is the least of all the reveals that contended for the
      lapsed name since the recapture was last open. */
  lemma {:induction false} RecaptureWinnerIsLeast(evs: seq<Event>, k: nat, nm: string, eff: nat)
    requires Feed(evs) && RecaptureContender(evs, k, nm, eff) && nm in Run(evs).registry.recaptures
    ensures !Lower(RevealAnchor(evs[k], eff), RecaptureAnchor(Run(evs).registry.recaptures[nm])) || Unreserved(evs, k, nm)
    decreases |evs|
  {
    hide Run, Prepare, Handle, Inv, ValidReveal, HasRecaptureRoom, HasLapsed, Unreserved, ReservationMoved, Lower;
    var a, ev := evs[..|evs| - 1], evs[|evs| - 1];
    assert evs == a + [ev];
    if k == |a| {
      assert evs[..k] == a;
      HandedIs(a, ev);
      IndexOf(Handed(evs, k));
      RecaptureSettles(Handed(evs, k), ev, nm, eff);
    } else {
      EarlierEvent(a, ev, k);
      assert evs[..k] == a[..k] && evs[k] == a[k];
      FeedParts(a, [ev]);
      HandedIs(a, ev);
      var P := Prepare(Run(a), ev.height);
      IndexOf(Run(a));
      PrepareWinds(Run(a), ev.height);
      IndexOf(P);
      if nm !in P.registry.recaptures {
        UnreservedLater(a, ev, k, nm);
      } else {
        RecaptureWinnerIsLeast(a, k, nm, eff);
        if Unreserved(a, k, nm) {
          UnreservedLater(a, ev, k, nm);
        } else {
          HandleReservation(P, ev, nm);
          ReservationStill(P, Handle(P, ev), ev, RevealAnchor(evs[k], eff), nm);
        }
      }
    }
  }

  lemma ReservationStill(P: Ledger, M: Ledger, ev: Event, a: Anchor, nm: string)
    requires Reserved(P.registry, a, nm) && ReservationMoved(P, M, ev, nm) && nm in M.registry.recaptures
    ensures Reserved(M.registry, a, nm)
  {
    hide ValidReveal;
  }
}
