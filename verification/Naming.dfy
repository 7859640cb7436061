/** What the name records do, in plain terms (packages/cairnx/src/resolve/names.ts, types.ts): when a commit counts from, which
    reveals take a name, which finalizes keep it and for what fee, who may transfer and renew. */
module Naming {
  import opened Rules
  import opened Ledgers
  import opened Handlers
  import opened Replay
  import opened Closing
  import opened HeightInvariants
  import opened NameSafety
  import opened HoldCap
  import opened Runs
  import opened Registration
  import opened Contest
  import opened Pricing

  // ----- commits -----

  predicate IsCommit(ev: Event, c: Hash) { ev.Propose? && ev.rec == Some(Ncommit(c)) && ev.height >= 29_960 }

  /** An event leaves the commits, unless it is the first of its hash or an earlier one. */
  lemma HandleCommits(P: Ledger, ev: Event)
    ensures var M := Handle(P, ev);
      M.registry.commits == P.registry.commits
      || exists c :: IsCommit(ev, c) && M.registry.commits == P.registry.commits[c := ev.height]
                     && (c in P.registry.commits ==> ev.height < P.registry.commits[c])
  {
    hide ApplyAttest, ApplyPropose;
    if ev.Attest? { AttestHasShape(P, ev); } else { ProposeCommits(P, ev); }
  }

  lemma ProposeCommits(P: Ledger, ev: Event)
    requires ev.Propose?
    ensures var M := ApplyPropose(P, ev);
      M.registry.commits == P.registry.commits
      || exists c :: IsCommit(ev, c) && M.registry.commits == P.registry.commits[c := ev.height]
                     && (c in P.registry.commits ==> ev.height < P.registry.commits[c])
  {
    hide EnvelopeRefused, Listable, Grants, NameRegFee, ExpiredClaimFee, Lapsed, OcancelTargets, CloseAll, ClosesName;
    hide PendingOf, RecapturesOf, Beats, Finalizable, Credit, BalOf, MintCredit, Pt, PaidThrough, NewOffer, AddOffer;
    match ev.rec
    case Some(Name(x, _)) => CloseAllEffect(P, P.market.offerIds, Void(x, ev.height));
    case Some(Nfinalize(x, _)) => CloseAllEffect(P, P.market.offerIds, Void(x, ev.height));
    case Some(Ocancel(t, x)) => CloseAllEffect(P, OcancelTargets(P, P.market.offerIds, ev.proposer, t, x), Immediate);
    case Some(Ncommit(c)) => assert ev.height >= V11_HEIGHT ==> IsCommit(ev, c);
    case _ =>
  }

  /** A commit counts from its first height, if any of the events commits it. */
  ghost predicate CountsFrom(evs: seq<Event>, c: Hash, commits: map<Hash, nat>) {
    && (forall k :: 0 <= k < |evs| && IsCommit(evs[k], c) ==> c in commits && commits[c] <= evs[k].height)
    && (c in commits ==> exists k :: 0 <= k < |evs| && IsCommit(evs[k], c) && evs[k].height == commits[c])
  }

  lemma CountsLater(a: seq<Event>, ev: Event, c: Hash, before: map<Hash, nat>, after: map<Hash, nat>)
    requires CountsFrom(a, c, before) && (IsCommit(ev, c) ==> c in after && after[c] <= ev.height)
    requires (if c in before then c in after && after[c] <= before[c] else true)
    requires c in after && !(c in before && before[c] == after[c]) ==> IsCommit(ev, c) && after[c] == ev.height
    ensures CountsFrom(a + [ev], c, after)
  {
    var all := a + [ev];
    if c in after {
      if c in before && before[c] == after[c] {
        var k :| 0 <= k < |a| && IsCommit(a[k], c) && a[k].height == before[c];
        assert all[k] == a[k];
      } else {
        assert all[|a|] == ev;
      }
    }
  }

  /** Over every run a hash is committed from the height of its first commit record, and only a commit record commits. */
  lemma {:induction false} CommitsAreFirst(evs: seq<Event>, c: Hash)
    requires Feed(evs)
    ensures CountsFrom(evs, c, Run(evs).registry.commits)
  {
    hide Prepare, Handle, Inv, Step, CountsFrom;
    if evs == [] {
      NoneCounts(c);
    } else {
      var a, ev := evs[..|evs| - 1], evs[|evs| - 1];
      assert evs == a + [ev];
      LastStep(a, ev);
      CommitsAreFirst(a, c);
      CommitStep(Run(a), ev, c);
      CountsLater(a, ev, c, Run(a).registry.commits, Run(evs).registry.commits);
    }
  }

  lemma NoneCounts(c: Hash)
    ensures CountsFrom([], c, EMPTY.registry.commits)
  {
  }

  lemma CommitStep(L: Ledger, ev: Event, c: Hash)
    requires Inv(L)
    ensures var was, now := L.registry.commits, Step(L, ev).registry.commits;
      && (IsCommit(ev, c) ==> c in now && now[c] <= ev.height)
      && (c in was ==> c in now && now[c] <= was[c])
      && (c in now && !(c in was && was[c] == now[c]) ==> IsCommit(ev, c) && now[c] == ev.height)
  {
    hide Prepare, Inv, ApplyAttest;
    IndexOf(L);
    PrepareWinds(L, ev.height);
    if ev.height >= ACTIVATION_HEIGHT {
      var P := Prepare(L, ev.height);
      CommitsHandled(P, ev, c);
    }
  }

  lemma CommitsHandled(P: Ledger, ev: Event, c: Hash)
    ensures var was, now := P.registry.commits, Handle(P, ev).registry.commits;
      && (IsCommit(ev, c) ==> c in now && now[c] <= ev.height)
      && (c in was ==> c in now && now[c] <= was[c])
      && (c in now && !(c in was && was[c] == now[c]) ==> IsCommit(ev, c) && now[c] == ev.height)
  {
    HandleCommits(P, ev) by { hide Handle; }
    if IsCommit(ev, c) { assert Handle(P, ev) == ApplyNcommit(P, ev, c); }
  }

  // ----- reveals -----

  /** The record in force does not stand against this anchor: there is none, or it was not bought and is anchored later. */
  predicate Yields(P: Ledger, nm: string, a: Anchor) {
    nm in P.registry.names ==> !P.registry.names[nm].viaFill && Lower(a, AnchorOf(P.registry.names[nm]))
  }

  /** No record of the ledger is past its finalize window: what the sweep leaves. */
  ghost predicate Swept(P: Ledger, height: nat) { forall nm :: nm in P.registry.names ==> !Abandoned(P.registry.names[nm], height) }

  lemma VoidNames(P: Ledger, nm: string, height: nat)
    ensures var V := VoidOpenNameOffers(P, nm, height).registry;
      V.names.Keys == P.registry.names.Keys && V.recaptures == P.registry.recaptures && V.commits == P.registry.commits
      && forall x :: x in P.registry.names && x != nm ==> V.names[x] == P.registry.names[x]
  {
    CloseAllEffect(P, P.market.offerIds, Void(nm, height));
  }

  lemma TakenNames(P: Ledger, nm: string, cur: Option<NameRec>, n: NameRec, height: nat)
    ensures var M := TakeName(P, nm, cur, n, height);
      M.registry.names == P.registry.names[nm := n] && M.registry.recaptures == P.registry.recaptures
      && M.registry.commits == P.registry.commits && M.feesPaid == P.feesPaid
  {
    hide CloseAll, ClosesName;
    VoidNames(P, nm, height);
    CloseAllEffect(P, P.market.offerIds, Void(nm, height));
  }

  /** From height 46_440 on a reveal of a name that has not lapsed reserves it if and only if its commit is at most eight
      blocks old, its author holds under three other reservations, and no record stands against its anchor. The reservation
      lasts to twenty blocks past the window; nothing is paid. */
  lemma RevealReserves(P: Ledger, ev: Event, nm: string, revealed: Option<Hash>)
    requires NameInv(P) && Swept(P, ev.height) && ev.Propose? && ev.rec == Some(Name(nm, revealed)) && ev.height >= 46_440
    requires !HasLapsed(P, nm, ev.height)
    ensures var M := Handle(P, ev);
      if revealed.Some? && revealed.value in P.registry.commits && ValidReveal(P, ev, nm, P.registry.commits[revealed.value])
         && HasRoom(P, ev, nm) && Yields(P, nm, RevealAnchor(ev, P.registry.commits[revealed.value])) then
        var eff := P.registry.commits[revealed.value];
        && M.registry.names == P.registry.names[nm :=
             NameRec(ev.proposer, eff, ev.pos, ev.id, ev.height, false, false, None, true, Some(eff + 28))]
        && M.registry.recaptures == P.registry.recaptures && M.registry.commits == P.registry.commits && M.feesPaid == P.feesPaid
      else M == P
  {
    hide NameInv, HasRoom, PendingOf, TakeName, Lapsed, ReserveRecapture, Reclaim;
    RoomIs(P, ev, nm);
    var cur := Current(P, nm, ev.height);
    if revealed.Some? && revealed.value in P.registry.commits {
      var eff := P.registry.commits[revealed.value];
      TakenNames(P, nm, cur, NameRec(ev.proposer, eff, ev.pos, ev.id, ev.height, false, false, None, true, Some(eff + 28)), ev.height);
    }
  }

  /** A reveal of a lapsed name reserves its recapture by the same rule, over the recapture reservations; the record stays. */
  lemma RevealRecaptures(P: Ledger, ev: Event, nm: string, revealed: Option<Hash>)
    requires NameInv(P) && ev.Propose? && ev.rec == Some(Name(nm, revealed)) && HasLapsed(P, nm, ev.height)
    requires nm in P.registry.recaptures ==> ev.height <= P.registry.recaptures[nm].finalizeBy
    ensures
      if revealed.Some? && revealed.value in P.registry.commits && ValidReveal(P, ev, nm, P.registry.commits[revealed.value])
         && HasRecaptureRoom(P, ev, nm)
         && (nm in P.registry.recaptures ==>
               Lower(RevealAnchor(ev, P.registry.commits[revealed.value]), RecaptureAnchor(P.registry.recaptures[nm]))) then
        var eff := P.registry.commits[revealed.value];
        Handle(P, ev) == P.(registry := P.registry.(recaptures :=
          P.registry.recaptures[nm := Recapture(ev.proposer, eff, ev.pos, ev.id, ev.height, eff + 28)]))
      else Handle(P, ev) == P
  {
    hide NameInv, HasRecaptureRoom, RecapturesOf, Lapsed, Reserve, Reclaim, Register;
    LapsedIsLate(P, nm, ev.height);
    RecaptureRoomIs(P, ev, nm);
  }

  /** Where a reveal below height 46_440 is anchored: at its commit, under 241 blocks old, or, without one, where it stands. */
  predicate AnchoredAt(P: Ledger, ev: Event, revealed: Option<Hash>, eff: nat) {
    if revealed.None? then eff == ev.height
    else revealed.value in P.registry.commits && P.registry.commits[revealed.value] == eff && eff < ev.height <= eff + 240
  }

  /** Below it a reveal, from 29_960 on, registers the name at once if and only if it is anchored, pays the fee, and no
      record stands against its anchor; from 32_000 on for a term of 8_760 epochs. */
  lemma RevealRegisters(P: Ledger, ev: Event, nm: string, revealed: Option<Hash>, eff: nat, fee: nat)
    requires NameInv(P) && Swept(P, ev.height) && ev.Propose? && ev.rec == Some(Name(nm, revealed)) && ev.height < 46_440
    requires IsRegFee(fee, |nm|, ev.height) && (if revealed.Some? && revealed.value in P.registry.commits
                                                then eff == P.registry.commits[revealed.value] else eff == ev.height)
    ensures var M := Handle(P, ev);
      if ev.height >= 29_960 && AnchoredAt(P, ev, revealed, eff) && Pt(ev.paidTo, TREASURY_ADDR) >= fee
         && Yields(P, nm, RevealAnchor(ev, eff)) then
        && M.registry.names == P.registry.names[nm :=
             NameRec(ev.proposer, eff, ev.pos, ev.id, ev.height, false, false,
                     if ev.height < 32_000 then None else Some(ev.height / 30 + 8_760), false, None)]
        && M.registry.recaptures == P.registry.recaptures && M.registry.commits == P.registry.commits && M.feesPaid == P.feesPaid + fee
      else M == P
  {
    hide NameInv, TakeName, ReserveRecapture, Reclaim, Reserve, NameRegFee, IsRegFee;
    RegFeeIs(fee, |nm|, ev.height);
    var cur := Current(P, nm, ev.height);
    NotYetLapsed(P, nm, ev.height);
    TakenNames(P, nm, cur, NameRec(ev.proposer, eff, ev.pos, ev.id, ev.height, false, false,
                                   if ev.height < 32_000 then None else Some(ev.height / 30 + 8_760), false, None), ev.height);
  }

  lemma NotYetLapsed(P: Ledger, nm: string, height: nat)
    requires NameInv(P) && height < V26_HEIGHT
    ensures !IsLapsedClaim(Current(P, nm, height), height)
  {
    if nm in P.registry.names && Lapsed(P.registry.names[nm], EpochOf(height)) { LapsedIsLate(P, nm, height); }
  }

  // ----- fees -----

  /** The registration fee in base units, by the length of the name and the era. */
  predicate IsRegFee(fee: nat, length: nat, height: nat) {
    var csd := 100_000_000;
    if height < 40_000 then
      match length {
        case 0 | 1 | 2 | 3 => fee == 5 * csd
        case 4 => fee == 2 * csd
        case 5 => fee == csd
        case _ => if length < 10 then fee * 2 == csd else fee * 10 == csd
      }
    else if height < 46_400 then (if length < 5 then fee * 100 == 670 * csd else fee == 3 * csd)
    else if length < 4 then fee == 15 * csd
    else if length == 4 then fee == 10 * csd
    else if length < 10 then fee == 5 * csd
    else fee == 3 * csd
  }

  lemma RegFeeIs(fee: nat, length: nat, height: nat)
    requires IsRegFee(fee, length, height)
    ensures fee == NameRegFee(length, height)
  {
  }

  /** In no era is a shorter name cheaper to register. */
  lemma ShorterIsDearer(a: nat, b: nat, fa: nat, fb: nat, height: nat)
    requires a <= b && IsRegFee(fa, a, height) && IsRegFee(fb, b, height)
    ensures fa >= fb > 0
  {
  }

  /** The fee for a lapsed name: the registration fee, times a premium that falls from twenty to one in a straight line over
      the 720 epochs after the lease's grace. */
  ghost predicate IsPremium(fee: nat, base: nat, past: nat) {
    if past >= 720 then fee == base else exists m: nat :: Surplus(m, past) && fee == base * (1 + m)
  }

  /** How many registration fees more a name costs `past` epochs after the grace. */
  predicate Surplus(m: nat, past: nat)
    requires past < 720
  {
    IsFloor(m, 19 * (720 - past), 720)
  }

  lemma PremiumIs(fee: nat, base: nat, length: nat, past: nat, height: nat)
    requires IsRegFee(base, length, height) && IsPremium(fee, base, past)
    ensures fee == ExpiredClaimFee(length, past, height)
  {
    hide IsRegFee, NameRegFee;
    RegFeeIs(base, length, height);
    if past < 720 {
      var x := 19 * (720 - past);
      var m: nat :| Surplus(m, past) && fee == base * (1 + m);
      FloorIs(x, 720);
      FloorUnique(m, x / 720, x, 720);
    }
  }

  /** It starts at twenty registration fees and never rises. */
  lemma PremiumFalls(f: nat, g: nat, base: nat, past: nat, later: nat)
    requires IsPremium(f, base, past) && IsPremium(g, base, later) && past <= later
    ensures base <= g <= f <= 20 * base && (past == 0 ==> f == 20 * base) && (later >= 720 ==> g == base)
  {
    var m: nat := if past < 720 then (var m: nat :| Surplus(m, past) && f == base * (1 + m); m) else 0;
    var n: nat := if later < 720 then (var n: nat :| Surplus(n, later) && g == base * (1 + n); n) else 0;
    assert n <= m <= 19;
    MulOrder(base, 1 + n, 1 + m);
    MulOrder(base, 1 + m, 20);
    MulOrder(base, 1, 1 + n);
  }

  lemma MulOrder(a: nat, x: nat, y: nat)
    requires x <= y
    ensures a * x <= a * y
  {
  }

  // ----- finalize -----

  /** The last epoch a record's lease covers: a name from before the leases has one term from height 32_000. */
  predicate LeaseEnds(n: NameRec, end: nat) {
    if n.paidThroughEpoch.Some? then end == n.paidThroughEpoch.value else end == 1_066 + 8_760
  }

  /** The window of eight blocks after the commit is over, and twenty more are not. */
  predicate InFinalizeBlocks(commit: nat, height: int) { commit + 8 < height <= commit + 28 }

  /** The commit the finalize opens is the reservation's, and it comes in its blocks. */
  predicate Timely(P: Ledger, ev: Event, opening: Hash, eff: nat) {
    opening in P.registry.commits && P.registry.commits[opening] == eff && InFinalizeBlocks(eff, ev.height)
  }

  /** The client's check of a reservation, with the chain's tip, is safe if and only if the record is the caller's own
      reservation of this commit, and a finalize is timely at every height within two blocks of the tip. */
  lemma FinalizeCheckExact(n: Option<NameRec>, me: Addr, commit: nat, tip: nat)
    ensures FinalizeWinnerCheck(n, me, commit, Some(tip)) <==>
      n.Some? && n.value.owner == me && n.value.pending && n.value.effHeight == commit && tip < 0x20_0000_0000_0000
      && forall h: int :: tip - 2 <= h <= tip + 2 ==> InFinalizeBlocks(commit, h)
  {
    assert InFinalizeBlocks(commit, tip - 2) && InFinalizeBlocks(commit, tip + 2)
           <==> forall h: int :: tip - 2 <= h <= tip + 2 ==> InFinalizeBlocks(commit, h);
  }

  /** The sweep before an event drops exactly the reservations whose twenty-eight blocks are over, of either kind, and no
      record of a registered name. */
  lemma ReservationsEnd(L: Ledger, height: nat, nm: string)
    requires IndexInv(L) && NameInv(L)
    ensures var P := Prepare(L, height);
      && (nm in P.registry.names
          <==> nm in L.registry.names && !(L.registry.names[nm].pending && height > L.registry.names[nm].effHeight + 28))
      && (nm in P.registry.recaptures <==> nm in L.registry.recaptures && height <= L.registry.recaptures[nm].finalizeBy)
  {
    hide Prepare, IndexInv;
    PrepareWinds(L, height);
    if nm in L.registry.names { assert RecordSound(L.registry.names[nm]); }
  }

  /** A finalize of its author's own reservation registers the name for a term if and only if it is timely and the fee is
      paid; otherwise it does nothing. */
  lemma FinalizeRegisters(P: Ledger, ev: Event, nm: string, opening: Hash, fee: nat)
    requires NameInv(P) && ev.Propose? && ev.rec == Some(Nfinalize(nm, opening)) && ev.height >= 46_440
    requires nm in P.registry.names && P.registry.names[nm].pending && P.registry.names[nm].owner == ev.proposer
    requires IsRegFee(fee, |nm|, ev.height)
    ensures var n := P.registry.names[nm];
      Handle(P, ev) ==
      if Timely(P, ev, opening, n.effHeight) && Pt(ev.paidTo, TREASURY_ADDR) >= fee then
        var m := n.(pending := false, finalizeBy := None, paidThroughEpoch := Some(ev.height / 30 + 8_760));
        P.(registry := P.registry.(names := P.registry.names[nm := m], pendingNames := P.registry.pendingNames - {nm}),
           feesPaid := P.feesPaid + fee)
      else P
  {
    hide NameRegFee, IsRegFee;
    RegFeeIs(fee, |nm|, ev.height);
    assert RecordSound(P.registry.names[nm]);
  }

  /** A finalize of its author's own recapture reservation of a lapsed name takes the name for a fresh term if and only if it
      is timely and pays the premium of its epoch; the lapsed record is replaced. */
  lemma FinalizeRecaptures(P: Ledger, ev: Event, nm: string, opening: Hash, base: nat, fee: nat, end: nat)
    requires NameInv(P) && ev.Propose? && ev.rec == Some(Nfinalize(nm, opening))
    requires nm in P.registry.recaptures && P.registry.recaptures[nm].owner == ev.proposer
    requires P.registry.recaptures[nm].finalizeBy == P.registry.recaptures[nm].effHeight + 28
    requires nm in P.registry.names && !P.registry.names[nm].pending && LeaseEnds(P.registry.names[nm], end)
    requires ev.height / 30 > end + 720 && IsRegFee(base, |nm|, ev.height) && IsPremium(fee, base, ev.height / 30 - end - 720)
    ensures var M, r := Handle(P, ev), P.registry.recaptures[nm];
      if Timely(P, ev, opening, r.effHeight) && Pt(ev.paidTo, TREASURY_ADDR) >= fee then
        && M.registry.names == P.registry.names[nm :=
             NameRec(r.owner, r.effHeight, r.pos, r.id, r.height, false, false, Some(ev.height / 30 + 8_760), false, None)]
        && M.registry.recaptures == P.registry.recaptures - {nm} && M.registry.commits == P.registry.commits
        && M.feesPaid == P.feesPaid + fee
      else M == P
  {
    hide NameInv, NameRegFee, IsRegFee, IsPremium, ExpiredClaimFee, VoidOpenNameOffers;
    LapsedIsLate(P, nm, ev.height);
    PremiumIs(fee, base, |nm|, ev.height / 30 - end - 720, ev.height);
    VoidNames(P, nm, ev.height);
    VoidFees(P, nm, ev.height);
  }

  lemma VoidFees(P: Ledger, nm: string, height: nat)
    ensures VoidOpenNameOffers(P, nm, height).feesPaid == P.feesPaid
  {
    CloseAllEffect(P, P.market.offerIds, Void(nm, height));
  }

  /** A finalize by anyone who holds neither kind of reservation of the name does nothing; nor does any below height 46_440. */
  lemma OthersFinalizeNothing(P: Ledger, ev: Event, nm: string, opening: Hash)
    requires ev.Propose? && ev.rec == Some(Nfinalize(nm, opening))
    requires ev.height >= 46_440 ==>
      && !(nm in P.registry.names && P.registry.names[nm].pending && P.registry.names[nm].owner == ev.proposer)
      && !(ev.height >= 46_480 && nm in P.registry.recaptures && P.registry.recaptures[nm].owner == ev.proposer)
    ensures Handle(P, ev) == P
  {
    hide FinalizeRegistration, FinalizeRecapture;
  }

  // ----- transfer and renewal -----

  /** A registered name that is not listed and, from height 32_000 on, not lapsed is its owner's to give away. */
  lemma NameTransfers(P: Ledger, ev: Event, nm: string, to: Addr)
    requires ev.Propose? && ev.rec == Some(Nxfer(nm, to))
    ensures Handle(P, ev) ==
      if nm in P.registry.names && P.registry.names[nm].owner == ev.proposer
         && !P.registry.names[nm].pending && !P.registry.names[nm].locked
         && (ev.height >= 32_000 ==> !HasLapsed(P, nm, ev.height)) then
        P.(registry := P.registry.(names := P.registry.names[nm := P.registry.names[nm].(owner := to)]))
      else P
  {
    hide Lapsed;
  }

  /** From height 32_000 on a renewal adds a term to the lease for the registration fee: anyone's while it runs, the owner's
      alone in its grace, no one's once it lapsed. */
  lemma NameRenews(P: Ledger, ev: Event, nm: string, fee: nat, end: nat)
    requires ev.Propose? && ev.rec == Some(Nrenew(nm)) && IsRegFee(fee, |nm|, ev.height)
    requires nm in P.registry.names && LeaseEnds(P.registry.names[nm], end)
    ensures var n := P.registry.names[nm];
      Handle(P, ev) ==
      if ev.height >= 32_000 && !n.pending && Pt(ev.paidTo, TREASURY_ADDR) >= fee && ev.height / 30 <= end + 720
         && (ev.height / 30 <= end || ev.proposer == n.owner) then
        P.(registry := P.registry.(names := P.registry.names[nm := n.(paidThroughEpoch := Some(end + 8_760))]),
           feesPaid := P.feesPaid + fee)
      else P
  {
    hide NameRegFee, IsRegFee;
    RegFeeIs(fee, |nm|, ev.height);
  }

}
