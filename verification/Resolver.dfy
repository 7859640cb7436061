/** The resolver itself: the maps and private indexes of createContext, updated in place by one method per helper and
    per record kind, and the event loop of resolve() (packages/cairnx/src/resolve.ts and the files under resolve/). Every method
    is proved to leave the ledger that its specification function gives. */
module Resolvers {
  import opened Rules
  import opened Ledgers
  import opened Handlers
  import opened Replay
  import Ordering

  class Resolver {
    var tokens: map<string, Token>
    var balances: Balances
    var names: map<string, NameRec>
    var pendingNames: set<string>
    var commits: map<Hash, nat>
    var recaptures: map<string, Recapture>
    var offerIds: seq<Id>
    var offers: map<Id, Offer>
    var offerLock: map<Id, int>
    var openOffers: seq<Id>
    var bids: map<Id, Bid>
    var openBids: set<Id>
    var fclaims: map<Id, Fclaim>
    var pendingCancels: seq<Deferred>
    var feesPaid: nat
    var block: int

    ghost function Model(): Ledger
      reads this
    {
      Ledger(Assets(tokens, balances), Registry(names, pendingNames, commits, recaptures),
             Market(offerIds, offers, offerLock, openOffers), BidBook(bids, openBids),
             fclaims, pendingCancels, feesPaid, block)
    }

    constructor ()
      ensures Model() == EMPTY
    {
      tokens, balances := map[], map[];
      names, pendingNames, commits, recaptures := map[], {}, map[], map[];
      offerIds, offers, offerLock, openOffers := [], map[], map[], [];
      bids, openBids := map[], {};
      fclaims, pendingCancels, feesPaid, block := map[], [], 0, -1;
    }

    // ----- context.ts -----

    /** bal(): the row is created at zero when it is missing. */
    method AddBalance(t: string, a: Addr, available: int, locked: int)
      modifies this`balances
      ensures balances == Credit(old(balances), t, a, available, locked)
    {
      var row: map<Addr, Bal> := if t in balances then balances[t] else map[];
      var b := if a in row then row[a] else Bal(0, 0);
      balances := balances[t := row[a := Bal(b.available + available, b.locked + locked)]];
    }

    method SetOfferStatus(id: Id, status: Status)
      requires id in offers
      modifies this`offers, this`openOffers
      ensures Model().market == SetStatus(old(Model().market), id, status)
    {
      offers := offers[id := offers[id].(status := status)];
      if status.Open? {
        if id !in openOffers { openOffers := openOffers + [id]; }
      } else {
        openOffers := Without(openOffers, id);
      }
    }

    method SetNameLock(nm: string, locked: bool)
      modifies this`names
      ensures Model().registry == SetLocked(old(Model().registry), nm, locked)
    {
      if nm in names { names := names[nm := names[nm].(locked := locked)]; }
    }

    method PutNameRec(nm: string, n: NameRec)
      modifies this`names, this`pendingNames
      ensures Model().registry == PutName(old(Model().registry), nm, n)
    {
      names := names[nm := n];
      if n.pending { pendingNames := pendingNames + {nm}; } else { pendingNames := pendingNames - {nm}; }
    }

    method ReleaseOffer(o: Offer)
      modifies this`balances, this`names
      ensures Model() == ReleaseGive(old(Model()), o)
    {
      match o.give
      case NameGive(nm) => SetNameLock(nm, false);
      case TokenGive(t, _) =>
        var amt := if o.id in offerLock then offerLock[o.id] else 0;
        AddBalance(t, o.seller, amt, -amt);
    }

    method CloseOffer(id: Id, status: Status)
      requires id in offers
      modifies this`balances, this`names, this`offers, this`openOffers
      ensures Model() == Close(old(Model()), id, status)
    {
      ReleaseOffer(offers[id]);
      SetOfferStatus(id, status);
    }

    method ReleaseLockedGive(o: Offer, who: Addr, amount: int)
      requires o.give.TokenGive?
      modifies this`balances, this`offerLock
      ensures Model() == ReleaseGiveLock(old(Model()), o, who, amount)
    {
      AddBalance(o.give.ticker, o.seller, 0, -amount);
      AddBalance(o.give.ticker, who, amount, 0);
      offerLock := offerLock - {o.id};
    }

    method SettleBid(bid: Option<Id>, buyer: Addr)
      modifies this`bids, this`openBids
      ensures Model().bidBook == MarkBidDone(old(Model().bidBook), bid, buyer)
    {
      if bid.None? { return; }
      if bid.value in bids && bids[bid.value].status.BidOpen? && bids[bid.value].bidder == buyer {
        bids := bids[bid.value := bids[bid.value].(status := BidDone)];
        openBids := openBids - {bid.value};
      }
    }

    method SweepOffer(id: Id, height: nat)
      modifies this`balances, this`names, this`offers, this`openOffers
      ensures Model() == SweepOne(old(Model()), id, height)
    {
      if id !in offers || !offers[id].status.Open? {
        openOffers := Without(openOffers, id);
      } else if EpochOf(height) > EffExpiry(offers[id].expiresEpoch, offers[id].height, height) {
        CloseOffer(id, Expired);
      }
    }

    method SweepOpenOffers(height: nat)
      modifies this`balances, this`names, this`offers, this`openOffers
      ensures Model() == SweepOffers(old(Model()), old(openOffers), height)
    {
      hide SweepOne;
      var ids := openOffers;
      for k := 0 to |ids|
        invariant Model() == SweepOffers(old(Model()), ids[..k], height)
      {
        assert ids[..k + 1][..k] == ids[..k];
        SweepOffer(ids[k], height);
      }
      assert ids[..|ids|] == ids;
    }

    method SweepOpenBids(height: nat)
      modifies this`bids, this`openBids
      ensures Model().bidBook == SweepBids(old(Model().bidBook), height)
    {
      var todo := openBids;
      while todo != {}
        invariant todo <= old(openBids) && bids.Keys == old(bids).Keys
        invariant forall id :: id in todo && id in bids ==> bids[id] == old(bids)[id]
        invariant forall id :: id in bids && id !in todo ==> bids[id] == SweepBids(old(Model().bidBook), height).bids[id]
        invariant forall id :: id in openBids <==> id in todo || id in SweepBids(old(Model().bidBook), height).openBids
        decreases todo
      {
        var id :| id in todo;
        todo := todo - {id};
        if id !in bids || !bids[id].status.BidOpen? {
          openBids := openBids - {id};
        } else if EpochOf(height) > EffExpiry(bids[id].expiresEpoch, bids[id].height, height) {
          bids := bids[id := bids[id].(status := BidExpired)];
          openBids := openBids - {id};
        }
      }
      assert bids == SweepBids(old(Model().bidBook), height).bids;
    }

    method SweepPendingNames(height: nat)
      modifies this`names, this`pendingNames, this`recaptures
      ensures Model().registry == SweepNames(old(Model().registry), height)
    {
      ghost var swept := SweepNames(old(Model().registry), height);
      var todo := pendingNames;
      while todo != {}
        invariant todo <= old(pendingNames) && recaptures == old(recaptures)
        invariant forall nm :: nm in names <==> nm in old(names) && (nm in todo || nm in swept.names)
        invariant forall nm :: nm in names ==> names[nm] == old(names)[nm]
        invariant forall nm :: nm in pendingNames <==> nm in todo || nm in swept.pendingNames
        decreases todo
      {
        var nm :| nm in todo;
        todo := todo - {nm};
        if nm !in names || !names[nm].pending {
          pendingNames := pendingNames - {nm};
        } else if names[nm].finalizeBy.Some? && height > names[nm].finalizeBy.value {
          names := names - {nm};
          pendingNames := pendingNames - {nm};
        }
      }
      assert names == swept.names && pendingNames == swept.pendingNames;
      SweepRecaptures(height);
    }

    method SweepRecaptures(height: nat)
      modifies this`recaptures
      ensures recaptures == LiveRecaptures(old(recaptures), height)
    {
      var todo := recaptures.Keys;
      while todo != {}
        invariant todo <= old(recaptures).Keys
        invariant forall nm :: nm in recaptures <==> nm in old(recaptures) && (nm in todo || height <= old(recaptures)[nm].finalizeBy)
        invariant forall nm :: nm in recaptures ==> recaptures[nm] == old(recaptures)[nm]
        decreases todo
      {
        var nm :| nm in todo;
        todo := todo - {nm};
        if height > recaptures[nm].finalizeBy { recaptures := recaptures - {nm}; }
      }
      assert recaptures == LiveRecaptures(old(recaptures), height);
    }

    method Sweep(height: nat)
      modifies this
      ensures Model() == SweepExpired(old(Model()), height)
    {
      SweepOpenOffers(height);
      SweepOpenBids(height);
      SweepPendingNames(height);
    }

    method VoidNameOffers(nm: string, height: nat)
      modifies this`balances, this`names, this`offers, this`openOffers
      ensures Model() == VoidOpenNameOffers(old(Model()), nm, height)
    {
      var ids := offerIds;
      for k := 0 to |ids|
        invariant Model() == CloseAll(old(Model()), ids[..k], Void(nm, height))
      {
        var id := ids[k];
        assert ids[..k + 1][..k] == ids[..k];
        if id in offers && offers[id].status.Open? && offers[id].give == NameGive(nm) {
          var o := offers[id];
          if height >= V28_HEIGHT && o.claimTxid.Some? && ClaimHeld(o, height) { continue; }
          CloseOffer(id, Cancelled);
        }
      }
      assert ids[..|ids|] == ids;
    }

    method CountLiveHolds(who: Addr, height: nat) returns (n: nat)
      ensures n == LiveHoldCount(Model(), who, height)
    {
      n := 0;
      var todo := offers.Keys;
      ghost var seen: set<Id> := {};
      while todo != {}
        invariant todo <= offers.Keys
        invariant seen == (set id | id in offers && id !in todo && Counts(offers[id], who, height))
        invariant n == |seen|
        decreases todo
      {
        var id :| id in todo;
        todo := todo - {id};
        var x := offers[id];
        if x.hold.Some? && x.hold.value.holder == who && ClaimHeld(x, height) && (height < V29_HEIGHT || x.status.Open?) {
          n := n + 1;
          seen := seen + {id};
        }
      }
      assert seen == LiveHolds(offers, who, height);
    }

    // ----- tokens.ts -----

    method Deploy(ev: Event, ticker: string, supply: nat, mintLimit: Option<nat>)
      requires ev.Propose?
      modifies this`tokens, this`feesPaid
      ensures Model() == ApplyDeploy(old(Model()), ev, ticker, supply, mintLimit)
    {
      if ticker in tokens { return; }
      if ev.height >= V11_HEIGHT && Pt(ev.paidTo, TREASURY_ADDR) < DEPLOY_FEE { return; }
      var mode := match mintLimit case None => Issuer(ev.proposer) case Some(limit) => OpenMint(limit);
      tokens := tokens[ticker := Token(supply, 0, mode)];
      if ev.height >= V11_HEIGHT { feesPaid := feesPaid + DEPLOY_FEE; }
    }

    method MintAllowance(tok: Token, who: Addr, amount: Option<nat>) returns (credit: Option<nat>)
      ensures credit == MintCredit(tok, who, amount)
    {
      if tok.supply <= tok.minted { return None; }
      var remaining: nat := tok.supply - tok.minted;
      match tok.mode {
        case Issuer(deployer) =>
          if who != deployer || amount.None? { return None; }
          credit := Some(if amount.value < remaining then amount.value else remaining);
        case OpenMint(limit) =>
          var c := if amount.Some? then amount.value else limit;
          if c > limit { c := limit; }
          if c > remaining { c := remaining; }
          credit := Some(c);
      }
    }

    method Mint(ev: Event, ticker: string, amount: Option<nat>)
      requires ev.Propose?
      modifies this`tokens, this`balances
      ensures Model() == ApplyMint(old(Model()), ev, ticker, amount)
    {
      hide MintCredit;
      if ticker !in tokens { return; }
      var tok := tokens[ticker];
      var credit := MintAllowance(tok, ev.proposer, amount);
      if credit.None? { return; }
      tokens := tokens[ticker := tok.(minted := tok.minted + credit.value)];
      AddBalance(ticker, ev.proposer, credit.value, 0);
    }

    method Transfer(ev: Event, ticker: string, to: Addr, amount: nat)
      requires ev.Propose?
      modifies this`balances
      ensures Model() == ApplyTransfer(old(Model()), ev, ticker, to, amount)
    {
      if ticker !in tokens { return; }
      if BalOf(balances, ticker, ev.proposer).available < amount { return; }
      AddBalance(ticker, ev.proposer, 0 - amount, 0);
      AddBalance(ticker, to, amount, 0);
    }

    // ----- names.ts -----

    method Commit(ev: Event, commit: Hash)
      modifies this`commits
      ensures Model() == ApplyNcommit(old(Model()), ev, commit)
    {
      if ev.height < V11_HEIGHT { return; }
      if commit !in commits || ev.height < commits[commit] { commits := commits[commit := ev.height]; }
    }

    method CountPending(who: Addr, but: string, height: nat) returns (n: nat)
      ensures n == |PendingOf(names, who, but, height)|
    {
      n := 0;
      var todo := names.Keys;
      ghost var seen: set<string> := {};
      while todo != {}
        invariant todo <= names.Keys
        invariant seen == (set nm | nm in PendingOf(names, who, but, height) && nm !in todo)
        invariant n == |seen|
        decreases todo
      {
        var nm :| nm in todo;
        todo := todo - {nm};
        var r := names[nm];
        if r.pending && r.owner == who && nm != but && r.finalizeBy.Some? && height <= r.finalizeBy.value {
          n := n + 1;
          seen := seen + {nm};
        }
      }
      assert seen == PendingOf(names, who, but, height);
    }

    method CountRecaptures(who: Addr, but: string, height: nat) returns (n: nat)
      ensures n == |RecapturesOf(recaptures, who, but, height)|
    {
      n := 0;
      var todo := recaptures.Keys;
      ghost var seen: set<string> := {};
      while todo != {}
        invariant todo <= recaptures.Keys
        invariant seen == (set nm | nm in RecapturesOf(recaptures, who, but, height) && nm !in todo)
        invariant n == |seen|
        decreases todo
      {
        var nm :| nm in todo;
        todo := todo - {nm};
        if recaptures[nm].owner == who && nm != but && height <= recaptures[nm].finalizeBy {
          n := n + 1;
          seen := seen + {nm};
        }
      }
      assert seen == RecapturesOf(recaptures, who, but, height);
    }

    method RecaptureName(ev: Event, nm: string, eff: nat)
      requires ev.Propose?
      modifies this`recaptures
      ensures Model() == ReserveRecapture(old(Model()), ev, nm, eff)
    {
      if nm in recaptures && ev.height <= recaptures[nm].finalizeBy {
        var cr := recaptures[nm];
        if !EarlierAnchor(eff, ev.pos, ev.id, cr.effHeight, cr.pos, cr.id) { return; }
      }
      var mine := CountRecaptures(ev.proposer, nm, ev.height);
      if mine >= MAX_PENDING_REG { return; }
      recaptures := recaptures[nm := Recapture(ev.proposer, eff, ev.pos, ev.id, ev.height, FinalizeBy(eff))];
    }

    /** A paid replacement of a name's record: the old listings are voided first. */
    method ReplaceName(nm: string, n: NameRec, fee: nat, height: nat)
      modifies this`balances, this`offers, this`openOffers, this`names, this`pendingNames, this`feesPaid
      ensures var V := VoidOpenNameOffers(old(Model()), nm, height);
        Model() == V.(registry := PutName(V.registry, nm, n), feesPaid := old(feesPaid) + fee)
    {
      hide VoidOpenNameOffers;
      VoidNameOffers(nm, height);
      PutNameRec(nm, n);
      feesPaid := feesPaid + fee;
    }

    method ReclaimName(ev: Event, nm: string, eff: nat, cur: NameRec)
      requires ev.Propose? && Lapsed(cur, EpochOf(ev.height))
      modifies this
      ensures Model() == Reclaim(old(Model()), ev, nm, eff, cur)
    {
      hide ExpiredClaimFee, VoidOpenNameOffers;
      var ep := EpochOf(ev.height);
      var fee := ExpiredClaimFee(|nm|, ep - (PaidThrough(cur) + NAME_GRACE_EPOCHS), ev.height);
      if Pt(ev.paidTo, TREASURY_ADDR) < fee { return; }
      ReplaceName(nm, NameRec(ev.proposer, eff, ev.pos, ev.id, ev.height, false, true, Some(ep + NAME_TERM_EPOCHS), false, None),
                  fee, ev.height);
    }

    method ReserveName(ev: Event, nm: string, eff: nat, cur: Option<NameRec>)
      requires ev.Propose?
      modifies this
      ensures Model() == Reserve(old(Model()), ev, nm, eff, cur)
    {
      hide VoidOpenNameOffers, Beats;
      if !Beats(eff, ev, cur) { return; }
      var mine := CountPending(ev.proposer, nm, ev.height);
      if mine >= MAX_PENDING_REG { return; }
      if cur.Some? { VoidNameOffers(nm, ev.height); }
      PutNameRec(nm, NameRec(ev.proposer, eff, ev.pos, ev.id, ev.height, false, false, None, true, Some(FinalizeBy(eff))));
    }

    method RegisterName(ev: Event, nm: string, eff: nat, cur: Option<NameRec>)
      requires ev.Propose?
      modifies this
      ensures Model() == Register(old(Model()), ev, nm, eff, cur)
    {
      hide VoidOpenNameOffers, Beats, NameRegFee;
      var fee := NameRegFee(|nm|, ev.height);
      if Pt(ev.paidTo, TREASURY_ADDR) < fee { return; }
      if !Beats(eff, ev, cur) { return; }
      var paid := if ev.height >= V15_HEIGHT then Some(EpochOf(ev.height) + NAME_TERM_EPOCHS) else None;
      if cur.Some? { VoidNameOffers(nm, ev.height); }
      PutNameRec(nm, NameRec(ev.proposer, eff, ev.pos, ev.id, ev.height, false, false, paid, false, None));
      feesPaid := feesPaid + fee;
    }

    method RevealName(ev: Event, nm: string, revealed: Option<Hash>)
      requires ev.Propose?
      modifies this
      ensures Model() == ApplyName(old(Model()), ev, nm, revealed)
    {
      if ev.height < V11_HEIGHT { return; }
      var window := if ev.height >= V25_HEIGHT then REG_COMMIT_MAX_BLOCKS else COMMIT_MAX_BLOCKS;
      var eff := ev.height;
      if revealed.Some? {
        if revealed.value !in commits { return; }
        var cH := commits[revealed.value];
        if cH >= ev.height || ev.height - cH > window { return; }
        eff := cH;
      }
      var cur := if nm in names && !Abandoned(names[nm], ev.height) then Some(names[nm]) else None;
      if cur.Some? && !cur.value.pending && ev.height >= V15_HEIGHT && Lapsed(cur.value, EpochOf(ev.height)) {
        if ev.height >= V26_HEIGHT {
          if revealed.None? { return; }
          RecaptureName(ev, nm, eff);
        } else {
          ReclaimName(ev, nm, eff, cur.value);
        }
      } else if ev.height >= V25_HEIGHT {
        if revealed.None? { return; }
        ReserveName(ev, nm, eff, cur);
      } else {
        RegisterName(ev, nm, eff, cur);
      }
    }

    method FinalizeReservation(ev: Event, nm: string, opening: Hash)
      requires nm in names
      modifies this`names, this`pendingNames, this`feesPaid
      ensures Model() == FinalizeRegistration(old(Model()), ev, nm, opening, old(names)[nm])
    {
      var n := names[nm];
      if opening !in commits || commits[opening] != n.effHeight { return; }
      if !(ev.height > n.effHeight + REG_COMMIT_MAX_BLOCKS) { return; }
      if n.finalizeBy.Some? && ev.height > n.finalizeBy.value { return; }
      var fee := NameRegFee(|nm|, ev.height);
      if Pt(ev.paidTo, TREASURY_ADDR) < fee { return; }
      PutNameRec(nm, n.(pending := false, finalizeBy := None, paidThroughEpoch := Some(EpochOf(ev.height) + NAME_TERM_EPOCHS)));
      feesPaid := feesPaid + fee;
    }

    method FinalizeLapsed(ev: Event, nm: string, opening: Hash)
      requires nm in recaptures
      modifies this
      ensures Model() == FinalizeRecapture(old(Model()), ev, nm, opening, old(recaptures)[nm])
    {
      hide ExpiredClaimFee, VoidOpenNameOffers, PutName, Pt;
      var r := recaptures[nm];
      if opening !in commits || commits[opening] != r.effHeight { return; }
      if !(ev.height > r.effHeight + REG_COMMIT_MAX_BLOCKS) { return; }
      if ev.height > r.finalizeBy { return; }
      var ep := EpochOf(ev.height);
      if nm !in names || names[nm].pending || !Lapsed(names[nm], ep) {
        recaptures := recaptures - {nm};
        return;
      }
      var fee := ExpiredClaimFee(|nm|, ep - (PaidThrough(names[nm]) + NAME_GRACE_EPOCHS), ev.height);
      if Pt(ev.paidTo, TREASURY_ADDR) < fee { return; }
      ReplaceName(nm, NameRec(r.owner, r.effHeight, r.pos, r.id, r.height, false, false, Some(ep + NAME_TERM_EPOCHS), false, None),
                  fee, ev.height);
      recaptures := recaptures - {nm};
    }

    method Finalize(ev: Event, nm: string, opening: Hash)
      requires ev.Propose?
      modifies this
      ensures Model() == ApplyNfinalize(old(Model()), ev, nm, opening)
    {
      if ev.height < V25_HEIGHT { return; }
      if nm in names && names[nm].pending && names[nm].owner == ev.proposer {
        FinalizeReservation(ev, nm, opening);
      } else if ev.height >= V26_HEIGHT && nm in recaptures && recaptures[nm].owner == ev.proposer {
        FinalizeLapsed(ev, nm, opening);
      }
    }

    method TransferName(ev: Event, nm: string, to: Addr)
      requires ev.Propose?
      modifies this`names
      ensures Model() == ApplyNxfer(old(Model()), ev, nm, to)
    {
      if nm !in names || names[nm].owner != ev.proposer || names[nm].pending { return; }
      if ev.height >= V15_HEIGHT && Lapsed(names[nm], EpochOf(ev.height)) { return; }
      if names[nm].locked { return; }
      names := names[nm := names[nm].(owner := to)];
    }

    method RenewName(ev: Event, nm: string)
      requires ev.Propose?
      modifies this`names, this`feesPaid
      ensures Model() == ApplyNrenew(old(Model()), ev, nm)
    {
      if ev.height < V15_HEIGHT || nm !in names || names[nm].pending { return; }
      var n, ep := names[nm], EpochOf(ev.height);
      if Lapsed(n, ep) || (InGrace(n, ep) && ev.proposer != n.owner) { return; }
      var fee := NameRegFee(|nm|, ev.height);
      if Pt(ev.paidTo, TREASURY_ADDR) < fee { return; }
      names := names[nm := n.(paidThroughEpoch := Some(PaidThrough(n) + NAME_TERM_EPOCHS))];
      feesPaid := feesPaid + fee;
    }

    // ----- market.ts -----

    method AddOpenOffer(o: Offer)
      modifies this`offers, this`offerIds, this`openOffers
      ensures Model().market == AddOffer(old(Model().market), o)
    {
      if o.id !in offers { offerIds := offerIds + [o.id]; }
      offers := offers[o.id := o];
      if o.id !in openOffers { openOffers := openOffers + [o.id]; }
    }

    method PlaceOffer(ev: Event, rec: Record)
      requires ev.Propose? && rec.OfferRec?
      modifies this
      ensures Model() == ApplyOffer(old(Model()), ev, rec)
    {
      hide EnvelopeRefused, Listable, NewOffer, AddOffer, SetLocked, Credit, BalOf;
      if EnvelopeRefused(rec, ev.proposer, ev.height, ev.expiresEpoch) { return; }
      if rec.give.NameGive? { PlaceNameOffer(ev, rec); } else { PlaceTokenOffer(ev, rec); }
    }

    method PlaceNameOffer(ev: Event, rec: Record)
      requires ev.Propose? && rec.OfferRec? && rec.give.NameGive? && !EnvelopeRefused(rec, ev.proposer, ev.height, ev.expiresEpoch)
      modifies this`names, this`offers, this`offerIds, this`openOffers
      ensures Model() == ApplyOffer(old(Model()), ev, rec)
    {
      hide EnvelopeRefused, Listable, NewOffer, AddOffer, SetLocked;
      var nm := rec.give.name;
      if nm !in names || !Listable(names[nm], ev.proposer, ev.height, ev.expiresEpoch) { return; }
      SetNameLock(nm, true);
      AddOpenOffer(NewOffer(ev, rec));
    }

    lemma TokenOffered(L: Ledger, ev: Event, rec: Record)
      requires ev.Propose? && rec.OfferRec? && rec.give.TokenGive? && !EnvelopeRefused(rec, ev.proposer, ev.height, ev.expiresEpoch)
      ensures var t, amt := rec.give.ticker, rec.give.amount;
        ApplyOffer(L, ev, rec)
        == if t !in L.assets.tokens || BalOf(L.assets.balances, t, ev.proposer).available < amt then L
           else L.(assets := L.assets.(balances := Credit(L.assets.balances, t, ev.proposer, 0 - amt, amt)),
                   market := AddOffer(L.market.(offerLock := L.market.offerLock[ev.id := amt]), NewOffer(ev, rec)))
    {
      hide EnvelopeRefused, NewOffer, AddOffer, Credit, BalOf;
    }

    method PlaceTokenOffer(ev: Event, rec: Record)
      requires ev.Propose? && rec.OfferRec? && rec.give.TokenGive? && !EnvelopeRefused(rec, ev.proposer, ev.height, ev.expiresEpoch)
      modifies this`balances, this`offerLock, this`offers, this`offerIds, this`openOffers
      ensures Model() == ApplyOffer(old(Model()), ev, rec)
    {
      hide EnvelopeRefused, NewOffer, AddOffer, Credit, BalOf, ApplyOffer;
      TokenOffered(Model(), ev, rec);
      var t := rec.give.ticker;
      var amt: int := rec.give.amount;
      if t !in tokens || BalOf(balances, t, ev.proposer).available < amt { return; }
      AddBalance(t, ev.proposer, 0 - amt, amt);
      offerLock := offerLock[ev.id := amt];
      AddOpenOffer(NewOffer(ev, rec));
    }

    method PlaceBid(ev: Event)
      requires ev.Propose?
      modifies this`bids, this`openBids
      ensures Model() == ApplyBid(old(Model()), ev)
    {
      if ev.height < V12_HEIGHT { return; }
      if ev.expiresEpoch > MAX_SAFE_INTEGER || EpochOf(ev.height) > ev.expiresEpoch { return; }
      if V21_HEIGHT <= ev.height < V22_HEIGHT && ev.expiresEpoch - EpochOf(ev.height) > MAX_OFFER_EPOCHS { return; }
      bids := bids[ev.id := Bid(ev.proposer, BidOpen, ev.expiresEpoch, ev.height)];
      openBids := openBids + {ev.id};
    }

    method CancelTargets(who: Addr, onlyTicker: Option<string>, onlyName: Option<string>) returns (targets: seq<Id>)
      ensures targets == OcancelTargets(Model(), offerIds, who, onlyTicker, onlyName)
    {
      targets := [];
      for k := 0 to |offerIds|
        invariant targets == OcancelTargets(Model(), offerIds[..k], who, onlyTicker, onlyName)
      {
        var id := offerIds[k];
        assert offerIds[..k + 1][..k] == offerIds[..k];
        if id !in offers || !offers[id].status.Open? || offers[id].seller != who { continue; }
        var o := offers[id];
        if o.taker.Some? && o.height >= V28_HEIGHT { continue; }
        if onlyTicker.Some? && !(o.give.TokenGive? && o.give.ticker == onlyTicker.value) { continue; }
        if onlyName.Some? && o.give != NameGive(onlyName.value) { continue; }
        targets := targets + [id];
      }
      assert offerIds[..|offerIds|] == offerIds;
    }

    method CancelNow(targets: seq<Id>)
      modifies this`balances, this`names, this`offers, this`openOffers
      ensures Model() == CloseAll(old(Model()), targets, Immediate)
    {
      hide Close;
      for k := 0 to |targets|
        invariant Model() == CloseAll(old(Model()), targets[..k], Immediate)
      {
        assert targets[..k + 1][..k] == targets[..k];
        if targets[k] in offers && offers[targets[k]].status.Open? { CloseOffer(targets[k], Cancelled); }
      }
      assert targets[..|targets|] == targets;
    }

    method CancelAll(ev: Event, onlyTicker: Option<string>, onlyName: Option<string>)
      requires ev.Propose?
      modifies this
      ensures Model() == ApplyOcancel(old(Model()), ev, onlyTicker, onlyName)
    {
      hide OcancelTargets, CloseAll;
      if ev.height < V12_HEIGHT { return; }
      var targets := CancelTargets(ev.proposer, onlyTicker, onlyName);
      if ev.height >= V14_HEIGHT {
        pendingCancels := pendingCancels + [Deferred(targets, ev.height)];
      } else {
        CancelNow(targets);
      }
    }

    /** The grant ladder, rung by rung. */
    method GrantLadder(oid: Id, who: Addr, E: nat, height: nat) returns (granted: bool)
      ensures granted == Grants(Model(), oid, who, E, height)
    {
      if E > MAX_SAFE_INTEGER || oid !in offers { return false; }
      var o := offers[oid];
      if !o.status.Open? || o.taker.Some? || o.want.TokenWant? { return false; }
      if E > EffExpiry(o.expiresEpoch, o.height, height) { return false; }
      if E > EpochOf(height) + FCLAIM_MAX_EPOCH_AHEAD || EpochOf(height) > E { return false; }
      if ClaimHeld(o, height) { return false; }
      if o.hold.Some? && o.hold.value.holder == who && height < HoldEnd(o) + CLAIM_COOLDOWN_BLOCKS { return false; }
      var live := CountLiveHolds(who, height);
      granted := live < MAX_ACTIVE_CLAIMS;
    }

    method ClaimOffer(ev: Event, oid: Id)
      requires ev.Propose?
      modifies this`offers, this`fclaims
      ensures Model() == ApplyFclaim(old(Model()), ev, oid)
    {
      if ev.height < V28_HEIGHT { return; }
      var E := ev.expiresEpoch;
      var granted := GrantLadder(oid, ev.proposer, E, ev.height);
      if granted {
        offers := offers[oid := offers[oid].(hold := Some(Hold(ev.proposer, (E + 1) * EPOCH_LEN)), claimTxid := Some(ev.id))];
      }
      fclaims := fclaims[ev.id := Fclaim(oid, ev.proposer, E, ev.height, granted)];
    }

    // ----- attest.ts -----

    method CancelOffer(ev: Event, oid: Id)
      requires ev.Attest? && oid in offers
      modifies this
      ensures Model() == ApplyCancel(old(Model()), ev, oid)
    {
      hide Close;
      var o := offers[oid];
      if ev.attester != o.seller || !o.status.Open? { return; }
      if o.taker.Some? && o.height >= V28_HEIGHT { return; }
      if ev.height >= V14_HEIGHT {
        pendingCancels := pendingCancels + [Deferred([oid], ev.height)];
      } else {
        CloseOffer(oid, Cancelled);
      }
    }

    method DeliverTo(o: Offer, who: Addr, ev: Event)
      requires GiveReady(Model(), o)
      modifies this`names, this`balances, this`offerLock
      ensures Model() == DeliverGive(old(Model()), o, who, ev)
    {
      match o.give
      case NameGive(nm) => names := names[nm := Deliver(names[nm], who, ev)];
      case TokenGive(_, _) => ReleaseLockedGive(o, who, offerLock[o.id]);
    }

    method FinishOffer(oid: Id, entry: FillEntry)
      requires oid in offers
      modifies this`offers, this`openOffers, this`bids, this`openBids
      ensures Model() == FinishFill(old(Model()), oid, entry)
    {
      hide Without;
      var bid := offers[oid].bid;
      SetOfferStatus(oid, Filled);
      offers := offers[oid := offers[oid].(fill := Some(entry))];
      SettleBid(bid, entry.buyer);
    }

    method PayInTokens(w: Want, who: Addr, fee: nat)
      requires w.TokenWant?
      modifies this`balances
      ensures balances == SettleTokens(old(balances), w, who, fee)
    {
      hide Credit;
      AddBalance(w.ticker, who, -(w.amount + fee), 0);
      AddBalance(w.ticker, w.payto, w.amount, 0);
      if fee > 0 { AddBalance(w.ticker, TREASURY_ADDR, fee, 0); }
    }

    lemma TokenFilled(L: Ledger, ev: Event, oid: Id)
      requires ev.Attest? && oid in L.market.offers && L.market.offers[oid].want.TokenWant?
      ensures var o := L.market.offers[oid]; var fee := FeeAt(o.want.amount, o.feeBps);
        ApplyTokenFill(L, ev, oid)
        == if TokenFillRefused(L, ev, o) then L
           else FinishFill(DeliverGive(Pay(L, SettleTokens(L.assets.balances, o.want, ev.attester, fee)), o, ev.attester, ev), oid,
                           FillEntry(ev.attester, ev.id, ev.height, o.want.amount, fee, 0))
    {
      hide DeliverGive, FinishFill, SettleTokens, FeeAt, BalOf;
    }

    method FillInTokens(ev: Event, oid: Id)
      requires ev.Attest? && oid in offers && offers[oid].want.TokenWant?
      modifies this
      ensures Model() == ApplyTokenFill(old(Model()), ev, oid)
    {
      hide DeliverGive, FinishFill, SettleTokens, FeeAt, BalOf, ApplyTokenFill;
      TokenFilled(Model(), ev, oid);
      var o, who := offers[oid], ev.attester;
      if !o.status.Open? { return; }
      if o.taker.Some? && who != o.taker.value { return; }
      if ev.confidence != CONF_TOKEN_FILL { return; }
      if o.want.ticker !in tokens { return; }
      var amt := o.want.amount;
      var fee := FeeAt(amt, o.feeBps);
      if BalOf(balances, o.want.ticker, who).available < amt + fee { return; }
      if o.give.NameGive? && o.give.name !in names { return; }
      if o.give.TokenGive? && o.id !in offerLock { return; }
      PayInTokens(o.want, who, fee);
      DeliverTo(o, who, ev);
      FinishOffer(oid, FillEntry(who, ev.id, ev.height, amt, fee, 0));
    }

    method FillPortion(ev: Event, oid: Id)
      requires ev.Attest? && oid in offers && IsPartial(offers[oid])
      modifies this
      ensures Model() == ApplyPartialFill(old(Model()), ev, oid)
    {
      hide SettlePortion, FillBarred, Credit, MarkBidDone;
      var o, who := offers[oid], ev.attester;
      if !PartialSane(o) || FillBarred(o, ev) { return; }
      var want, remaining: nat := o.want.value, o.want.value - o.paid;
      var X := Pt(ev.paidTo, o.want.payto);
      var effMin := if remaining < o.min.value then remaining else o.min.value;
      if X < effMin { return; }
      var x := if X < remaining then X else remaining;
      var fee := FeeAt(x, o.feeBps);
      if Pt(ev.paidTo, TREASURY_ADDR) < fee { return; }
      var newDelivered := (o.give.amount * (o.paid + x)) / want;
      if newDelivered <= o.delivered { return; }
      var got: nat := newDelivered - o.delivered;
      if o.id !in offerLock { return; }
      assert PortionOf(o, X) == Portion(x, fee, newDelivered);
      var entry := FillEntry(who, ev.id, ev.height, x, fee, got);
      Settle(o, oid, entry);
    }

    /** Progress the offer, and complete it when its price is paid. */
    method SettleOffer(o: Offer, oid: Id, entry: FillEntry)
      requires oid in offers && offers[oid] == o && IsPartial(o) && o.id in offerLock
      modifies this`offers, this`openOffers, this`offerLock, this`bids, this`openBids
      ensures var L := old(Model()); var o' := Progressed(o, entry);
        Model() == L.(
          market := SettlePortion(L.market, oid, o', L.market.offerLock[o.id] - entry.got, entry),
          bidBook := if o'.paid == o.want.value then MarkBidDone(L.bidBook, o.bid, entry.buyer) else L.bidBook)
    {
      hide FinishMarket, MarkBidDone;
      var o' := o.(paid := o.paid + entry.paid, delivered := o.delivered + entry.got, fills := o.fills + [entry]);
      offers := offers[oid := o'];
      if o'.paid == o.want.value {
        offerLock := offerLock - {o.id};
        FinishOffer(oid, entry);
      } else {
        offerLock := offerLock[o.id := offerLock[o.id] - entry.got];
      }
    }

    /** Move the delivered portion to the buyer and settle the offer. */
    method Settle(o: Offer, oid: Id, entry: FillEntry)
      requires oid in offers && offers[oid] == o && IsPartial(o) && o.id in offerLock
      modifies this
      ensures var L := old(Model()); var o' := Progressed(o, entry);
        Model() == Pay(L, Credit(Credit(L.assets.balances, o.give.ticker, o.seller, 0, 0 - entry.got), o.give.ticker, entry.buyer, entry.got, 0)).(
          market := SettlePortion(L.market, oid, o', L.market.offerLock[o.id] - entry.got, entry),
          bidBook := if o'.paid == o.want.value then MarkBidDone(L.bidBook, o.bid, entry.buyer) else L.bidBook,
          feesPaid := L.feesPaid + entry.fee)
    {
      hide SettlePortion, Credit, MarkBidDone;
      AddBalance(o.give.ticker, o.seller, 0, 0 - entry.got);
      AddBalance(o.give.ticker, entry.buyer, entry.got, 0);
      feesPaid := feesPaid + entry.fee;
      SettleOffer(o, oid, entry);
    }

    /** Does the transaction pay every address what it needs? */
    method PaysAll(paidTo: map<Addr, nat>, need: map<Addr, nat>) returns (ok: bool)
      ensures ok == Dominates(paidTo, need)
    {
      var todo := need.Keys;
      while todo != {}
        invariant todo <= need.Keys && forall a :: a in need && a !in todo ==> Pt(paidTo, a) >= need[a]
        decreases todo
      {
        var a :| a in todo;
        if Pt(paidTo, a) < need[a] { return false; }
        todo := todo - {a};
      }
      return true;
    }

    method FillWhole(ev: Event, oid: Id)
      requires ev.Attest? && oid in offers && offers[oid].want.CsdWant?
      modifies this
      ensures Model() == ApplyFill(old(Model()), ev, oid)
    {
      hide DeliverGive, FinishFill, FeeAt, Dominates, Needs, FillBarred;
      var o, who := offers[oid], ev.attester;
      if FillBarred(o, ev) { return; }
      var fee := FeeAt(o.want.value, o.feeBps);
      var paid := PaysAll(ev.paidTo, Needs(o));
      if !paid { return; }
      if o.give.NameGive? && o.give.name !in names { return; }
      if o.give.TokenGive? && o.id !in offerLock { return; }
      DeliverTo(o, who, ev);
      feesPaid := feesPaid + fee;
      FinishOffer(oid, FillEntry(who, ev.id, ev.height, Pt(ev.paidTo, o.want.payto), fee, 0));
    }

    method ClaimLegacy(ev: Event, oid: Id)
      requires ev.Attest? && oid in offers
      modifies this`offers
      ensures Model() == ApplyLegacyClaim(old(Model()), ev, oid)
    {
      if ev.height >= V28_HEIGHT { return; }
      var o, who := offers[oid], ev.attester;
      if !o.status.Open? || o.taker.Some? || o.want.TokenWant? { return; }
      if ClaimHeld(o, ev.height) { return; }
      if o.hold.Some? && o.hold.value.holder == who && ev.height < HoldEnd(o) + CLAIM_COOLDOWN_BLOCKS { return; }
      var live := CountLiveHolds(who, ev.height);
      if live >= MAX_ACTIVE_CLAIMS { return; }
      offers := offers[oid := o.(hold := Some(Hold(who, ev.height + ClaimWindowAt(ev.height))))];
    }

    method CancelBid(ev: Event)
      requires ev.Attest?
      modifies this`bids, this`openBids
      ensures Model() == ApplyBidCancel(old(Model()), ev)
    {
      if ev.proposalId !in bids || ev.score != SCORE_CANCEL { return; }
      var b := bids[ev.proposalId];
      if ev.attester != b.bidder || !b.status.BidOpen? { return; }
      bids := bids[ev.proposalId := b.(status := BidCancelled)];
      openBids := openBids - {ev.proposalId};
    }

    method FindTarget(ev: Event) returns (target: Option<Id>)
      requires ev.Attest?
      ensures target == Routed(Model(), ev)
    {
      if ev.proposalId in offers { return Some(ev.proposalId); }
      if ev.height >= V28_HEIGHT && ev.score == SCORE_FILL && ev.proposalId in fclaims && fclaims[ev.proposalId].granted {
        var linked := fclaims[ev.proposalId].offer;
        if linked in offers && offers[linked].claimTxid == Some(ev.proposalId) { return Some(linked); }
      }
      return None;
    }

    method OnAttest(ev: Event)
      requires ev.Attest?
      modifies this
      ensures Model() == ApplyAttest(old(Model()), ev)
    {
      hide ApplyCancel, ApplyTokenFill, ApplyPartialFill, ApplyFill, ApplyLegacyClaim, ApplyBidCancel;
      var target := FindTarget(ev);
      if target.None? {
        if ev.height >= V28_HEIGHT && ev.score == SCORE_FILL && ev.proposalId in fclaims { return; }
        CancelBid(ev);
        return;
      }
      var oid := target.value;
      var o := offers[oid];
      if ev.score == SCORE_CANCEL { CancelOffer(ev, oid); }
      else if ev.score == SCORE_FILL && o.want.TokenWant? { FillInTokens(ev, oid); }
      else if ev.score == SCORE_FILL && IsPartial(o) { FillPortion(ev, oid); }
      else if ev.score == SCORE_FILL { FillWhole(ev, oid); }
      else if ev.height >= V17_HEIGHT && ev.score == SCORE_CLAIM { ClaimLegacy(ev, oid); }
    }

    // ----- resolve.ts -----

    method OnPropose(ev: Event)
      requires ev.Propose?
      modifies this
      ensures Model() == ApplyPropose(old(Model()), ev)
    {
      hide ApplyDeploy, ApplyMint, ApplyTransfer, ApplyNcommit, ApplyName, ApplyNfinalize, ApplyNxfer, ApplyNrenew, ApplyOffer,
        ApplyBid, ApplyOcancel, ApplyFclaim;
      match ev.rec
      case Some(Deploy(t, supply, limit)) => Deploy(ev, t, supply, limit);
      case Some(Mint(t, amount)) => Mint(ev, t, amount);
      case Some(Transfer(t, to, amount)) => Transfer(ev, t, to, amount);
      case Some(Ncommit(commit)) => Commit(ev, commit);
      case Some(Name(nm, revealed)) => RevealName(ev, nm, revealed);
      case Some(Nfinalize(nm, opening)) => Finalize(ev, nm, opening);
      case Some(Nxfer(nm, to)) => TransferName(ev, nm, to);
      case Some(Nrenew(nm)) => RenewName(ev, nm);
      case Some(OfferRec(_, _, _, _, _)) => PlaceOffer(ev, ev.rec.value);
      case Some(BidRec) => PlaceBid(ev);
      case Some(Ocancel(t, nm)) => CancelAll(ev, t, nm);
      case Some(FclaimRec(offer)) => ClaimOffer(ev, offer);
      case _ =>
    }

    method CancelDeferred(c: Deferred)
      modifies this`balances, this`names, this`offers, this`openOffers
      ensures Model() == CloseAll(old(Model()), c.targets, Flush(c.height))
    {
      hide Close;
      var ids := c.targets;
      for k := 0 to |ids|
        invariant Model() == CloseAll(old(Model()), ids[..k], Flush(c.height))
      {
        assert ids[..k + 1][..k] == ids[..k];
        if ids[k] !in offers { continue; }
        var o := offers[ids[k]];
        if c.height >= V28_HEIGHT && o.claimTxid.Some? && ClaimHeld(o, c.height) { continue; }
        if o.status.Open? { CloseOffer(ids[k], Cancelled); }
      }
      assert ids[..|ids|] == ids;
    }

    method ApplyPendingCancels()
      modifies this`balances, this`names, this`offers, this`openOffers, this`pendingCancels
      ensures Model() == FlushCancels(old(Model()))
    {
      hide CloseAll;
      var cancels := pendingCancels;
      for k := 0 to |cancels|
        invariant Model() == FlushFrom(old(Model()), cancels[..k])
        invariant pendingCancels == cancels
      {
        assert cancels[..k + 1][..k] == cancels[..k];
        CancelDeferred(cancels[k]);
      }
      assert cancels[..|cancels|] == cancels;
      pendingCancels := [];
    }

    method Apply(ev: Event)
      modifies this
      ensures Model() == Step(old(Model()), ev)
    {
      hide FlushCancels, SweepExpired, ApplyPropose, ApplyAttest;
      if ev.height < ACTIVATION_HEIGHT { return; }
      if ev.height != block {
        ApplyPendingCancels();
        block := ev.height;
      }
      Sweep(ev.height);
      if ev.Propose? { OnPropose(ev); } else { OnAttest(ev); }
    }

    /** The event loop. */
    method Replay(applied: seq<Event>)
      modifies this
      ensures Model() == RunFrom(old(Model()), applied)
    {
      hide Step;
      for k := 0 to |applied|
        invariant Model() == RunFrom(old(Model()), applied[..k])
      {
        assert applied[..k + 1][..k] == applied[..k];
        Apply(applied[k]);
      }
      assert applied[..|applied|] == applied;
    }

    /** Flush the final block's cancels, then sweep at the height after the tip. */
    method SettleAt(tip: nat)
      modifies this
      ensures Model() == Seal(old(Model()), tip)
    {
      hide SweepExpired, FlushCancels;
      ApplyPendingCancels();
      block := tip + 1;
      Sweep(tip + 1);
    }
  }

  /** Drop the repetitions of transactions at or above V29; the first in consensus order is kept. */
  method DropRepeats(ordered: seq<Event>) returns (applied: seq<Event>)
    ensures applied == Ordering.Dedup(ordered)
  {
    var seen: set<Id> := {};
    applied := [];
    for k := 0 to |ordered|
      invariant seen == Ordering.Seen(ordered[..k])
      invariant applied == Ordering.Dedup(ordered[..k])
    {
      var e := ordered[k];
      assert ordered[..k + 1] == ordered[..k] + [e];
      assert (ordered[..k] + [e])[..k] == ordered[..k];
      Ordering.SeenPush(ordered[..k], e);
      if e.height >= V29_HEIGHT {
        if e.id in seen { continue; }
        seen := seen + {e.id};
      }
      applied := applied + [e];
    }
    assert ordered[..|ordered|] == ordered;
  }

  /** resolve(): replay a chain's events and settle the result as of `tip`. */
  method Resolve(events: seq<Event>, tip: nat) returns (c: Resolver)
    ensures fresh(c) && c.Model() == Ordering.Resolve(events, tip)
  {
    hide Seal, RunFrom, Ordering.Sort, Ordering.Dedup;
    var ordered := Ordering.Sort(events);
    var applied := DropRepeats(ordered);
    c := new Resolver();
    c.Replay(applied);
    c.SettleAt(tip);
  }
}
