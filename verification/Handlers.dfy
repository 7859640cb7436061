/** Chain events and what each record kind does to the ledger: the specification functions of
    packages/cairnx/src/resolve/{tokens,names,market,attest}.ts. Records are taken parsed. */
module Handlers {
  import opened Rules
  import opened Ledgers

  datatype WantSpec = ValueSpec(value: nat, payto: Option<Addr>)
                    | AmountSpec(ticker: string, amount: nat, payto: Option<Addr>)

  /** A parsed record. A name reveal or finalize carries the commit hash re-derived from its name, salt
      and proposer: the only use the handlers make of a salt. `Cosmetic` stands for the records that touch
      no modelled field (tmeta, nset, nprofile). */
  datatype Record =
    | Deploy(ticker: string, supply: nat, mintLimit: Option<nat>)
    | Mint(ticker: string, mintAmount: Option<nat>)
    | Transfer(ticker: string, to: Addr, amount: nat)
    | Ncommit(commit: Hash)
    | Name(name: string, revealed: Option<Hash>)
    | Nfinalize(name: string, opening: Hash)
    | Nxfer(name: string, to: Addr)
    | Nrenew(name: string)
    | OfferRec(give: Give, want: WantSpec, taker: Option<Addr>, min: Option<nat>, bid: Option<Id>)
    | BidRec
    | Ocancel(onlyTicker: Option<string>, onlyName: Option<string>)
    | FclaimRec(offer: Id)
    | Cosmetic

  datatype Event =
    | Propose(id: Id, proposer: Addr, rec: Option<Record>, expiresEpoch: nat,
              height: nat, pos: nat, paidTo: map<Addr, nat>)
    | Attest(id: Id, proposalId: Id, attester: Addr, score: nat, confidence: nat,
             height: nat, pos: nat, paidTo: map<Addr, nat>)

  // ----- tokens.ts -----

  function ApplyDeploy(L: Ledger, ev: Event, ticker: string, supply: nat, mintLimit: Option<nat>): Ledger
    requires ev.Propose?
  {
    if ticker in L.assets.tokens then L
    else if ev.height >= V11_HEIGHT && Pt(ev.paidTo, TREASURY_ADDR) < DEPLOY_FEE then L
    else
      var mode := if mintLimit.Some? then OpenMint(mintLimit.value) else Issuer(ev.proposer);
      L.(assets := L.assets.(tokens := L.assets.tokens[ticker := Token(supply, 0, mode)]),
         feesPaid := L.feesPaid + if ev.height >= V11_HEIGHT then DEPLOY_FEE else 0)
  }

  function Min(a: int, b: int): int { if a < b then a else b }

  /** What a mint record credits, or None when it is refused. */
  function MintCredit(tok: Token, who: Addr, amount: Option<nat>): Option<nat> {
    if tok.supply <= tok.minted then None
    else
      var remaining := tok.supply - tok.minted;
      match tok.mode
      case Issuer(deployer) =>
        if who != deployer || amount.None? then None else Some(Min(amount.value, remaining))
      case OpenMint(limit) =>
        var req := if amount.Some? then amount.value else limit;
        Some(Min(Min(req, limit), remaining))
  }

  function ApplyMint(L: Ledger, ev: Event, ticker: string, amount: Option<nat>): Ledger
    requires ev.Propose?
  {
    if ticker !in L.assets.tokens then L
    else
      var tok := L.assets.tokens[ticker];
      var credit := MintCredit(tok, ev.proposer, amount);
      if credit.None? then L
      else L.(assets := Assets(L.assets.tokens[ticker := tok.(minted := tok.minted + credit.value)],
                               Credit(L.assets.balances, ticker, ev.proposer, credit.value, 0)))
  }

  function ApplyTransfer(L: Ledger, ev: Event, ticker: string, to: Addr, amount: nat): Ledger
    requires ev.Propose?
  {
    if ticker !in L.assets.tokens || BalOf(L.assets.balances, ticker, ev.proposer).available < amount then L
    else Pay(L, Credit(Credit(L.assets.balances, ticker, ev.proposer, 0 - amount, 0), ticker, to, amount, 0))
  }

  // ----- names.ts -----

  /** Does the anchor (effHeight, pos, id) strictly precede the incumbent's? The lowest wins. */
  predicate EarlierAnchor(eff: nat, pos: nat, id: Id, incEff: nat, incPos: nat, incId: Id) {
    eff < incEff || (eff == incEff && (pos < incPos || (pos == incPos && id < incId)))
  }

  function ApplyNcommit(L: Ledger, ev: Event, commit: Hash): Ledger {
    if ev.height < V11_HEIGHT then L
    else if commit in L.registry.commits && L.registry.commits[commit] <= ev.height then L
    else L.(registry := L.registry.(commits := L.registry.commits[commit := ev.height]))
  }

  function RegWindow(height: nat): nat { if height >= V25_HEIGHT then REG_COMMIT_MAX_BLOCKS else COMMIT_MAX_BLOCKS }

  /** The anchor height of a reveal: its commit's height, or None when no commit opens it in the window. */
  function EffHeight(L: Ledger, height: nat, revealed: Option<Hash>): Option<nat> {
    if revealed.None? then Some(height)
    else if revealed.value !in L.registry.commits then None
    else
      var cH := L.registry.commits[revealed.value];
      if cH >= height || height - cH > RegWindow(height) then None else Some(cH)
  }

  /** The record a reveal contends with: an abandoned reservation counts as none. */
  function Current(L: Ledger, nm: string, height: nat): Option<NameRec> {
    if nm in L.registry.names && !Abandoned(L.registry.names[nm], height) then Some(L.registry.names[nm]) else None
  }

  /** May a reveal with this anchor take the name from its current record? */
  predicate Beats(eff: nat, ev: Event, cur: Option<NameRec>) {
    cur.None? || (!cur.value.viaFill
                  && EarlierAnchor(eff, ev.pos, ev.id, cur.value.effHeight, cur.value.pos, cur.value.id))
  }

  function FinalizeBy(eff: nat): nat { eff + REG_COMMIT_MAX_BLOCKS + REG_FINALIZE_GRACE_BLOCKS }

  /** The live reservations of `who` on other names. */
  function PendingOf(names: map<string, NameRec>, who: Addr, but: string, height: nat): set<string> {
    set nm | nm in names && names[nm].pending && names[nm].owner == who && nm != but
             && names[nm].finalizeBy.Some? && height <= names[nm].finalizeBy.value
  }

  function RecapturesOf(rs: map<string, Recapture>, who: Addr, but: string, height: nat): set<string> {
    set nm | nm in rs && rs[nm].owner == who && nm != but && height <= rs[nm].finalizeBy
  }

  /** V26+: reserve a lapsed name for a payment-free recapture contest. The lapsed record stays. */
  function ReserveRecapture(L: Ledger, ev: Event, nm: string, eff: nat): Ledger
    requires ev.Propose?
  {
    var taken := nm in L.registry.recaptures && ev.height <= L.registry.recaptures[nm].finalizeBy
                 && !EarlierAnchor(eff, ev.pos, ev.id, L.registry.recaptures[nm].effHeight, L.registry.recaptures[nm].pos, L.registry.recaptures[nm].id);
    if taken || |RecapturesOf(L.registry.recaptures, ev.proposer, nm, ev.height)| >= MAX_PENDING_REG then L
    else L.(registry := L.registry.(recaptures :=
               L.registry.recaptures[nm := Recapture(ev.proposer, eff, ev.pos, ev.id, ev.height, FinalizeBy(eff))]))
  }

  /** Below V26: the pay-now reclaim of a lapsed name at the decaying premium. */
  function Reclaim(L: Ledger, ev: Event, nm: string, eff: nat, cur: NameRec): Ledger
    requires ev.Propose? && Lapsed(cur, EpochOf(ev.height))
  {
    var ep := EpochOf(ev.height);
    var fee := ExpiredClaimFee(|nm|, ep - (PaidThrough(cur) + NAME_GRACE_EPOCHS), ev.height);
    if Pt(ev.paidTo, TREASURY_ADDR) < fee then L
    else
      var V := VoidOpenNameOffers(L, nm, ev.height);
      var n := NameRec(ev.proposer, eff, ev.pos, ev.id, ev.height, false, true, Some(ep + NAME_TERM_EPOCHS), false, None);
      V.(registry := PutName(V.registry, nm, n), feesPaid := L.feesPaid + fee)
  }

  /** Replace the record of `nm`, voiding the open offers of a displaced holder. */
  function TakeName(L: Ledger, nm: string, cur: Option<NameRec>, n: NameRec, height: nat): Ledger {
    var V := if cur.Some? then VoidOpenNameOffers(L, nm, height) else L;
    V.(registry := PutName(V.registry, nm, n))
  }

  /** V25+: a payment-free reservation that a later nfinalize pays for. */
  function Reserve(L: Ledger, ev: Event, nm: string, eff: nat, cur: Option<NameRec>): Ledger
    requires ev.Propose?
  {
    if !Beats(eff, ev, cur) || |PendingOf(L.registry.names, ev.proposer, nm, ev.height)| >= MAX_PENDING_REG then L
    else TakeName(L, nm, cur,
                  NameRec(ev.proposer, eff, ev.pos, ev.id, ev.height, false, false, None, true, Some(FinalizeBy(eff))),
                  ev.height)
  }

  /** Below V25: registration at once, for the registration fee. */
  function Register(L: Ledger, ev: Event, nm: string, eff: nat, cur: Option<NameRec>): Ledger
    requires ev.Propose?
  {
    var fee := NameRegFee(|nm|, ev.height);
    if Pt(ev.paidTo, TREASURY_ADDR) < fee || !Beats(eff, ev, cur) then L
    else
      var paid := if ev.height >= V15_HEIGHT then Some(EpochOf(ev.height) + NAME_TERM_EPOCHS) else None;
      TakeName(L, nm, cur,
               NameRec(ev.proposer, eff, ev.pos, ev.id, ev.height, false, false, paid, false, None), ev.height)
      .(feesPaid := L.feesPaid + fee)
  }

  predicate IsLapsedClaim(cur: Option<NameRec>, height: nat) {
    cur.Some? && !cur.value.pending && height >= V15_HEIGHT && Lapsed(cur.value, EpochOf(height))
  }

  function ApplyName(L: Ledger, ev: Event, nm: string, revealed: Option<Hash>): Ledger
    requires ev.Propose?
  {
    if ev.height < V11_HEIGHT then L
    else
      var effHeight := EffHeight(L, ev.height, revealed);
      if effHeight.None? then L
      else
        var eff := effHeight.value;
        var cur := Current(L, nm, ev.height);
        if IsLapsedClaim(cur, ev.height) then
          if ev.height >= V26_HEIGHT then (if revealed.None? then L else ReserveRecapture(L, ev, nm, eff))
          else Reclaim(L, ev, nm, eff, cur.value)
        else if ev.height >= V25_HEIGHT then (if revealed.None? then L else Reserve(L, ev, nm, eff, cur))
        else Register(L, ev, nm, eff, cur)
  }

  /** The checks both finalize lanes make on a reservation anchored at `eff`. */
  predicate Finalizable(L: Ledger, height: nat, opening: Hash, eff: nat, deadline: Option<nat>) {
    opening in L.registry.commits && L.registry.commits[opening] == eff
    && height > eff + REG_COMMIT_MAX_BLOCKS
    && !(deadline.Some? && height > deadline.value)
  }

  function FinalizeRegistration(L: Ledger, ev: Event, nm: string, opening: Hash, n: NameRec): Ledger {
    var fee := NameRegFee(|nm|, ev.height);
    if !Finalizable(L, ev.height, opening, n.effHeight, n.finalizeBy) || Pt(ev.paidTo, TREASURY_ADDR) < fee then L
    else
      var done := n.(pending := false, finalizeBy := None, paidThroughEpoch := Some(EpochOf(ev.height) + NAME_TERM_EPOCHS));
      L.(registry := PutName(L.registry, nm, done), feesPaid := L.feesPaid + fee)
  }

  function FinalizeRecapture(L: Ledger, ev: Event, nm: string, opening: Hash, r: Recapture): Ledger {
    var ep := EpochOf(ev.height);
    if !Finalizable(L, ev.height, opening, r.effHeight, Some(r.finalizeBy)) then L
    else if nm !in L.registry.names || L.registry.names[nm].pending || !Lapsed(L.registry.names[nm], ep) then
      L.(registry := L.registry.(recaptures := L.registry.recaptures - {nm}))
    else
      var fee := ExpiredClaimFee(|nm|, ep - (PaidThrough(L.registry.names[nm]) + NAME_GRACE_EPOCHS), ev.height);
      if Pt(ev.paidTo, TREASURY_ADDR) < fee then L
      else
        var V := VoidOpenNameOffers(L, nm, ev.height);
        var n := NameRec(r.owner, r.effHeight, r.pos, r.id, r.height, false, false, Some(ep + NAME_TERM_EPOCHS), false, None);
        V.(registry := PutName(V.registry, nm, n).(recaptures := L.registry.recaptures - {nm}), feesPaid := L.feesPaid + fee)
  }

  function ApplyNfinalize(L: Ledger, ev: Event, nm: string, opening: Hash): Ledger
    requires ev.Propose?
  {
    if ev.height < V25_HEIGHT then L
    else if nm in L.registry.names && L.registry.names[nm].pending && L.registry.names[nm].owner == ev.proposer then
      FinalizeRegistration(L, ev, nm, opening, L.registry.names[nm])
    else if ev.height >= V26_HEIGHT && nm in L.registry.recaptures && L.registry.recaptures[nm].owner == ev.proposer then
      FinalizeRecapture(L, ev, nm, opening, L.registry.recaptures[nm])
    else L
  }

  function ApplyNxfer(L: Ledger, ev: Event, nm: string, to: Addr): Ledger
    requires ev.Propose?
  {
    if nm !in L.registry.names || L.registry.names[nm].owner != ev.proposer || L.registry.names[nm].pending
       || (ev.height >= V15_HEIGHT && Lapsed(L.registry.names[nm], EpochOf(ev.height))) || L.registry.names[nm].locked then L
    else L.(registry := L.registry.(names := L.registry.names[nm := L.registry.names[nm].(owner := to)]))
  }

  function ApplyNrenew(L: Ledger, ev: Event, nm: string): Ledger
    requires ev.Propose?
  {
    var ep := EpochOf(ev.height);
    var fee := NameRegFee(|nm|, ev.height);
    if ev.height < V15_HEIGHT || nm !in L.registry.names || L.registry.names[nm].pending || Lapsed(L.registry.names[nm], ep)
       || (InGrace(L.registry.names[nm], ep) && ev.proposer != L.registry.names[nm].owner)
       || Pt(ev.paidTo, TREASURY_ADDR) < fee then L
    else
      var n := L.registry.names[nm];
      L.(registry := L.registry.(names := L.registry.names[nm := n.(paidThroughEpoch := Some(PaidThrough(n) + NAME_TERM_EPOCHS))]),
         feesPaid := L.feesPaid + fee)
  }

  // ----- market.ts -----

  function PaytoOf(want: WantSpec, seller: Addr): Addr { if want.payto.Some? then want.payto.value else seller }

  /** The offer rules that read only the record, its proposer, its height and its expiry. */
  predicate EnvelopeRefused(rec: Record, who: Addr, height: nat, expiresEpoch: nat)
    requires rec.OfferRec?
  {
    ((rec.want.AmountSpec? || rec.min.Some? || rec.bid.Some?) && height < V12_HEIGHT)
    || (V13_HEIGHT <= height < V17_HEIGHT && !rec.want.AmountSpec? && rec.taker.None?)
    || PaytoOf(rec.want, who) == TREASURY_ADDR
    || expiresEpoch > MAX_SAFE_INTEGER
    || EpochOf(height) > expiresEpoch
    || (V21_HEIGHT <= height < V22_HEIGHT && expiresEpoch - EpochOf(height) > MAX_OFFER_EPOCHS)
    || (rec.give.NameGive? && height < V11_HEIGHT)
  }

  function SaleEmbargo(height: nat): nat { if height >= V27_HEIGHT then REG_COMMIT_MAX_BLOCKS else COMMIT_MAX_BLOCKS }

  /** May `who` list this name at `height` until `expiresEpoch`? */
  predicate Listable(n: NameRec, who: Addr, height: nat, expiresEpoch: nat) {
    n.owner == who && !n.pending && !n.locked
    && !(height >= V13_HEIGHT && !n.viaFill && height - n.effHeight <= SaleEmbargo(height))
    && !(height >= V15_HEIGHT && PaidThrough(n) < expiresEpoch)
  }

  function NewOffer(ev: Event, rec: Record): Offer
    requires ev.Propose? && rec.OfferRec?
  {
    var payto := PaytoOf(rec.want, ev.proposer);
    var want := match rec.want
                case ValueSpec(v, _) => CsdWant(v, payto)
                case AmountSpec(t, a, _) => TokenWant(t, a, payto);
    Offer(ev.id, ev.proposer, rec.give, want, rec.taker, rec.min, rec.bid, Open, ev.expiresEpoch, ev.height,
          FeeBpsAt(ev.height), 0, 0, [], None, None, None)
  }

  function AddOffer(m: Market, o: Offer): Market {
    m.(offers := m.offers[o.id := o],
       offerIds := if o.id in m.offers then m.offerIds else m.offerIds + [o.id],
       openOffers := if o.id in m.openOffers then m.openOffers else m.openOffers + [o.id])
  }

  function ApplyOffer(L: Ledger, ev: Event, rec: Record): Ledger
    requires ev.Propose? && rec.OfferRec?
  {
    var who := ev.proposer;
    if EnvelopeRefused(rec, who, ev.height, ev.expiresEpoch) then L
    else
      match rec.give
      case NameGive(nm) =>
        if nm !in L.registry.names || !Listable(L.registry.names[nm], who, ev.height, ev.expiresEpoch) then L
        else L.(registry := SetLocked(L.registry, nm, true), market := AddOffer(L.market, NewOffer(ev, rec)))
      case TokenGive(t, amt) =>
        if t !in L.assets.tokens || BalOf(L.assets.balances, t, who).available < amt then L
        else
          Pay(L, Credit(L.assets.balances, t, who, 0 - amt, amt))
          .(market := AddOffer(L.market.(offerLock := L.market.offerLock[ev.id := amt]), NewOffer(ev, rec)))
  }

  function ApplyBid(L: Ledger, ev: Event): Ledger
    requires ev.Propose?
  {
    if ev.height < V12_HEIGHT || ev.expiresEpoch > MAX_SAFE_INTEGER || EpochOf(ev.height) > ev.expiresEpoch
       || (V21_HEIGHT <= ev.height < V22_HEIGHT && ev.expiresEpoch - EpochOf(ev.height) > MAX_OFFER_EPOCHS) then L
    else L.(bidBook := BidBook(L.bidBook.bids[ev.id := Bid(ev.proposer, BidOpen, ev.expiresEpoch, ev.height)],
                               L.bidBook.openBids + {ev.id}))
  }

  /** A V28+ taker-bound offer is a firm quote no cancel touches. */
  predicate Firm(o: Offer) { o.taker.Some? && o.height >= V28_HEIGHT }

  predicate OcancelTarget(o: Offer, who: Addr, onlyTicker: Option<string>, onlyName: Option<string>) {
    o.status.Open? && o.seller == who && !Firm(o)
    && (onlyTicker.Some? ==> o.give.TokenGive? && o.give.ticker == onlyTicker.value)
    && (onlyName.Some? ==> o.give == NameGive(onlyName.value))
  }

  function OcancelTargets(L: Ledger, ids: seq<Id>, who: Addr, onlyTicker: Option<string>, onlyName: Option<string>): seq<Id> {
    if ids == [] then []
    else
      var id := ids[|ids| - 1];
      var rest := OcancelTargets(L, ids[..|ids| - 1], who, onlyTicker, onlyName);
      if id in L.market.offers && OcancelTarget(L.market.offers[id], who, onlyTicker, onlyName) then rest + [id] else rest
  }

  function ApplyOcancel(L: Ledger, ev: Event, onlyTicker: Option<string>, onlyName: Option<string>): Ledger
    requires ev.Propose?
  {
    if ev.height < V12_HEIGHT then L
    else
      var targets := OcancelTargets(L, L.market.offerIds, ev.proposer, onlyTicker, onlyName);
      if ev.height >= V14_HEIGHT then L.(pendingCancels := L.pendingCancels + [Deferred(targets, ev.height)])
      else CloseAll(L, targets, Immediate)
  }

  /** Does the ladder grant `who` an fclaim on offer `oid` through epoch `E`? */
  predicate Grants(L: Ledger, oid: Id, who: Addr, E: nat, height: nat) {
    E <= MAX_SAFE_INTEGER && oid in L.market.offers
    && var o := L.market.offers[oid];
    o.status.Open? && o.taker.None? && o.want.CsdWant?
    && E <= EffExpiry(o.expiresEpoch, o.height, height)
    && EpochOf(height) <= E <= EpochOf(height) + FCLAIM_MAX_EPOCH_AHEAD
    && !ClaimHeld(o, height)
    && !(o.hold.Some? && o.hold.value.holder == who && height < HoldEnd(o) + CLAIM_COOLDOWN_BLOCKS)
    && LiveHoldCount(L, who, height) < MAX_ACTIVE_CLAIMS
  }

  function PutOffer(L: Ledger, oid: Id, o: Offer): Ledger {
    L.(market := L.market.(offers := L.market.offers[oid := o]))
  }

  function ApplyFclaim(L: Ledger, ev: Event, oid: Id): Ledger
    requires ev.Propose?
  {
    if ev.height < V28_HEIGHT then L
    else
      var E := ev.expiresEpoch;
      var granted := Grants(L, oid, ev.proposer, E, ev.height);
      var R := L.(fclaims := L.fclaims[ev.id := Fclaim(oid, ev.proposer, E, ev.height, granted)]);
      if granted then
        PutOffer(R, oid, L.market.offers[oid].(hold := Some(Hold(ev.proposer, (E + 1) * EPOCH_LEN)), claimTxid := Some(ev.id)))
      else R
  }

  // ----- attest.ts -----

  /** Is a CSD fill of an untaken offer by `who`, attesting `target`, refused at `height`? */
  predicate OpenFillRefused(o: Offer, height: nat, who: Addr, target: Id) {
    height >= V13_HEIGHT && o.taker.None?
    && (height < V17_HEIGHT
        || (height >= V28_HEIGHT && o.claimTxid.Some? && target == o.id)
        || !HeldBy(o, who, height))
  }

  function Deliver(n: NameRec, who: Addr, ev: Event): NameRec {
    var sold := n.(owner := who, locked := false);
    if ev.height >= V13_HEIGHT then
      sold.(effHeight := ev.height, pos := ev.pos, id := ev.id, height := ev.height, viaFill := true)
    else sold
  }

  /** The offer an attest acts on: the one it names, or the offer a current granted fclaim routes a fill to. */
  function Routed(L: Ledger, ev: Event): Option<Id>
    requires ev.Attest?
  {
    if ev.proposalId in L.market.offers then Some(ev.proposalId)
    else if ev.height >= V28_HEIGHT && ev.score == SCORE_FILL && ev.proposalId in L.fclaims
         && L.fclaims[ev.proposalId].granted && L.fclaims[ev.proposalId].offer in L.market.offers
         && L.market.offers[L.fclaims[ev.proposalId].offer].claimTxid == Some(ev.proposalId)
    then Some(L.fclaims[ev.proposalId].offer)
    else None
  }

  function ApplyBidCancel(L: Ledger, ev: Event): Ledger
    requires ev.Attest?
  {
    if ev.proposalId in L.bidBook.bids && ev.score == SCORE_CANCEL && ev.attester == L.bidBook.bids[ev.proposalId].bidder
       && L.bidBook.bids[ev.proposalId].status.BidOpen? then
      L.(bidBook := CloseBid(L.bidBook, ev.proposalId, BidCancelled))
    else L
  }

  function ApplyCancel(L: Ledger, ev: Event, oid: Id): Ledger
    requires ev.Attest? && oid in L.market.offers
  {
    var o := L.market.offers[oid];
    if ev.attester != o.seller || !o.status.Open? || Firm(o) then L
    else if ev.height >= V14_HEIGHT then L.(pendingCancels := L.pendingCancels + [Deferred([oid], ev.height)])
    else CloseOne(L, oid, Immediate)
  }

  /** Mark an offer filled, by `entry`. */
  function FinishMarket(m: Market, oid: Id, entry: FillEntry): Market
    requires oid in m.offers
  {
    var n := SetStatus(m, oid, Filled);
    n.(offers := n.offers[oid := n.offers[oid].(fill := Some(entry))])
  }

  /** Complete a fill: the offer is filled and a bid it answered is done. */
  function FinishFill(L: Ledger, oid: Id, entry: FillEntry): Ledger
    requires oid in L.market.offers
  {
    L.(market := FinishMarket(L.market, oid, entry),
       bidBook := MarkBidDone(L.bidBook, L.market.offers[oid].bid, entry.buyer))
  }

  /** Can the give side of an offer be delivered: the name is there, or the lock is. */
  predicate GiveReady(L: Ledger, o: Offer) {
    match o.give
    case NameGive(nm) => nm in L.registry.names
    case TokenGive(_, _) => o.id in L.market.offerLock
  }

  /** Hand the give of a whole fill to the buyer. */
  function DeliverGive(L: Ledger, o: Offer, who: Addr, ev: Event): Ledger
    requires GiveReady(L, o)
  {
    match o.give
    case NameGive(nm) => L.(registry := L.registry.(names := L.registry.names[nm := Deliver(L.registry.names[nm], who, ev)]))
    case TokenGive(_, _) => ReleaseGiveLock(L, o, who, L.market.offerLock[o.id])
  }

  function TokenFillRefused(L: Ledger, ev: Event, o: Offer): bool
    requires ev.Attest? && o.want.TokenWant?
  {
    !o.status.Open? || (o.taker.Some? && ev.attester != o.taker.value)
    || ev.confidence != CONF_TOKEN_FILL || o.want.ticker !in L.assets.tokens
    || BalOf(L.assets.balances, o.want.ticker, ev.attester).available < o.want.amount + FeeAt(o.want.amount, o.feeBps)
    || !GiveReady(L, o)
  }

  /** The want side of a token-priced fill: debit the buyer, credit the payee and the treasury. */
  function SettleTokens(bs: Balances, w: Want, who: Addr, fee: nat): Balances
    requires w.TokenWant?
  {
    var b := Credit(Credit(bs, w.ticker, who, -(w.amount + fee), 0), w.ticker, w.payto, w.amount, 0);
    if fee > 0 then Credit(b, w.ticker, TREASURY_ADDR, fee, 0) else b
  }

  function ApplyTokenFill(L: Ledger, ev: Event, oid: Id): Ledger
    requires ev.Attest? && oid in L.market.offers && L.market.offers[oid].want.TokenWant?
  {
    var o := L.market.offers[oid];
    if TokenFillRefused(L, ev, o) then L
    else
      var fee := FeeAt(o.want.amount, o.feeBps);
      var P := Pay(L, SettleTokens(L.assets.balances, o.want, ev.attester, fee));
      FinishFill(DeliverGive(P, o, ev.attester, ev), oid,
                 FillEntry(ev.attester, ev.id, ev.height, o.want.amount, fee, 0))
  }

  /** What both CSD fill lanes refuse before they read the payment. */
  predicate FillBarred(o: Offer, ev: Event)
    requires ev.Attest?
  {
    !o.status.Open? || (o.taker.Some? && ev.attester != o.taker.value)
    || OpenFillRefused(o, ev.height, ev.attester, ev.proposalId)
  }

  /** Is this offer sold in portions? */
  predicate IsPartial(o: Offer) { o.min.Some? && o.give.TokenGive? && o.want.CsdWant? }

  /** The price is positive and not overpaid. Parsed records and the handlers keep it so on every
      reachable state; without it the source's bigint division would throw. */
  predicate PartialSane(o: Offer) requires IsPartial(o) { o.want.value > 0 && o.paid <= o.want.value }

  /** What a partial fill paying `X` settles: the clamped payment, its fee and what it delivers. */
  datatype Portion = Portion(x: nat, fee: nat, newDelivered: nat)

  /** The cumulative pro-rata floor. */
  function ProRata(give: nat, paid: nat, want: nat): nat
    requires want > 0
  {
    (give * paid) / want
  }

  function PortionOf(o: Offer, X: nat): Portion
    requires IsPartial(o) && PartialSane(o)
  {
    var remaining := o.want.value - o.paid;
    var x := if X < remaining then X else remaining;
    Portion(x, FeeAt(x, o.feeBps), ProRata(o.give.amount, o.paid + x, o.want.value))
  }

  predicate PartialRefused(L: Ledger, ev: Event, o: Offer)
    requires ev.Attest? && IsPartial(o) && PartialSane(o)
  {
    var X := Pt(ev.paidTo, o.want.payto);
    var p := PortionOf(o, X);
    X < Min(o.want.value - o.paid, o.min.value) || Pt(ev.paidTo, TREASURY_ADDR) < p.fee
    || p.newDelivered <= o.delivered || o.id !in L.market.offerLock
  }

  /** What a partial fill leaves of the market: the progressed offer and its smaller lock, or the filled offer. */
  function SettlePortion(m: Market, oid: Id, progressed: Offer, lock: int, entry: FillEntry): Market
    requires progressed.want.CsdWant?
  {
    var n := m.(offers := m.offers[oid := progressed]);
    if progressed.paid == progressed.want.value then FinishMarket(n.(offerLock := n.offerLock - {progressed.id}), oid, entry)
    else n.(offerLock := n.offerLock[progressed.id := lock])
  }

  function PortionEntry(o: Offer, ev: Event): FillEntry
    requires ev.Attest? && IsPartial(o) && PartialSane(o)
    requires o.delivered <= PortionOf(o, Pt(ev.paidTo, o.want.payto)).newDelivered
  {
    var p := PortionOf(o, Pt(ev.paidTo, o.want.payto));
    FillEntry(ev.attester, ev.id, ev.height, p.x, p.fee, p.newDelivered - o.delivered)
  }

  function Progressed(o: Offer, entry: FillEntry): Offer {
    o.(paid := o.paid + entry.paid, delivered := o.delivered + entry.got, fills := o.fills + [entry])
  }

  function ApplyPartialFill(L: Ledger, ev: Event, oid: Id): Ledger
    requires ev.Attest? && oid in L.market.offers
    requires IsPartial(L.market.offers[oid])
  {
    var o := L.market.offers[oid];
    if !PartialSane(o) || FillBarred(o, ev) || PartialRefused(L, ev, o) then L
    else
      var entry := PortionEntry(o, ev);
      var o' := Progressed(o, entry);
      var bs := Credit(Credit(L.assets.balances, o.give.ticker, o.seller, 0, 0 - entry.got), o.give.ticker, ev.attester, entry.got, 0);
      Pay(L, bs).(
        market := SettlePortion(L.market, oid, o', L.market.offerLock[o.id] - entry.got, entry),
        bidBook := if o'.paid == o.want.value then MarkBidDone(L.bidBook, o.bid, ev.attester) else L.bidBook,
        feesPaid := L.feesPaid + entry.fee)
  }

  predicate RestingLiquidity(o: Offer) {
    (o.taker.Some? && o.bid.Some?) || (o.height >= V17_HEIGHT && o.taker.None?)
  }

  function RebateOf(o: Offer): nat
    requires o.want.CsdWant?
  {
    if o.height >= V16_HEIGHT && RestingLiquidity(o) then MakerRebate(o.want.value) else 0
  }

  function AddNeed(need: map<Addr, nat>, a: Addr, v: nat): map<Addr, nat> { need[a := Pt(need, a) + v] }

  /** The per-address sums a whole CSD fill must pay. */
  function Needs(o: Offer): map<Addr, nat>
    requires o.want.CsdWant?
  {
    var need := AddNeed(AddNeed(map[], o.want.payto, o.want.value), TREASURY_ADDR, FeeAt(o.want.value, o.feeBps));
    if RebateOf(o) > 0 then AddNeed(need, o.seller, RebateOf(o)) else need
  }

  predicate Dominates(paidTo: map<Addr, nat>, need: map<Addr, nat>) {
    forall a :: a in need ==> Pt(paidTo, a) >= need[a]
  }

  function ApplyFill(L: Ledger, ev: Event, oid: Id): Ledger
    requires ev.Attest? && oid in L.market.offers && L.market.offers[oid].want.CsdWant?
  {
    var o := L.market.offers[oid];
    if FillBarred(o, ev) || !Dominates(ev.paidTo, Needs(o)) || !GiveReady(L, o) then L
    else
      var fee := FeeAt(o.want.value, o.feeBps);
      FinishFill(DeliverGive(L, o, ev.attester, ev).(feesPaid := L.feesPaid + fee), oid,
                 FillEntry(ev.attester, ev.id, ev.height, Pt(ev.paidTo, o.want.payto), fee, 0))
  }

  /** Does a legacy claim at `height` get the offer? */
  predicate LegacyGrants(L: Ledger, o: Offer, who: Addr, height: nat) {
    height < V28_HEIGHT && o.status.Open? && o.taker.None? && o.want.CsdWant? && !ClaimHeld(o, height)
    && !(o.hold.Some? && o.hold.value.holder == who && height < HoldEnd(o) + CLAIM_COOLDOWN_BLOCKS)
    && LiveHoldCount(L, who, height) < MAX_ACTIVE_CLAIMS
  }

  function ApplyLegacyClaim(L: Ledger, ev: Event, oid: Id): Ledger
    requires ev.Attest? && oid in L.market.offers
  {
    if LegacyGrants(L, L.market.offers[oid], ev.attester, ev.height) then
      PutOffer(L, oid, L.market.offers[oid].(hold := Some(Hold(ev.attester, ev.height + ClaimWindowAt(ev.height)))))
    else L
  }

  function ApplyAttest(L: Ledger, ev: Event): Ledger
    requires ev.Attest?
  {
    var target := Routed(L, ev);
    if target.None? then
      if ev.height >= V28_HEIGHT && ev.score == SCORE_FILL && ev.proposalId in L.fclaims then L
      else ApplyBidCancel(L, ev)
    else
      var oid := target.value;
      var o := L.market.offers[oid];
      if ev.score == SCORE_CANCEL then ApplyCancel(L, ev, oid)
      else if ev.score == SCORE_FILL && o.want.TokenWant? then ApplyTokenFill(L, ev, oid)
      else if ev.score == SCORE_FILL && IsPartial(o) then ApplyPartialFill(L, ev, oid)
      else if ev.score == SCORE_FILL then ApplyFill(L, ev, oid)
      else if ev.height >= V17_HEIGHT && ev.score == SCORE_CLAIM then ApplyLegacyClaim(L, ev, oid)
      else L
  }

  function ApplyPropose(L: Ledger, ev: Event): Ledger
    requires ev.Propose?
  {
    match ev.rec
    case None => L
    case Some(Deploy(t, supply, limit)) => ApplyDeploy(L, ev, t, supply, limit)
    case Some(Mint(t, amount)) => ApplyMint(L, ev, t, amount)
    case Some(Transfer(t, to, amount)) => ApplyTransfer(L, ev, t, to, amount)
    case Some(Ncommit(commit)) => ApplyNcommit(L, ev, commit)
    case Some(Name(nm, revealed)) => ApplyName(L, ev, nm, revealed)
    case Some(Nfinalize(nm, opening)) => ApplyNfinalize(L, ev, nm, opening)
    case Some(Nxfer(nm, to)) => ApplyNxfer(L, ev, nm, to)
    case Some(Nrenew(nm)) => ApplyNrenew(L, ev, nm)
    case Some(OfferRec(_, _, _, _, _)) => ApplyOffer(L, ev, ev.rec.value)
    case Some(BidRec) => ApplyBid(L, ev)
    case Some(Ocancel(t, nm)) => ApplyOcancel(L, ev, t, nm)
    case Some(FclaimRec(offer)) => ApplyFclaim(L, ev, offer)
    case Some(Cosmetic) => L
  }
}
