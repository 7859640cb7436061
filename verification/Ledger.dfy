/** The replay state one resolve() call threads through the record handlers, and the helpers that
    change it (packages/cairnx/src/resolve/context.ts). A `Ledger` is the value of every map and index
    of createContext; the `Resolver` class holds the same fields and updates them in place. */
module Ledgers {
  import opened Rules

  datatype Bal = Bal(available: int, locked: int)
  type Balances = map<string, map<Addr, Bal>>

  datatype MintMode = Issuer(deployer: Addr) | OpenMint(limit: nat)
  datatype Token = Token(supply: nat, minted: nat, mode: MintMode)

  datatype NameRec = NameRec(
    owner: Addr, effHeight: nat, pos: nat, id: Id, height: nat,
    locked: bool, viaFill: bool, paidThroughEpoch: Option<nat>, pending: bool, finalizeBy: Option<nat>)

  datatype Recapture = Recapture(owner: Addr, effHeight: nat, pos: nat, id: Id, height: nat, finalizeBy: nat)

  datatype Give = TokenGive(ticker: string, amount: nat) | NameGive(name: string)
  datatype Want = CsdWant(value: nat, payto: Addr) | TokenWant(ticker: string, amount: nat, payto: Addr)
  datatype Status = Open | Filled | Cancelled | Expired
  datatype FillEntry = FillEntry(buyer: Addr, txid: Id, height: nat, paid: nat, fee: nat, got: nat)
  /** claimedBy and claimUntilHeight, which the handlers always set together. */
  datatype Hold = Hold(holder: Addr, until: nat)

  datatype Offer = Offer(
    id: Id, seller: Addr, give: Give, want: Want, taker: Option<Addr>, min: Option<nat>, bid: Option<Id>,
    status: Status, expiresEpoch: nat, height: nat, feeBps: nat,
    paid: nat, delivered: nat, fills: seq<FillEntry>, fill: Option<FillEntry>,
    hold: Option<Hold>, claimTxid: Option<Id>)

  datatype BidStatus = BidOpen | BidCancelled | BidExpired | BidDone
  datatype Bid = Bid(bidder: Addr, status: BidStatus, expiresEpoch: nat, height: nat)

  datatype Fclaim = Fclaim(offer: Id, proposer: Addr, expiresEpoch: nat, height: nat, granted: bool)

  /** A cancel whose effect waits for the block boundary: the offers it named and its own height. */
  datatype Deferred = Deferred(targets: seq<Id>, height: nat)

  datatype Assets = Assets(tokens: map<string, Token>, balances: Balances)

  datatype Registry = Registry(
    names: map<string, NameRec>, pendingNames: set<string>,
    commits: map<Hash, nat>, recaptures: map<string, Recapture>)

  /** `offerIds` are the keys of `offers` in insertion order, as a JS Map iterates them; `openOffers` is the
      private index of the open ones, in the same order. */
  datatype Market = Market(
    offerIds: seq<Id>, offers: map<Id, Offer>, offerLock: map<Id, int>, openOffers: seq<Id>)

  datatype BidBook = BidBook(bids: map<Id, Bid>, openBids: set<Id>)

  /** `block` is the height of the block being applied, -1 before the first. */
  datatype Ledger = Ledger(
    assets: Assets, registry: Registry, market: Market, bidBook: BidBook,
    fclaims: map<Id, Fclaim>, pendingCancels: seq<Deferred>, feesPaid: nat, block: int)

  const EMPTY: Ledger := Ledger(
    Assets(map[], map[]), Registry(map[], {}, map[], map[]), Market([], map[], map[], []), BidBook(map[], {}),
    map[], [], 0, -1)

  /** What the resolver reads for an address out of a transaction's per-address output sums. */
  function Pt(paidTo: map<Addr, nat>, a: Addr): nat { if a in paidTo then paidTo[a] else 0 }

  function BalOf(bs: Balances, t: string, a: Addr): Bal {
    if t in bs && a in bs[t] then bs[t][a] else Bal(0, 0)
  }

  /** Add to the two fields of one balance; the row is created at zero when it is missing. */
  function Credit(bs: Balances, t: string, a: Addr, available: int, locked: int): Balances {
    var b := BalOf(bs, t, a);
    var row := if t in bs then bs[t] else map[];
    bs[t := row[a := Bal(b.available + available, b.locked + locked)]]
  }

  function EffExpiry(expiresEpoch: nat, anchor: nat, height: nat): nat {
    if anchor >= V22_HEIGHT then expiresEpoch
    else if height >= V21_HEIGHT then
      var cap := EpochOf(anchor) + MAX_OFFER_EPOCHS;
      if expiresEpoch < cap then expiresEpoch else cap
    else expiresEpoch
  }

  function HoldEnd(o: Offer): nat requires o.hold.Some? {
    o.hold.value.until + ClaimGraceOf(o.hold.value.until, o.claimTxid)
  }

  /** Is the offer exclusively held (window and grace) at `height`? */
  predicate ClaimHeld(o: Offer, height: nat) { o.hold.Some? && height < HoldEnd(o) }

  predicate HeldBy(o: Offer, who: Addr, height: nat) { ClaimHeld(o, height) && o.hold.value.holder == who }

  /** An fclaim hold live at `height` freezes every cancel and void from V28 on. */
  predicate Frozen(o: Offer, height: nat) {
    height >= V28_HEIGHT && o.claimTxid.Some? && ClaimHeld(o, height)
  }

  function PaidThrough(n: NameRec): nat {
    if n.paidThroughEpoch.Some? then n.paidThroughEpoch.value else V15_EPOCH + NAME_TERM_EPOCHS
  }

  predicate Lapsed(n: NameRec, epoch: nat) { epoch > PaidThrough(n) + NAME_GRACE_EPOCHS }

  predicate InGrace(n: NameRec, epoch: nat) { epoch > PaidThrough(n) && !Lapsed(n, epoch) }

  /** `s` without any occurrence of `x`. */
  function Without(s: seq<Id>, x: Id): (r: seq<Id>)
    ensures |r| <= |s|
  {
    if s == [] then []
    else if s[|s| - 1] == x then Without(s[..|s| - 1], x)
    else Without(s[..|s| - 1], x) + [s[|s| - 1]]
  }

  /** Set an offer's status and keep the open-offer index in step. */
  function SetStatus(m: Market, id: Id, status: Status): Market
    requires id in m.offers
  {
    m.(offers := m.offers[id := m.offers[id].(status := status)],
       openOffers := if status.Open? then (if id in m.openOffers then m.openOffers else m.openOffers + [id])
                     else Without(m.openOffers, id))
  }

  function LockOf(m: Market, id: Id): int { if id in m.offerLock then m.offerLock[id] else 0 }

  function SetLocked(r: Registry, nm: string, locked: bool): Registry {
    if nm in r.names then r.(names := r.names[nm := r.names[nm].(locked := locked)]) else r
  }

  function Pay(L: Ledger, bs: Balances): Ledger { L.(assets := L.assets.(balances := bs)) }

  /** Release what an offer holds: its locked tokens back to the seller, or its name's lock. The lock entry stays. */
  function ReleaseGive(L: Ledger, o: Offer): Ledger {
    match o.give
    case NameGive(nm) => L.(registry := SetLocked(L.registry, nm, false))
    case TokenGive(t, _) =>
      var lock := LockOf(L.market, o.id);
      Pay(L, Credit(L.assets.balances, t, o.seller, lock, -lock))
  }

  function Close(L: Ledger, id: Id, status: Status): Ledger
    requires id in L.market.offers
  {
    var R := ReleaseGive(L, L.market.offers[id]);
    R.(market := SetStatus(R.market, id, status))
  }

  /** Why a pass over offers closes one: the expiry sweep, a deferred cancel, a name void, a pre-V14 cancel. */
  datatype Reason = Sweep(height: nat) | Flush(height: nat) | Void(name: string, height: nat) | Immediate

  predicate Due(why: Reason, o: Offer) {
    match why
    case Sweep(h) => EpochOf(h) > EffExpiry(o.expiresEpoch, o.height, h)
    case Flush(h) => !Frozen(o, h)
    case Void(nm, h) => o.give == NameGive(nm) && !Frozen(o, h)
    case Immediate => true
  }

  function Outcome(why: Reason): Status { if why.Sweep? then Expired else Cancelled }

  predicate IsOpen(L: Ledger, id: Id) { id in L.market.offers && L.market.offers[id].status.Open? }

  predicate Closes(L: Ledger, id: Id, why: Reason) { IsOpen(L, id) && Due(why, L.market.offers[id]) }

  function CloseOne(L: Ledger, id: Id, why: Reason): Ledger {
    if Closes(L, id, why) then Close(L, id, Outcome(why)) else L
  }

  /** Visit `ids` in order and close each open offer that is due. */
  function CloseAll(L: Ledger, ids: seq<Id>, why: Reason): Ledger {
    if ids == [] then L else CloseOne(CloseAll(L, ids[..|ids| - 1], why), ids[|ids| - 1], why)
  }

  /** The indexed sweep's visit of one id: a stale index entry is dropped, an open offer past its expiry is closed. */
  function SweepOne(L: Ledger, id: Id, height: nat): Ledger {
    if !IsOpen(L, id) then L.(market := L.market.(openOffers := Without(L.market.openOffers, id))) else CloseOne(L, id, Sweep(height))
  }

  function SweepOffers(L: Ledger, ids: seq<Id>, height: nat): Ledger {
    if ids == [] then L else SweepOne(SweepOffers(L, ids[..|ids| - 1], height), ids[|ids| - 1], height)
  }

  predicate BidDue(b: Bid, height: nat) {
    b.status.BidOpen? && EpochOf(height) > EffExpiry(b.expiresEpoch, b.height, height)
  }

  function SweepBids(B: BidBook, height: nat): BidBook {
    BidBook(
      map id | id in B.bids ::
        if id in B.openBids && BidDue(B.bids[id], height) then B.bids[id].(status := BidExpired) else B.bids[id],
      set id | id in B.openBids && id in B.bids && B.bids[id].status.BidOpen? && !BidDue(B.bids[id], height))
  }

  predicate Abandoned(n: NameRec, height: nat) {
    n.pending && n.finalizeBy.Some? && height > n.finalizeBy.value
  }

  function LiveRecaptures(rs: map<string, Recapture>, height: nat): map<string, Recapture> {
    map nm | nm in rs && height <= rs[nm].finalizeBy :: rs[nm]
  }

  /** Drop abandoned reservations, walking only the pending index, and expired recaptures. */
  function SweepNames(r: Registry, height: nat): Registry {
    Registry(
      map nm | nm in r.names && !(nm in r.pendingNames && Abandoned(r.names[nm], height)) :: r.names[nm],
      (set nm | nm in r.pendingNames && nm in r.names && r.names[nm].pending && !Abandoned(r.names[nm], height)),
      r.commits,
      LiveRecaptures(r.recaptures, height))
  }

  /** Lazily settle everything whose window ended before `height`, walking only the private indexes. */
  function SweepExpired(L: Ledger, height: nat): Ledger {
    var S := SweepOffers(L, L.market.openOffers, height);
    S.(bidBook := SweepBids(S.bidBook, height), registry := SweepNames(S.registry, height))
  }

  /** The same settlement by a scan of every row, as the Python reference does it. */
  function FullScan(L: Ledger, height: nat): Ledger {
    var S := CloseAll(L, L.market.offerIds, Sweep(height));
    var bids, r := S.bidBook.bids, S.registry;
    S.(bidBook := BidBook(
         map id | id in bids :: if BidDue(bids[id], height) then bids[id].(status := BidExpired) else bids[id],
         set id | id in bids && bids[id].status.BidOpen? && !BidDue(bids[id], height)),
       registry := Registry(
         map nm | nm in r.names && !Abandoned(r.names[nm], height) :: r.names[nm],
         (set nm | nm in r.names && r.names[nm].pending && !Abandoned(r.names[nm], height)),
         r.commits,
         LiveRecaptures(r.recaptures, height)))
  }

  function FlushFrom(L: Ledger, cancels: seq<Deferred>): Ledger {
    if cancels == [] then L
    else
      var c := cancels[|cancels| - 1];
      CloseAll(FlushFrom(L, cancels[..|cancels| - 1]), c.targets, Flush(c.height))
  }

  /** Apply the deferred cancels of the block that just ended. */
  function FlushCancels(L: Ledger): Ledger { FlushFrom(L, L.pendingCancels).(pendingCancels := []) }

  function PutName(r: Registry, nm: string, n: NameRec): Registry {
    r.(names := r.names[nm := n],
       pendingNames := if n.pending then r.pendingNames + {nm} else r.pendingNames - {nm})
  }

  /** Move a bid out of the open state. */
  function CloseBid(B: BidBook, id: Id, status: BidStatus): BidBook
    requires id in B.bids
  {
    BidBook(B.bids[id := B.bids[id].(status := status)], B.openBids - {id})
  }

  /** An offer responding to a bid, filled by the bidder, settles the bid. */
  function MarkBidDone(B: BidBook, bid: Option<Id>, buyer: Addr): BidBook {
    if bid.Some? && bid.value in B.bids && B.bids[bid.value].status.BidOpen? && B.bids[bid.value].bidder == buyer
    then CloseBid(B, bid.value, BidDone) else B
  }

  /** Cancel every open offer that lists `nm`, except one frozen by a live fclaim hold. */
  function VoidOpenNameOffers(L: Ledger, nm: string, height: nat): Ledger {
    CloseAll(L, L.market.offerIds, Void(nm, height))
  }

  /** The offers counted against an address's concurrent-hold cap at `height`. */
  predicate Counts(o: Offer, who: Addr, height: nat) {
    HeldBy(o, who, height) && (height < V29_HEIGHT || o.status.Open?)
  }

  function LiveHolds(offers: map<Id, Offer>, who: Addr, height: nat): set<Id> {
    set id | id in offers && Counts(offers[id], who, height)
  }

  function LiveHoldCount(L: Ledger, who: Addr, height: nat): nat { |LiveHolds(L.market.offers, who, height)| }

  /** Release an offer's whole locked amount to the buyer and consume the lock. */
  function ReleaseGiveLock(L: Ledger, o: Offer, who: Addr, amount: int): Ledger
    requires o.give.TokenGive?
  {
    Pay(L, Credit(Credit(L.assets.balances, o.give.ticker, o.seller, 0, -amount), o.give.ticker, who, amount, 0))
    .(market := L.market.(offerLock := L.market.offerLock - {o.id}))
  }
}
