/** Token conservation: for every ticker the balances add up to what was minted, never above the supply, and a
    seller's locked balance is exactly the sum of the locks of that seller's open offers. */
module Conservation {
  import opened Rules
  import opened Ledgers
  import opened Handlers
  import opened Replay
  import opened Closing
  import opened Arith
  import opened OfferInvariants
  import opened Moves

  // ----- sums -----

  function Holding(row: map<Addr, Bal>, a: Addr): int { if a in row then row[a].available + row[a].locked else 0 }

  ghost function RowSum(row: map<Addr, Bal>, s: set<Addr>): int {
    if s == {} then 0 else var a :| a in s; Holding(row, a) + RowSum(row, s - {a})
  }

  /** Everything of one ticker that any address holds, available or locked. */
  ghost function Circulating(bs: Balances, t: string): int { if t in bs then RowSum(bs[t], bs[t].Keys) else 0 }

  lemma {:induction false} RowSumTake(row: map<Addr, Bal>, s: set<Addr>, a: Addr)
    requires a in s
    ensures RowSum(row, s) == Holding(row, a) + RowSum(row, s - {a})
  {
    var b :| b in s && RowSum(row, s) == Holding(row, b) + RowSum(row, s - {b});
    if b != a {
      RowSumTake(row, s - {b}, a);
      RowSumTake(row, s - {a}, b);
      assert s - {b} - {a} == s - {a} - {b};
    }
  }

  lemma {:induction false} RowSumSame(r: map<Addr, Bal>, q: map<Addr, Bal>, s: set<Addr>)
    requires forall a :: a in s ==> Holding(r, a) == Holding(q, a)
    ensures RowSum(r, s) == RowSum(q, s)
  {
    if s != {} {
      var a :| a in s && RowSum(r, s) == Holding(r, a) + RowSum(r, s - {a});
      RowSumTake(q, s, a);
      RowSumSame(r, q, s - {a});
    }
  }

  /** Crediting one balance moves the circulation of its ticker by exactly what was credited. */
  lemma CreditCirculating(bs: Balances, t: string, a: Addr, x: int, y: int, u: string)
    ensures Circulating(Credit(bs, t, a, x, y), u) == Circulating(bs, u) + (if t == u then x + y else 0)
  {
    if t == u {
      var cs := Credit(bs, t, a, x, y);
      var r := if t in bs then bs[t] else map[];
      var q := cs[t];
      assert q.Keys == r.Keys + {a};
      RowSumTake(q, q.Keys, a);
      assert q.Keys - {a} == r.Keys - {a};
      RowSumSame(q, r, q.Keys - {a});
      if a in r { RowSumTake(r, r.Keys, a); } else { assert r.Keys - {a} == r.Keys; }
    }
  }

  lemma CreditBalance(bs: Balances, t: string, a: Addr, x: int, y: int, u: string, b: Addr)
    ensures BalOf(Credit(bs, t, a, x, y), u, b)
            == if t == u && a == b then Bal(BalOf(bs, t, a).available + x, BalOf(bs, t, a).locked + y) else BalOf(bs, u, b)
  {
  }

  /** What an offer adds to the locked balance of `a` in `t`: its lock, while it is open. */
  function Locks(m: Market, id: Id, t: string, a: Addr): int {
    if id in m.offers && m.offers[id].status.Open? && m.offers[id].seller == a
       && m.offers[id].give.TokenGive? && m.offers[id].give.ticker == t then LockOf(m, id) else 0
  }

  function LockSum(m: Market, ids: seq<Id>, t: string, a: Addr): int {
    if ids == [] then 0 else LockSum(m, ids[..|ids| - 1], t, a) + Locks(m, ids[|ids| - 1], t, a)
  }

  lemma {:induction false} LockSumMove(m: Market, n: Market, ids: seq<Id>, x: Id, t: string, a: Addr)
    requires Distinct(ids) && forall id :: id in ids && id != x ==> Locks(m, id, t, a) == Locks(n, id, t, a)
    ensures LockSum(n, ids, t, a) == LockSum(m, ids, t, a) + if x in ids then Locks(n, x, t, a) - Locks(m, x, t, a) else 0
  {
    if ids != [] {
      forall id ensures id in ids <==> id in Prefix(ids) || id == Last(ids) { InPrefix(ids, id); }
      LockSumMove(m, n, Prefix(ids), x, t, a);
      assert Last(ids) !in Prefix(ids);
    }
  }

  lemma {:induction false} LockSumNonNegative(m: Market, ids: seq<Id>, t: string, a: Addr)
    requires forall id :: id in ids ==> Locks(m, id, t, a) >= 0
    ensures LockSum(m, ids, t, a) >= 0
  {
    if ids != [] {
      forall id | id in Prefix(ids) ensures id in ids { InPrefix(ids, id); }
      assert Last(ids) in ids;
      LockSumNonNegative(m, Prefix(ids), t, a);
    }
  }

  // ----- the invariant -----

  /** An open token offer's lock is there, and is exactly what it has not delivered yet. */
  ghost predicate LockOk(m: Market, tokens: map<string, Token>) {
    forall id :: id in m.offers && m.offers[id].status.Open? && m.offers[id].give.TokenGive? ==>
      id in m.offerLock && m.offerLock[id] == m.offers[id].give.amount - m.offers[id].delivered
      && m.offers[id].give.ticker in tokens
  }

  ghost predicate LocksAgree(bs: Balances, m: Market) {
    forall t: string, a: Addr :: BalOf(bs, t, a).locked == LockSum(m, m.offerIds, t, a)
  }

  ghost predicate AvailableOk(bs: Balances) { forall t: string, a: Addr :: BalOf(bs, t, a).available >= 0 }

  ghost predicate MintedOk(A: Assets) {
    A.balances.Keys <= A.tokens.Keys
    && forall t :: t in A.tokens ==> Circulating(A.balances, t) == A.tokens[t].minted <= A.tokens[t].supply
  }

  ghost predicate TokenInv(L: Ledger) {
    MintedOk(L.assets) && AvailableOk(L.assets.balances) && LocksAgree(L.assets.balances, L.market)
    && LockOk(L.market, L.assets.tokens)
  }

  /** A transfer of value inside one existing ticker: two credits that cancel out. */
  lemma SwapMinted(A: Assets, t: string, a: Addr, x: int, y: int, b: Addr, z: int, w: int)
    requires MintedOk(A) && t in A.tokens && x + y + z + w == 0
    ensures MintedOk(A.(balances := Credit(Credit(A.balances, t, a, x, y), t, b, z, w)))
  {
    var bs := Credit(A.balances, t, a, x, y);
    forall u | u in A.tokens
      ensures Circulating(Credit(bs, t, b, z, w), u) == Circulating(A.balances, u)
    {
      CreditCirculating(A.balances, t, a, x, y, u);
      CreditCirculating(bs, t, b, z, w, u);
    }
  }

  lemma OneMinted(A: Assets, t: string, a: Addr, x: int)
    requires MintedOk(A) && t in A.tokens
    ensures MintedOk(A.(balances := Credit(A.balances, t, a, x, -x)))
  {
    forall u | u in A.tokens ensures Circulating(Credit(A.balances, t, a, x, -x), u) == Circulating(A.balances, u) {
      CreditCirculating(A.balances, t, a, x, -x, u);
    }
  }

  /** When one offer's contribution changes and the balances follow it, every locked balance still agrees. */
  lemma LockFollows(bs: Balances, cs: Balances, m: Market, n: Market, id: Id)
    requires LocksAgree(bs, m) && Distinct(m.offerIds) && n.offerIds == m.offerIds && id in m.offerIds
    requires forall x, t: string, a: Addr :: x in m.offerIds && x != id ==> Locks(n, x, t, a) == Locks(m, x, t, a)
    requires forall t: string, a: Addr :: BalOf(cs, t, a).locked == BalOf(bs, t, a).locked + Locks(n, id, t, a) - Locks(m, id, t, a)
    ensures LocksAgree(cs, n)
  {
    forall t: string, a: Addr ensures BalOf(cs, t, a).locked == LockSum(n, n.offerIds, t, a) {
      LockSumMove(m, n, m.offerIds, id, t, a);
      assert BalOf(bs, t, a).locked == LockSum(m, m.offerIds, t, a);
    }
  }

  // ----- closing -----

  lemma CloseTokenGive(L: Ledger, id: Id, why: Reason)
    requires TokenInv(L) && IndexInv(L) && Closes(L, id, why) && L.market.offers[id].give.TokenGive?
    requires OfferOk(id, L.market.offers[id])
    ensures TokenInv(CloseOne(L, id, why))
  {
    hide Credit, BalOf, MintedOk;
    var o := L.market.offers[id];
    var M := Close(L, id, Outcome(why));
    CloseEffect(L, id, Outcome(why));
    var lock, bs := LockOf(L.market, id), L.assets.balances;
    OneMinted(L.assets, o.give.ticker, o.seller, lock);
    if IsPartial(o) { DeliveredBound(o); }
    forall t: string, a: Addr
      ensures BalOf(M.assets.balances, t, a).available >= 0
      ensures BalOf(M.assets.balances, t, a).locked
              == BalOf(bs, t, a).locked + Locks(M.market, id, t, a) - Locks(L.market, id, t, a)
    {
      CreditBalance(bs, o.give.ticker, o.seller, lock, -lock, t, a);
      assert BalOf(bs, t, a).available >= 0;
    }
    LockFollows(bs, M.assets.balances, L.market, M.market, id);
  }

  lemma CloseNameGive(L: Ledger, id: Id, why: Reason)
    requires TokenInv(L) && IndexInv(L) && Closes(L, id, why) && L.market.offers[id].give.NameGive?
    ensures TokenInv(CloseOne(L, id, why))
  {
    var M := Close(L, id, Outcome(why));
    CloseEffect(L, id, Outcome(why));
    LockFollows(L.assets.balances, M.assets.balances, L.market, M.market, id);
  }

  lemma CloseKeepsTokens(L: Ledger, id: Id, why: Reason)
    requires TokenInv(L) && IndexInv(L) && OffersInv(L) && Closes(L, id, why)
    ensures TokenInv(CloseOne(L, id, why))
  {
    if L.market.offers[id].give.TokenGive? { CloseTokenGive(L, id, why); } else { CloseNameGive(L, id, why); }
  }

  /** A partial offer never delivers more than it gives; short of full payment it delivers less. */
  lemma DeliveredBound(o: Offer)
    requires IsPartial(o) && PartialOk(o)
    ensures o.delivered <= o.give.amount
    ensures o.paid < o.want.value && o.give.amount > 0 ==> o.delivered < o.give.amount
    ensures o.paid == o.want.value ==> o.delivered == o.give.amount
  {
    MulMonotone(o.paid, o.want.value, o.give.amount);
    MulDiv(o.give.amount, o.want.value);
    DivMonotone(o.give.amount * o.paid, o.give.amount * o.want.value, o.want.value);
    if o.paid < o.want.value && o.give.amount > 0 {
      MulMonotone(o.paid + 1, o.want.value, o.give.amount);
      DivBelow(o.give.amount * o.paid, o.want.value, o.give.amount);
    }
  }

  lemma {:induction false} PassKeepsTokens(L: Ledger, ids: seq<Id>, why: Reason)
    requires TokenInv(L) && IndexInv(L) && OffersInv(L)
    ensures TokenInv(CloseAll(L, ids, why))
  {
    if ids != [] {
      PassKeepsTokens(L, Prefix(ids), why);
      CloseAllIndex(L, Prefix(ids), why);
      PassKeepsOffers(L, Prefix(ids), why);
      var M := CloseAll(L, Prefix(ids), why);
      if Closes(M, Last(ids), why) { CloseKeepsTokens(M, Last(ids), why); }
    }
  }

  lemma {:induction false} FlushKeepsTokens(L: Ledger, cancels: seq<Deferred>)
    requires TokenInv(L) && IndexInv(L) && OffersInv(L)
    ensures TokenInv(FlushFrom(L, cancels))
  {
    if cancels != [] {
      var c, rest := cancels[|cancels| - 1], cancels[..|cancels| - 1];
      FlushKeepsTokens(L, rest);
      FlushIndex(L, rest);
      FlushKeepsOffers(L, rest);
      PassKeepsTokens(FlushFrom(L, rest), c.targets, Flush(c.height));
    }
  }

  lemma PrepareKeepsTokens(L: Ledger, height: nat)
    requires TokenInv(L) && IndexInv(L) && OffersInv(L)
    ensures TokenInv(Prepare(L, height))
  {
    PrepareIs(L, height);
    FlushKeepsTokens(L, L.pendingCancels);
    FlushKeepsOffers(L, L.pendingCancels);
    var E := EnterBlock(L, height);
    PassKeepsTokens(E, E.market.offerIds, Sweep(height));
  }

  // ----- the handlers -----

  lemma DeployKeepsTokens(L: Ledger, ev: Event, t: string, supply: nat, limit: Option<nat>)
    requires TokenInv(L) && ev.Propose?
    ensures TokenInv(ApplyDeploy(L, ev, t, supply, limit))
  {
  }

  lemma MintKeepsTokens(L: Ledger, ev: Event, t: string, amount: Option<nat>)
    requires TokenInv(L) && ev.Propose?
    ensures TokenInv(ApplyMint(L, ev, t, amount))
  {
    if t in L.assets.tokens && MintCredit(L.assets.tokens[t], ev.proposer, amount).Some? {
      var credit := MintCredit(L.assets.tokens[t], ev.proposer, amount).value;
      var bs, M := L.assets.balances, ApplyMint(L, ev, t, amount);
      forall u | u in M.assets.tokens
        ensures Circulating(M.assets.balances, u) == M.assets.tokens[u].minted <= M.assets.tokens[u].supply
      {
        CreditCirculating(bs, t, ev.proposer, credit, 0, u);
      }
      forall u: string, a: Addr
        ensures BalOf(M.assets.balances, u, a).available >= BalOf(bs, u, a).available
                && BalOf(M.assets.balances, u, a).locked == BalOf(bs, u, a).locked
      {
        CreditBalance(bs, t, ev.proposer, credit, 0, u, a);
      }
    }
  }

  /** Moving available value inside a ticker keeps the ledger, when the payer can afford it. */
  lemma PayKeepsTokens(L: Ledger, t: string, payer: Addr, payee: Addr, amount: nat)
    requires TokenInv(L) && t in L.assets.tokens && BalOf(L.assets.balances, t, payer).available >= amount
    ensures TokenInv(Pay(L, Credit(Credit(L.assets.balances, t, payer, 0 - amount, 0), t, payee, amount, 0)))
  {
    hide MintedOk, LockOk, LockSum, Credit, BalOf;
    var bs := L.assets.balances;
    var cs := Credit(bs, t, payer, 0 - amount, 0);
    SwapMinted(L.assets, t, payer, 0 - amount, 0, payee, amount, 0);
    forall u: string, a: Addr
      ensures BalOf(Credit(cs, t, payee, amount, 0), u, a).available >= 0
              && BalOf(Credit(cs, t, payee, amount, 0), u, a).locked == BalOf(bs, u, a).locked
    {
      CreditBalance(bs, t, payer, 0 - amount, 0, u, a);
      CreditBalance(cs, t, payee, amount, 0, u, a);
      assert BalOf(bs, u, a).available >= 0;
    }
  }

  /** A new offer's lock joins its seller's locked balance. */
  lemma AddFollows(bs: Balances, cs: Balances, m: Market, n: Market, id: Id)
    requires LocksAgree(bs, m) && Distinct(m.offerIds) && n.offerIds == m.offerIds + [id] && id !in m.offerIds
    requires forall x, t: string, a: Addr :: x in m.offerIds ==> Locks(n, x, t, a) == Locks(m, x, t, a)
    requires forall t: string, a: Addr :: BalOf(cs, t, a).locked == BalOf(bs, t, a).locked + Locks(n, id, t, a)
    ensures LocksAgree(cs, n)
  {
    assert n.offerIds[..|n.offerIds| - 1] == m.offerIds;
    forall t: string, a: Addr ensures BalOf(cs, t, a).locked == LockSum(n, n.offerIds, t, a) {
      LockSumMove(m, n, m.offerIds, id, t, a);
      assert BalOf(bs, t, a).locked == LockSum(m, m.offerIds, t, a);
    }
  }

  lemma TokenOfferLocks(m: Market, ev: Event, rec: Record)
    requires ev.Propose? && rec.OfferRec? && rec.give.TokenGive? && ev.id in m.offerLock
    ensures forall t: string, a: Addr :: Locks(AddOffer(m, NewOffer(ev, rec)), ev.id, t, a)
                     == if t == rec.give.ticker && a == ev.proposer then m.offerLock[ev.id] else 0
    ensures forall x, t: string, a: Addr :: x != ev.id ==> Locks(AddOffer(m, NewOffer(ev, rec)), x, t, a) == Locks(m, x, t, a)
  {
  }

  /** The balances after a new token offer follow its lock. */
  lemma OfferedBalances(bs: Balances, m: Market, n: Market, id: Id, t: string, seller: Addr, amt: int)
    requires AvailableOk(bs) && BalOf(bs, t, seller).available >= amt
    requires LocksAgree(bs, m) && Distinct(m.offerIds) && n.offerIds == m.offerIds + [id] && id !in m.offerIds
    requires forall x, u: string, a: Addr :: x in m.offerIds ==> Locks(n, x, u, a) == Locks(m, x, u, a)
    requires forall u: string, a: Addr :: Locks(n, id, u, a) == if u == t && a == seller then amt else 0
    ensures var cs := Credit(bs, t, seller, -amt, amt); AvailableOk(cs) && LocksAgree(cs, n)
  {
    hide Locks, LocksAgree, Credit, BalOf;
    var cs := Credit(bs, t, seller, -amt, amt);
    forall u: string, a: Addr
      ensures BalOf(cs, u, a).available >= 0
      ensures BalOf(cs, u, a).locked == BalOf(bs, u, a).locked + Locks(n, id, u, a)
    {
      CreditBalance(bs, t, seller, -amt, amt, u, a);
      assert BalOf(bs, u, a).available >= 0;
    }
    AddFollows(bs, cs, m, n, id);
  }

  lemma TokenOfferKeepsTokens(L: Ledger, ev: Event, rec: Record)
    requires TokenInv(L) && IndexInv(L) && Next(L, ev) && ev.Propose? && rec.OfferRec? && rec.give.TokenGive?
    requires rec.give.ticker in L.assets.tokens && BalOf(L.assets.balances, rec.give.ticker, ev.proposer).available >= rec.give.amount
    ensures TokenInv(Pay(L, Credit(L.assets.balances, rec.give.ticker, ev.proposer, 0 - rec.give.amount, rec.give.amount))
                     .(market := AddOffer(L.market.(offerLock := L.market.offerLock[ev.id := rec.give.amount]), NewOffer(ev, rec))))
  {
    hide Credit, BalOf, MintedOk, AvailableOk, LocksAgree, Locks;
    var t, bs := rec.give.ticker, L.assets.balances;
    var amt: int := rec.give.amount;
    var m := L.market.(offerLock := L.market.offerLock[ev.id := amt]);
    OneMinted(L.assets, t, ev.proposer, -amt);
    TokenOfferLocks(m, ev, rec);
    SameLocks(L.market, m, ev.id);
    OfferedBalances(bs, L.market, AddOffer(m, NewOffer(ev, rec)), ev.id, t, ev.proposer, amt);
  }

  lemma SameLocks(m: Market, n: Market, id: Id)
    requires n.offers == m.offers && (forall x :: x != id ==> LockOf(n, x) == LockOf(m, x))
    ensures forall x, t: string, a: Addr :: x != id ==> Locks(n, x, t, a) == Locks(m, x, t, a)
  {
  }

  lemma NameOfferKeepsTokens(L: Ledger, ev: Event, rec: Record)
    requires TokenInv(L) && IndexInv(L) && Next(L, ev) && ev.Propose? && rec.OfferRec? && rec.give.NameGive?
    ensures TokenInv(L.(registry := SetLocked(L.registry, rec.give.name, true), market := AddOffer(L.market, NewOffer(ev, rec))))
  {
    AddFollows(L.assets.balances, L.assets.balances, L.market, AddOffer(L.market, NewOffer(ev, rec)), ev.id);
  }

  lemma OfferKeepsTokens(L: Ledger, ev: Event, rec: Record)
    requires TokenInv(L) && IndexInv(L) && Next(L, ev) && ev.Propose? && rec.OfferRec?
    ensures TokenInv(ApplyOffer(L, ev, rec))
  {
    if rec.give.NameGive? {
      NameOfferKeepsTokens(L, ev, rec);
    } else if rec.give.ticker in L.assets.tokens && BalOf(L.assets.balances, rec.give.ticker, ev.proposer).available >= rec.give.amount {
      TokenOfferKeepsTokens(L, ev, rec);
    }
  }

  /** An offer whose terms, status and progress stay put locks what it locked. */
  lemma PutKeepsTokens(L: Ledger, M: Ledger, oid: Id, o: Offer)
    requires TokenInv(L) && IndexInv(L) && oid in L.market.offers
    requires M.assets == L.assets && M.market == L.market.(offers := L.market.offers[oid := o])
    requires SameTerms(L.market.offers[oid], o) && o.status == L.market.offers[oid].status && o.delivered == L.market.offers[oid].delivered
    ensures TokenInv(M)
  {
    LockFollows(L.assets.balances, M.assets.balances, L.market, M.market, oid);
  }

  /** `x` locked units of the seller become `x` available units of the buyer. */
  function Released(bs: Balances, t: string, seller: Addr, who: Addr, x: int): Balances {
    Credit(Credit(bs, t, seller, 0, -x), t, who, x, 0)
  }

  lemma ReleasedBalance(bs: Balances, t: string, seller: Addr, who: Addr, x: int, u: string, a: Addr)
    ensures var b := BalOf(Released(bs, t, seller, who, x), u, a);
      b.available == BalOf(bs, u, a).available + (if u == t && a == who then x else 0)
      && b.locked == BalOf(bs, u, a).locked - (if u == t && a == seller then x else 0)
  {
    CreditBalance(bs, t, seller, 0, -x, u, a);
    CreditBalance(Credit(bs, t, seller, 0, -x), t, who, x, 0, u, a);
  }

  /** The market changes at one offer only, whose lock shrinks by `x`. */
  ghost predicate Shrinks(m: Market, n: Market, oid: Id, x: int) {
    && n.offerIds == m.offerIds && n.offers.Keys == m.offers.Keys && oid in m.offers
    && (forall id :: id in m.offers && id != oid ==>
          n.offers[id] == m.offers[id] && (id in n.offerLock <==> id in m.offerLock) && LockOf(n, id) == LockOf(m, id))
    && SameTerms(m.offers[oid], n.offers[oid]) && m.offers[oid].status.Open?
    && (if n.offers[oid].status.Open?
        then oid in n.offerLock && LockOf(n, oid) == LockOf(m, oid) - x && n.offers[oid].delivered == m.offers[oid].delivered + x
        else LockOf(m, oid) == x)
  }

  lemma DeliverKeepsTokens(L: Ledger, M: Ledger, oid: Id, who: Addr, x: int)
    requires TokenInv(L) && IndexInv(L) && x >= 0 && Shrinks(L.market, M.market, oid, x)
    requires L.market.offers[oid].give.TokenGive?
    requires M.assets.tokens == L.assets.tokens
    requires M.assets.balances == Released(L.assets.balances, L.market.offers[oid].give.ticker, L.market.offers[oid].seller, who, x)
    ensures TokenInv(M)
  {
    hide Credit, BalOf, MintedOk;
    var o, bs, cs := L.market.offers[oid], L.assets.balances, M.assets.balances;
    SwapMinted(L.assets, o.give.ticker, o.seller, 0, -x, who, x, 0);
    assert M.assets == L.assets.(balances := cs);
    forall u: string, a: Addr
      ensures BalOf(cs, u, a).available >= 0
      ensures BalOf(cs, u, a).locked == BalOf(bs, u, a).locked + Locks(M.market, oid, u, a) - Locks(L.market, oid, u, a)
    {
      ReleasedBalance(bs, o.give.ticker, o.seller, who, x, u, a);
      assert BalOf(bs, u, a).available >= 0;
    }
    LockFollows(bs, cs, L.market, M.market, oid);
  }

  /** Filling an offer hands its whole lock to the buyer. */
  lemma HandOver(L: Ledger, oid: Id, who: Addr, entry: FillEntry, fees: nat)
    requires TokenInv(L) && IndexInv(L) && oid in L.market.offers && OfferOk(oid, L.market.offers[oid])
    requires L.market.offers[oid].status.Open? && L.market.offers[oid].give.TokenGive?
    requires oid in L.market.offerLock && L.market.offerLock[oid] >= 0
    ensures TokenInv(FinishFill(ReleaseGiveLock(L, L.market.offers[oid], who, L.market.offerLock[oid]).(feesPaid := fees), oid, entry))
  {
    hide TokenInv, IndexInv, Credit, MarkBidDone, Without, PartialOk;
    var o, lock := L.market.offers[oid], L.market.offerLock[oid];
    var R := ReleaseGiveLock(L, o, who, lock);
    var M := FinishFill(R.(feesPaid := fees), oid, entry);
    assert M.market.offers == L.market.offers[oid := FilledOffer(o, entry)];
    assert M.market.offerLock == L.market.offerLock - {oid};
    DeliverKeepsTokens(L, M, oid, who, lock);
  }

  /** Filling a name offer moves no token. */
  lemma HandOverName(L: Ledger, M: Ledger, oid: Id, entry: FillEntry)
    requires TokenInv(L) && IndexInv(L) && oid in L.market.offers && L.market.offers[oid].give.NameGive?
    requires M.assets == L.assets && M.market == L.market
    ensures TokenInv(FinishFill(M, oid, entry))
  {
    var N := FinishFill(M, oid, entry);
    LockFollows(L.assets.balances, N.assets.balances, L.market, N.market, oid);
  }

  lemma DeliveryKeepsTokens(L: Ledger, ev: Event, oid: Id, fees: nat, entry: FillEntry)
    requires TokenInv(L) && IndexInv(L) && OffersInv(L) && oid in L.market.offers
    requires L.market.offers[oid].status.Open? && GiveReady(L, L.market.offers[oid])
    ensures TokenInv(FinishFill(DeliverGive(L, L.market.offers[oid], entry.buyer, ev).(feesPaid := fees), oid, entry))
  {
    var o := L.market.offers[oid];
    assert OfferOk(oid, o);
    if o.give.TokenGive? {
      if IsPartial(o) { DeliveredBound(o); }
      HandOver(L, oid, entry.buyer, entry, fees);
    } else {
      HandOverName(L, DeliverGive(L, o, entry.buyer, ev), oid, entry);
    }
  }

  lemma FillKeepsTokens(L: Ledger, ev: Event, oid: Id)
    requires TokenInv(L) && IndexInv(L) && OffersInv(L) && ev.Attest? && oid in L.market.offers && L.market.offers[oid].want.CsdWant?
    ensures TokenInv(ApplyFill(L, ev, oid))
  {
    var o := L.market.offers[oid];
    if WholeFills(L, ev, o) {
      var fee := FeeAt(o.want.value, o.feeBps);
      DeliveryKeepsTokens(L, ev, oid, L.feesPaid + fee,
                          FillEntry(ev.attester, ev.id, ev.height, Pt(ev.paidTo, o.want.payto), fee, 0));
    }
  }

  lemma SettleKeepsTokens(L: Ledger, w: Want, who: Addr, fee: nat)
    requires TokenInv(L) && w.TokenWant? && w.ticker in L.assets.tokens
    requires BalOf(L.assets.balances, w.ticker, who).available >= w.amount + fee
    ensures TokenInv(Pay(L, SettleTokens(L.assets.balances, w, who, fee)))
  {
    SettledMinted(L.assets, w, who, fee);
    var bs := L.assets.balances;
    forall u: string, a: Addr
      ensures var b := BalOf(SettleTokens(bs, w, who, fee), u, a); b.available >= 0 && b.locked == BalOf(bs, u, a).locked
    {
      SettledBalance(bs, w, who, fee, u, a);
      assert BalOf(bs, u, a).available >= 0;
    }
  }

  lemma SettledBalance(bs: Balances, w: Want, who: Addr, fee: nat, u: string, a: Addr)
    requires w.TokenWant?
    ensures var b := BalOf(SettleTokens(bs, w, who, fee), u, a);
      && b.locked == BalOf(bs, u, a).locked
      && b.available == BalOf(bs, u, a).available
         + if u != w.ticker then 0 else
             (if a == w.payto then w.amount else 0) + (if a == TREASURY_ADDR then fee else 0)
             - (if a == who then w.amount + fee else 0)
  {
    var b1 := Credit(bs, w.ticker, who, -(w.amount + fee), 0);
    var b2 := Credit(b1, w.ticker, w.payto, w.amount, 0);
    CreditBalance(bs, w.ticker, who, -(w.amount + fee), 0, u, a);
    CreditBalance(b1, w.ticker, w.payto, w.amount, 0, u, a);
    CreditBalance(b2, w.ticker, TREASURY_ADDR, fee, 0, u, a);
  }

  lemma SettledMinted(A: Assets, w: Want, who: Addr, fee: nat)
    requires MintedOk(A) && w.TokenWant? && w.ticker in A.tokens
    ensures MintedOk(A.(balances := SettleTokens(A.balances, w, who, fee)))
  {
    var b1 := Credit(A.balances, w.ticker, who, -(w.amount + fee), 0);
    var b2 := Credit(b1, w.ticker, w.payto, w.amount, 0);
    forall u | u in A.tokens ensures Circulating(SettleTokens(A.balances, w, who, fee), u) == Circulating(A.balances, u) {
      CreditCirculating(A.balances, w.ticker, who, -(w.amount + fee), 0, u);
      CreditCirculating(b1, w.ticker, w.payto, w.amount, 0, u);
      CreditCirculating(b2, w.ticker, TREASURY_ADDR, fee, 0, u);
    }
  }

  lemma TokenFillKeepsTokens(L: Ledger, ev: Event, oid: Id)
    requires TokenInv(L) && IndexInv(L) && OffersInv(L) && ev.Attest? && oid in L.market.offers && L.market.offers[oid].want.TokenWant?
    ensures TokenInv(ApplyTokenFill(L, ev, oid))
  {
    var o := L.market.offers[oid];
    if !TokenFillRefused(L, ev, o) {
      var fee := FeeAt(o.want.amount, o.feeBps);
      SettleKeepsTokens(L, o.want, ev.attester, fee);
      DeliveryKeepsTokens(Pay(L, SettleTokens(L.assets.balances, o.want, ev.attester, fee)), ev, oid, L.feesPaid,
                          FillEntry(ev.attester, ev.id, ev.height, o.want.amount, fee, 0));
    }
  }

  lemma PartialFillKeepsTokens(L: Ledger, ev: Event, oid: Id)
    requires TokenInv(L) && IndexInv(L) && OffersInv(L) && ev.Attest? && oid in L.market.offers && IsPartial(L.market.offers[oid])
    ensures TokenInv(ApplyPartialFill(L, ev, oid))
  {
    hide TokenInv, IndexInv, OfferOk, FillBarred, PartialRefused, PortionOf, SettlePortion, Shrinks, MarkBidDone;
    var o := L.market.offers[oid];
    assert OfferOk(oid, o);
    if PartialSane(o) && !FillBarred(o, ev) && !PartialRefused(L, ev, o) {
      var entry := SettledPortion(L, ev, oid);
      var M := ApplyPartialFill(L, ev, oid);
      SettleShrinks(L.market, oid, L.market.offerLock[oid] - entry.got, entry);
      DeliverKeepsTokens(L, M, oid, ev.attester, entry.got);
    }
  }

  /** What an accepted portion settles: no more than is locked, and all of it when the price is paid. */
  lemma SettledPortion(L: Ledger, ev: Event, oid: Id) returns (entry: FillEntry)
    requires TokenInv(L) && ev.Attest? && oid in L.market.offers && OfferOk(oid, L.market.offers[oid]) && IsPartial(L.market.offers[oid])
    requires var o := L.market.offers[oid]; PartialSane(o) && !FillBarred(o, ev) && !PartialRefused(L, ev, o)
    ensures var o := L.market.offers[oid];
      && o.id == oid && o.status.Open? && oid in L.market.offerLock
      && o.delivered <= PortionOf(o, Pt(ev.paidTo, o.want.payto)).newDelivered && entry == PortionEntry(o, ev)
      && (AfterPortion(o, entry).status.Filled? ==> L.market.offerLock[oid] == entry.got)
  {
    var o := L.market.offers[oid];
    PortionKeepsOk(o, ev);
    entry := PortionEntry(o, ev);
    DeliveredBound(AfterPortion(o, entry));
  }

  lemma SettleShrinks(m: Market, oid: Id, lock: int, entry: FillEntry)
    requires oid in m.offers && m.offers[oid].id == oid && IsPartial(m.offers[oid]) && m.offers[oid].status.Open?
    requires oid in m.offerLock && lock == m.offerLock[oid] - entry.got
    requires AfterPortion(m.offers[oid], entry).status.Filled? ==> lock == 0
    ensures Shrinks(m, SettlePortion(m, oid, Progressed(m.offers[oid], entry), lock, entry), oid, entry.got)
  {
    SettleOffers(m, oid, m.offers[oid], lock, entry);
  }

  lemma ClaimKeepsTokens(L: Ledger, ev: Event, oid: Id)
    requires TokenInv(L) && IndexInv(L) && ev.Attest? && oid in L.market.offers
    ensures TokenInv(ApplyLegacyClaim(L, ev, oid))
  {
    var M := ApplyLegacyClaim(L, ev, oid);
    PutKeepsTokens(L, M, oid, M.market.offers[oid]);
  }

  lemma FclaimKeepsTokens(L: Ledger, ev: Event, oid: Id)
    requires TokenInv(L) && IndexInv(L) && ev.Propose?
    ensures TokenInv(ApplyFclaim(L, ev, oid))
  {
    if ev.height >= V28_HEIGHT && Grants(L, oid, ev.proposer, ev.expiresEpoch, ev.height) {
      var M := ApplyFclaim(L, ev, oid);
      PutKeepsTokens(L, M, oid, M.market.offers[oid]);
    }
  }

  lemma AttestKeepsTokens(L: Ledger, ev: Event)
    requires TokenInv(L) && IndexInv(L) && OffersInv(L) && ev.Attest?
    ensures TokenInv(ApplyAttest(L, ev))
  {
    hide ApplyTokenFill, ApplyPartialFill, ApplyFill, ApplyLegacyClaim;
    var target := Routed(L, ev);
    if target.Some? {
      var oid := target.value;
      if ev.score == SCORE_CANCEL {
        if Closes(L, oid, Immediate) { CloseKeepsTokens(L, oid, Immediate); }
      } else if ev.score == SCORE_FILL && L.market.offers[oid].want.TokenWant? {
        TokenFillKeepsTokens(L, ev, oid);
      } else if ev.score == SCORE_FILL && IsPartial(L.market.offers[oid]) {
        PartialFillKeepsTokens(L, ev, oid);
      } else if ev.score == SCORE_FILL {
        FillKeepsTokens(L, ev, oid);
      } else {
        ClaimKeepsTokens(L, ev, oid);
      }
    }
  }

  lemma ProposeKeepsTokens(L: Ledger, ev: Event)
    requires TokenInv(L) && IndexInv(L) && OffersInv(L) && Next(L, ev) && ev.Propose?
    ensures TokenInv(ApplyPropose(L, ev))
  {
    hide ApplyDeploy, ApplyMint, ApplyName, ApplyNfinalize, ApplyOffer, ApplyFclaim;
    match ev.rec
    case Some(Deploy(t, supply, limit)) => DeployKeepsTokens(L, ev, t, supply, limit);
    case Some(Mint(t, amount)) => MintKeepsTokens(L, ev, t, amount);
    case Some(Transfer(t, to, amount)) =>
      if t in L.assets.tokens && BalOf(L.assets.balances, t, ev.proposer).available >= amount {
        PayKeepsTokens(L, t, ev.proposer, to, amount);
      }
    case Some(Name(nm, revealed)) =>
      NameShape(L, ev, nm, revealed);
      PassKeepsTokens(L, L.market.offerIds, Void(nm, ev.height));
    case Some(Nfinalize(nm, opening)) =>
      NfinalizeShape(L, ev, nm, opening);
      PassKeepsTokens(L, L.market.offerIds, Void(nm, ev.height));
    case Some(OfferRec(_, _, _, _, _)) => OfferKeepsTokens(L, ev, ev.rec.value);
    case Some(Ocancel(t, nm)) =>
      PassKeepsTokens(L, OcancelTargets(L, L.market.offerIds, ev.proposer, t, nm), Immediate);
    case Some(FclaimRec(oid)) => FclaimKeepsTokens(L, ev, oid);
    case _ =>
  }

  lemma HandleKeepsTokens(L: Ledger, ev: Event)
    requires TokenInv(L) && IndexInv(L) && OffersInv(L) && Next(L, ev)
    ensures TokenInv(Handle(L, ev))
  {
    if ev.Propose? { ProposeKeepsTokens(L, ev); } else { AttestKeepsTokens(L, ev); }
  }
}
