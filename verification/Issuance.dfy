/** What the token records move (packages/cairnx/src/resolve/tokens.ts): who may deploy, mint and transfer, how much a mint
    credits, and that nothing else changes. */
module Issuance {
  import opened Rules
  import opened Ledgers
  import opened Handlers
  import opened Replay
  import opened Conservation

  /** Every balance stands but the available one of `who` in `ticker`, which gains `x`. */
  ghost predicate OnlyGains(a: Balances, b: Balances, ticker: string, who: Addr, x: int) {
    forall t: string, w: Addr ::
      BalOf(b, t, w) == if t == ticker && w == who then Bal(BalOf(a, t, w).available + x, BalOf(a, t, w).locked) else BalOf(a, t, w)
  }

  /** What a mint may credit: no more than was asked for, than an open mint allows at once, or than is left. */
  predicate MayCredit(tok: Token, asked: Option<nat>, x: nat) {
    x <= tok.supply - tok.minted && (asked.Some? ==> x <= asked.value) && (tok.mode.OpenMint? ==> x <= tok.mode.limit)
  }

  /** Who may mint: anyone, if the token is open; its deployer, naming an amount, if it is not. */
  predicate MayMint(tok: Token, who: Addr, asked: Option<nat>) {
    tok.minted < tok.supply && (tok.mode.Issuer? ==> tok.mode.deployer == who && asked.Some?)
  }

  /** A mint credits its author with the most it may, and only when its author may mint. */
  lemma MintMoves(L: Ledger, ev: Event, t: string, asked: Option<nat>)
    requires ev.Propose? && ev.rec == Some(Mint(t, asked))
    ensures var M := Handle(L, ev);
      if t in L.assets.tokens && MayMint(L.assets.tokens[t], ev.proposer, asked) then
        var tok, x := L.assets.tokens[t], M.assets.tokens[t].minted - L.assets.tokens[t].minted;
        && x >= 0 && MayCredit(tok, asked, x) && (forall y: nat :: MayCredit(tok, asked, y) ==> y <= x)
        && M.assets.tokens == L.assets.tokens[t := Token(tok.supply, tok.minted + x, tok.mode)]
        && OnlyGains(L.assets.balances, M.assets.balances, t, ev.proposer, x)
        && M == L.(assets := M.assets)
      else M == L
  {
    hide Credit, BalOf;
    if t in L.assets.tokens && MayMint(L.assets.tokens[t], ev.proposer, asked) {
      var x := MintCredit(L.assets.tokens[t], ev.proposer, asked).value;
      forall u: string, w: Addr { CreditBalance(L.assets.balances, t, ev.proposer, x, 0, u, w); }
    }
  }

  /** A transfer moves its amount of available balance, when there is so much, and nothing else. */
  lemma TransferMoves(L: Ledger, ev: Event, t: string, to: Addr, amount: nat)
    requires ev.Propose? && ev.rec == Some(Transfer(t, to, amount))
    ensures var M := Handle(L, ev);
      if t in L.assets.tokens && BalOf(L.assets.balances, t, ev.proposer).available >= amount then
        && (forall u: string, w: Addr ::
              BalOf(M.assets.balances, u, w).locked == BalOf(L.assets.balances, u, w).locked
              && BalOf(M.assets.balances, u, w).available
                 == BalOf(L.assets.balances, u, w).available
                    + (if u == t && w == to then amount else 0) - (if u == t && w == ev.proposer then amount else 0))
        && M == L.(assets := L.assets.(balances := M.assets.balances))
      else M == L
  {
    hide Credit, BalOf;
    var b := Credit(L.assets.balances, t, ev.proposer, 0 - amount, 0);
    forall u: string, w: Addr
      ensures BalOf(Credit(b, t, to, amount, 0), u, w)
              == Bal(BalOf(L.assets.balances, u, w).available
                     + (if u == t && w == to then amount else 0) - (if u == t && w == ev.proposer then amount else 0),
                     BalOf(L.assets.balances, u, w).locked)
    {
      CreditBalance(L.assets.balances, t, ev.proposer, 0 - amount, 0, u, w);
      CreditBalance(b, t, to, amount, 0, u, w);
    }
  }

  /** The first to deploy a ticker owns it, for one CSD to the treasury from V11 on; nothing is minted yet. */
  lemma DeployMoves(L: Ledger, ev: Event, t: string, supply: nat, limit: Option<nat>)
    requires ev.Propose? && ev.rec == Some(Deploy(t, supply, limit))
    ensures var M := Handle(L, ev); var due := if ev.height >= V11_HEIGHT then 100_000_000 else 0;
      if t !in L.assets.tokens && (due == 0 || (TREASURY_ADDR in ev.paidTo && ev.paidTo[TREASURY_ADDR] >= due)) then
        var mode := if limit.Some? then OpenMint(limit.value) else Issuer(ev.proposer);
        M == L.(assets := L.assets.(tokens := L.assets.tokens[t := Token(supply, 0, mode)]), feesPaid := L.feesPaid + due)
      else M == L
  {
  }
}
