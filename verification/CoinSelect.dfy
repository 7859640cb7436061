/** Coin selection and assembly of a transaction (packages/tx/src/index.ts): greedy largest-first selection is as small
    as any, and an assembled transaction creates and loses no value. */
module CoinSelect {
  import opened Rules
  import opened Bytes
  import opened TxCodec

  /** What one coin is: a transaction id, read without case and `0x`, and an output index. */
  datatype Outpoint = Outpoint(txid: seq<byte>, vout: nat)

  /** A coin as a node reports it. None stands for a number that is missing, not finite or - for a value - not whole. */
  datatype Utxo = Utxo(op: Outpoint, value: Option<int>, confirmations: Option<int>, coinbase: bool)
  datatype Coin = Coin(op: Outpoint, value: nat)
  datatype Selection = Selection(inputs: seq<Coin>, total: nat)

  predicate Safe(n: int) { 0 - n <= MAX_SAFE_INTEGER && n <= MAX_SAFE_INTEGER }

  predicate Eligible(x: Utxo, exclude: set<Outpoint>) {
    x.confirmations.Some? && x.confirmations.value >= 1 && x.value.Some? && 0 < x.value.value <= MAX_SAFE_INTEGER && x.op !in exclude
  }

  function CoinOf(x: Utxo): Coin
    requires x.value.Some? && x.value.value > 0
  {
    Coin(x.op, x.value.value)
  }

  function Outpoints(s: seq<Coin>): set<Outpoint> { set k | 0 <= k < |s| :: s[k].op }

  ghost predicate DistinctCoins(s: seq<Coin>) { forall i, j :: 0 <= i < j < |s| ==> s[i].op != s[j].op }

  function Sum(s: seq<Coin>): nat { if s == [] then 0 else Sum(s[..|s| - 1]) + s[|s| - 1].value }

  /** The confirmed coins of a list: eligible ones, the first of each outpoint, with or without coinbase coins. */
  function Pool(utxos: seq<Utxo>, exclude: set<Outpoint>, coinbase: bool): seq<Coin> {
    if utxos == [] then []
    else
      var rest, x := utxos[..|utxos| - 1], utxos[|utxos| - 1];
      var pool := Pool(rest, exclude, coinbase);
      if Eligible(x, exclude) && x.op !in Taken(rest, exclude) && (coinbase || !x.coinbase) then pool + [CoinOf(x)] else pool
  }

  /** The outpoints the filter has already let through. */
  function Taken(utxos: seq<Utxo>, exclude: set<Outpoint>): set<Outpoint> {
    set k | 0 <= k < |utxos| && Eligible(utxos[k], exclude) :: utxos[k].op
  }

  lemma TakenPush(utxos: seq<Utxo>, x: Utxo, exclude: set<Outpoint>)
    ensures Taken(utxos + [x], exclude) == Taken(utxos, exclude) + (if Eligible(x, exclude) then {x.op} else {})
  {
    var more := utxos + [x];
    forall o | o in Taken(utxos, exclude) ensures o in Taken(more, exclude) {
      var k :| 0 <= k < |utxos| && Eligible(utxos[k], exclude) && utxos[k].op == o;
      assert more[k] == utxos[k];
    }
    assert more[|utxos|] == x;
  }

  lemma {:induction false} PoolSound(utxos: seq<Utxo>, exclude: set<Outpoint>, coinbase: bool)
    ensures var pool := Pool(utxos, exclude, coinbase);
      DistinctCoins(pool) && Outpoints(pool) <= Taken(utxos, exclude)
      && forall k :: 0 <= k < |pool| ==> pool[k].op !in exclude && 0 < pool[k].value <= MAX_SAFE_INTEGER
  {
    if utxos != [] {
      var rest, x := utxos[..|utxos| - 1], utxos[|utxos| - 1];
      PoolSound(rest, exclude, coinbase);
      TakenPush(rest, x, exclude);
      assert utxos == rest + [x];
      var pool := Pool(rest, exclude, coinbase);
      assert forall k :: 0 <= k < |pool| ==> pool[k].op in Outpoints(pool);
    }
  }

  /** The coin at k counts: confirmed once at least, worth a whole positive safe amount, and not excluded. */
  predicate Counts(utxos: seq<Utxo>, exclude: set<Outpoint>, k: nat)
    requires k < |utxos|
  {
    var x := utxos[k];
    && x.confirmations.Some? && x.confirmations.value > 0
    && x.value.Some? && x.value.value > 0 && x.value.value < 0x20_0000_0000_0000 && x.op !in exclude
  }

  /** The coin at k is in the pool: it counts, none before it of the same outpoint does, and it is no coinbase's unless those
      are let in. */
  ghost predicate Pooled(utxos: seq<Utxo>, exclude: set<Outpoint>, coinbase: bool, k: nat)
    requires k < |utxos|
  {
    && Counts(utxos, exclude, k) && (utxos[k].coinbase ==> coinbase)
    && forall j :: 0 <= j < k && utxos[j].op == utxos[k].op ==> !Counts(utxos, exclude, j)
  }

  ghost predicate PooledAs(utxos: seq<Utxo>, exclude: set<Outpoint>, coinbase: bool, c: Coin) {
    exists k :: 0 <= k < |utxos| && Pooled(utxos, exclude, coinbase, k) && c.op == utxos[k].op && utxos[k].value == Some(c.value)
  }

  lemma PooledBefore(utxos: seq<Utxo>, x: Utxo, exclude: set<Outpoint>, coinbase: bool, c: Coin)
    ensures var more := utxos + [x];
      PooledAs(more, exclude, coinbase, c)
      <==> PooledAs(utxos, exclude, coinbase, c)
           || (Pooled(more, exclude, coinbase, |utxos|) && c.op == x.op && x.value == Some(c.value))
  {
    var more := utxos + [x];
    forall k | 0 <= k < |utxos| ensures Pooled(more, exclude, coinbase, k) <==> Pooled(utxos, exclude, coinbase, k) {
      assert more[k] == utxos[k] && forall j :: 0 <= j < k ==> more[j] == utxos[j];
      assert forall j :: 0 <= j <= k ==> Counts(more, exclude, j) == Counts(utxos, exclude, j);
    }
    if PooledAs(utxos, exclude, coinbase, c) {
      var k :| 0 <= k < |utxos| && Pooled(utxos, exclude, coinbase, k) && c.op == utxos[k].op && utxos[k].value == Some(c.value);
      assert Pooled(more, exclude, coinbase, k) && more[k] == utxos[k];
    }
    if PooledAs(more, exclude, coinbase, c) {
      var k :| 0 <= k < |more| && Pooled(more, exclude, coinbase, k) && c.op == more[k].op && more[k].value == Some(c.value);
      if k < |utxos| { assert Pooled(utxos, exclude, coinbase, k) && more[k] == utxos[k]; }
    }
  }

  /** The pool holds exactly the coins that are to be in it. */
  lemma {:induction false} PoolExact(utxos: seq<Utxo>, exclude: set<Outpoint>, coinbase: bool, c: Coin)
    ensures c in Pool(utxos, exclude, coinbase) <==> PooledAs(utxos, exclude, coinbase, c)
  {
    if utxos != [] {
      var rest, x := utxos[..|utxos| - 1], utxos[|utxos| - 1];
      assert utxos == rest + [x];
      PoolExact(rest, exclude, coinbase, c);
      PooledBefore(rest, x, exclude, coinbase, c);
      LastPooled(rest, x, exclude, coinbase);
    }
  }

  lemma LastPooled(rest: seq<Utxo>, x: Utxo, exclude: set<Outpoint>, coinbase: bool)
    ensures Pooled(rest + [x], exclude, coinbase, |rest|)
            <==> Eligible(x, exclude) && x.op !in Taken(rest, exclude) && (coinbase || !x.coinbase)
  {
    var more := rest + [x];
    assert forall j :: 0 <= j < |rest| ==> more[j] == rest[j] && Counts(more, exclude, j) == Eligible(rest[j], exclude);
    if x.op in Taken(rest, exclude) {
      var j :| 0 <= j < |rest| && Eligible(rest[j], exclude) && rest[j].op == x.op;
      assert more[j].op == more[|rest|].op && Counts(more, exclude, j);
    }
  }

  // ----- ranking -----

  function Insert(s: seq<Coin>, c: Coin): seq<Coin> {
    if s == [] || s[|s| - 1].value >= c.value then s + [c] else Insert(s[..|s| - 1], c) + [s[|s| - 1]]
  }

  /** Largest first; ties keep their order. */
  function Ranked(s: seq<Coin>): seq<Coin> { if s == [] then [] else Insert(Ranked(s[..|s| - 1]), s[|s| - 1]) }

  ghost predicate Descending(s: seq<Coin>) { forall i, j :: 0 <= i < j < |s| ==> s[i].value >= s[j].value }

  lemma {:induction false} InsertAdds(s: seq<Coin>, c: Coin)
    ensures Sum(Insert(s, c)) == Sum(s) + c.value
  {
    if s == [] || s[|s| - 1].value >= c.value {
      assert (s + [c])[..|s|] == s;
    } else {
      var rest, l := s[..|s| - 1], s[|s| - 1];
      InsertAdds(rest, c);
      assert (Insert(rest, c) + [l])[..|Insert(rest, c)|] == Insert(rest, c);
    }
  }

  lemma {:induction false} InsertHas(s: seq<Coin>, c: Coin, x: Coin)
    ensures x in Insert(s, c) <==> x in s || x == c
  {
    if s != [] && s[|s| - 1].value < c.value {
      InsertHas(s[..|s| - 1], c, x);
      assert s == s[..|s| - 1] + [s[|s| - 1]];
    }
  }

  lemma {:induction false} InsertRanks(s: seq<Coin>, c: Coin)
    requires Descending(s)
    ensures Descending(Insert(s, c))
  {
    if s != [] && s[|s| - 1].value < c.value {
      var rest, l := s[..|s| - 1], s[|s| - 1];
      InsertRanks(rest, c);
      var r := Insert(rest, c);
      forall k | 0 <= k < |r| ensures r[k].value >= l.value { InsertHas(rest, c, r[k]); }
    }
  }

  lemma {:induction false} RankedOrder(s: seq<Coin>)
    ensures Descending(Ranked(s)) && Sum(Ranked(s)) == Sum(s)
  {
    hide Insert, Descending;
    if s != [] {
      RankedOrder(s[..|s| - 1]);
      InsertRanks(Ranked(s[..|s| - 1]), s[|s| - 1]);
      InsertAdds(Ranked(s[..|s| - 1]), s[|s| - 1]);
    } else {
      NoneDescend();
    }
  }

  lemma NoneDescend()
    ensures Descending([])
  {
  }

  lemma {:induction false} RankedHas(s: seq<Coin>, x: Coin)
    ensures x in Ranked(s) <==> x in s
  {
    hide Insert;
    if s != [] {
      RankedHas(s[..|s| - 1], x);
      InsertHas(Ranked(s[..|s| - 1]), s[|s| - 1], x);
      assert s == s[..|s| - 1] + [s[|s| - 1]];
    }
  }

  lemma RankedIs(s: seq<Coin>)
    ensures Descending(Ranked(s)) && Sum(Ranked(s)) == Sum(s) && forall x :: x in Ranked(s) <==> x in s
  {
    hide Ranked, Descending, Sum;
    RankedOrder(s);
    forall x ensures x in Ranked(s) <==> x in s { RankedHas(s, x); }
  }

  lemma {:induction false} RankedDistinct(s: seq<Coin>)
    requires DistinctCoins(s)
    ensures DistinctCoins(Ranked(s)) && |Ranked(s)| == |s|
  {
    RankedIs(s);
    if s != [] {
      var rest, c := s[..|s| - 1], s[|s| - 1];
      RankedDistinct(rest);
      RankedIs(rest);
      assert forall x :: x in rest ==> x.op != c.op;
      InsertDistinct(Ranked(rest), c);
    }
  }

  lemma {:induction false} InsertDistinct(s: seq<Coin>, c: Coin)
    requires DistinctCoins(s) && Descending(s) && forall x :: x in s ==> x.op != c.op
    ensures DistinctCoins(Insert(s, c)) && |Insert(s, c)| == |s| + 1
  {
    if !(s == [] || s[|s| - 1].value >= c.value) {
      var rest, l := s[..|s| - 1], s[|s| - 1];
      InsertDistinct(rest, c);
      var r := Insert(rest, c);
      forall k | 0 <= k < |r| ensures r[k].op != l.op { InsertHas(rest, c, r[k]); }
    } else {
      assert forall k :: 0 <= k < |s| ==> s[k] in s;
    }
  }

  // ----- taking from a ranked pool -----

  lemma SumNone(s: seq<Coin>)
    ensures s[..0] == [] && Sum(s[..0]) == 0
  {
  }

  lemma SumNext(s: seq<Coin>, i: nat)
    requires i < |s|
    ensures s[..i + 1] == s[..i] + [s[i]] && Sum(s[..i + 1]) == Sum(s[..i]) + s[i].value
  {
    assert s[..i + 1][..i] == s[..i];
  }

  /** A sum past the safe range never comes back into it. */
  lemma OverIsOver(ranked: seq<Coin>, n: nat)
    requires n <= |ranked| && Sum(ranked[..n]) > MAX_SAFE_INTEGER
    ensures forall k :: n <= k <= |ranked| ==> Sum(ranked[..k]) > MAX_SAFE_INTEGER
  {
    forall k | n <= k <= |ranked| ensures Sum(ranked[..k]) > MAX_SAFE_INTEGER { PrefixGrows(ranked, n, k); }
  }

  /** Take ranked coins until they cover `need`, within the input cap and the safe range. */
  method Take(ranked: seq<Coin>, need: int) returns (r: Option<Selection>)
    ensures r.Some? ==>
              var k := |r.value.inputs|;
              && 1 <= k <= |ranked| && k <= MAX_TX_INPUTS && r.value.inputs == ranked[..k]
              && r.value.total == Sum(ranked[..k]) && need <= r.value.total <= MAX_SAFE_INTEGER
              && forall j :: 1 <= j < k ==> Sum(ranked[..j]) < need
    ensures r.None? ==> forall k :: 1 <= k <= |ranked| && k <= MAX_TX_INPUTS && Sum(ranked[..k]) <= MAX_SAFE_INTEGER ==> Sum(ranked[..k]) < need
  {
    hide Sum;
    var inputs: seq<Coin>, total: nat := [], 0;
    SumNone(ranked);
    for i := 0 to |ranked|
      invariant inputs == ranked[..i] && total == Sum(ranked[..i]) && i <= MAX_TX_INPUTS
      invariant forall j :: 1 <= j <= i ==> Sum(ranked[..j]) < need
    {
      SumNext(ranked, i);
      total := total + ranked[i].value;
      if total > MAX_SAFE_INTEGER {
        OverIsOver(ranked, i + 1);
        return None;
      }
      inputs := inputs + [ranked[i]];
      if |inputs| > MAX_TX_INPUTS { return None; }
      if total >= need { return Some(Selection(inputs, total)); }
    }
    return None;
  }

  lemma {:induction false} PrefixGrows(s: seq<Coin>, j: nat, k: nat)
    requires j <= k <= |s|
    ensures Sum(s[..j]) <= Sum(s[..k])
  {
    if j < k {
      PrefixGrows(s, j, k - 1);
      assert s[..k][..k - 1] == s[..k - 1];
    }
  }

  // ----- no choice beats the largest coins -----

  lemma {:induction false} SumWithout(s: seq<Coin>, i: nat)
    requires i < |s|
    ensures Sum(s) == Sum(s[..i] + s[i + 1..]) + s[i].value
  {
    if i == |s| - 1 {
      assert s[..i] + s[i + 1..] == s[..|s| - 1];
    } else {
      var rest := s[..|s| - 1];
      SumWithout(rest, i);
      var t := s[..i] + s[i + 1..];
      assert t[..|t| - 1] == rest[..i] + rest[i + 1..] && t[|t| - 1] == s[|s| - 1];
    }
  }

  /** A choice of distinct coins of a pool. */
  ghost predicate Picks(cs: seq<Coin>, pool: seq<Coin>) { DistinctCoins(cs) && forall c :: c in cs ==> c in pool }

  lemma PickedIn(cs: seq<Coin>, pool: seq<Coin>, k: nat)
    requires Picks(cs, pool) && k < |cs|
    ensures cs[k] in pool
  {
  }

  /** Drop the smallest coin of the pool from a choice that has it. */
  lemma PickFewer(ranked: seq<Coin>, cs: seq<Coin>, i: nat)
    requires DistinctCoins(ranked) && ranked != [] && Picks(cs, ranked) && i < |cs| && cs[i] == ranked[|ranked| - 1]
    ensures Picks(cs[..i] + cs[i + 1..], ranked[..|ranked| - 1])
  {
    var rest, l, fewer := ranked[..|ranked| - 1], ranked[|ranked| - 1], cs[..i] + cs[i + 1..];
    assert ranked == rest + [l];
    forall k | 0 <= k < |fewer| ensures fewer[k] in rest {
      var c := cs[if k < i then k else k + 1];
      assert fewer[k] == c && c in cs;
      assert c.op != l.op;
    }
    forall j, k | 0 <= j < k < |fewer| ensures fewer[j].op != fewer[k].op {
      assert fewer[j] == cs[if j < i then j else j + 1] && fewer[k] == cs[if k < i then k else k + 1];
    }
  }

  /** No choice of coins is worth more than as many of the largest. */
  lemma {:induction false} LargestAreBest(ranked: seq<Coin>, cs: seq<Coin>)
    requires Descending(ranked) && DistinctCoins(ranked) && Picks(cs, ranked)
    ensures |cs| <= |ranked| && Sum(cs) <= Sum(ranked[..|cs|])
  {
    if ranked == [] {
      if cs != [] { PickedIn(cs, ranked, 0); }
    } else {
      var rest, l := ranked[..|ranked| - 1], ranked[|ranked| - 1];
      if l in cs {
        var i :| 0 <= i < |cs| && cs[i] == l;
        var fewer := cs[..i] + cs[i + 1..];
        SumWithout(cs, i);
        PickFewer(ranked, cs, i);
        LargestAreBest(rest, fewer);
        OneMore(ranked, |fewer|);
      } else {
        assert ranked == rest + [l];
        LargestAreBest(rest, cs);
        assert rest[..|cs|] == ranked[..|cs|];
      }
    }
  }

  /** The next coin of a ranked pool is worth at least the last one. */
  lemma OneMore(ranked: seq<Coin>, n: nat)
    requires Descending(ranked) && n < |ranked|
    ensures Sum(ranked[..n + 1]) >= Sum(ranked[..|ranked| - 1][..n]) + ranked[|ranked| - 1].value
  {
    assert ranked[..n + 1][..n] == ranked[..n] == ranked[..|ranked| - 1][..n];
    assert ranked[..n + 1][n] == ranked[n];
  }

  /** The coins the selection may use: all confirmed ones, or the non-coinbase ones among them. */
  function Candidates(utxos: seq<Utxo>, exclude: set<Outpoint>, coinbase: bool): seq<Coin> { Ranked(Pool(utxos, exclude, coinbase)) }

  /** The first `n` of a ranked list, or all of it. */
  function Largest(ranked: seq<Coin>, n: nat): seq<Coin> { ranked[..if |ranked| < n then |ranked| else n] }

  lemma CandidatesSound(utxos: seq<Utxo>, exclude: set<Outpoint>, coinbase: bool)
    ensures var ranked := Candidates(utxos, exclude, coinbase);
      && Descending(ranked) && DistinctCoins(ranked) && Sum(ranked) == Sum(Pool(utxos, exclude, coinbase))
      && (forall c :: c in ranked <==> c in Pool(utxos, exclude, coinbase))
      && forall c :: c in ranked ==> c.op !in exclude && 0 < c.value <= MAX_SAFE_INTEGER
  {
    PoolSound(utxos, exclude, coinbase);
    RankedIs(Pool(utxos, exclude, coinbase));
    RankedDistinct(Pool(utxos, exclude, coinbase));
    var pool := Pool(utxos, exclude, coinbase);
    forall c | c in pool ensures c.op !in exclude && 0 < c.value <= MAX_SAFE_INTEGER {
      var k :| 0 <= k < |pool| && pool[k] == c;
    }
  }

  /** One pass over the served list: eligible, first of its outpoint. */
  method Confirmed(utxos: seq<Utxo>, exclude: set<Outpoint>) returns (all: seq<Coin>, spendable: seq<Coin>)
    ensures all == Pool(utxos, exclude, true) && spendable == Pool(utxos, exclude, false)
  {
    var seen: set<Outpoint> := {};
    all, spendable := [], [];
    for i := 0 to |utxos|
      invariant seen == Taken(utxos[..i], exclude)
      invariant all == Pool(utxos[..i], exclude, true) && spendable == Pool(utxos[..i], exclude, false)
    {
      var x := utxos[i];
      assert utxos[..i + 1][..i] == utxos[..i] && utxos[..i + 1] == utxos[..i] + [x];
      TakenPush(utxos[..i], x, exclude);
      if !Eligible(x, exclude) || x.op in seen { continue; }
      seen := seen + {x.op};
      all := all + [CoinOf(x)];
      if !x.coinbase { spendable := spendable + [CoinOf(x)]; }
    }
    assert utxos[..|utxos|] == utxos;
  }

  /** Select coins. A selection takes distinct eligible coins, at most 512, that cover the need, and for a positive
      need no choice from the pool it used covers it with fewer. A refusal means that no 512 eligible coins cover it, as long
      as the sum of the 512 largest stays in the safe range; and a coinbase coin is spent only if no 512 others cover it. */
  method SelectInputs(utxos: seq<Utxo>, need: int, exclude: set<Outpoint>) returns (r: Option<Selection>)
    ensures r.Some? ==>
              var sel := r.value;
              && DistinctCoins(sel.inputs) && |sel.inputs| <= MAX_TX_INPUTS && need <= sel.total == Sum(sel.inputs)
              && (forall c :: c in sel.inputs ==> c in Pool(utxos, exclude, true))
              && exists coinbase: bool ::
                   (forall c :: c in sel.inputs ==> c in Pool(utxos, exclude, coinbase))
                   && (need > 0 ==>
                         forall cs :: Picks(cs, Pool(utxos, exclude, coinbase)) && Sum(cs) >= need ==> |cs| >= |sel.inputs|)
    ensures r.None? && need > 0 && Sum(Largest(Candidates(utxos, exclude, true), MAX_TX_INPUTS)) <= MAX_SAFE_INTEGER ==>
              forall cs :: Picks(cs, Pool(utxos, exclude, true)) && |cs| <= MAX_TX_INPUTS ==> Sum(cs) < need
    ensures r.Some? && need > 0 && Sum(Largest(Candidates(utxos, exclude, false), MAX_TX_INPUTS)) <= MAX_SAFE_INTEGER
            && (exists cs :: Picks(cs, Pool(utxos, exclude, false)) && |cs| <= MAX_TX_INPUTS && Sum(cs) >= need) ==>
              forall c :: c in r.value.inputs ==> c in Pool(utxos, exclude, false)
  {
    var all, spendable := Confirmed(utxos, exclude);
    var first := Ranked(spendable);
    r := Take(first, need);
    SpendableIsConfirmed(utxos, exclude);
    if r.Some? {
      TakenIsSmallest(utxos, exclude, false, need, r.value);
      return;
    }
    if need > 0 { NothingCovers(utxos, exclude, false, need); }
    var second := Ranked(all);
    r := Take(second, need);
    if r.Some? { TakenIsSmallest(utxos, exclude, true, need, r.value); } else if need > 0 { NothingCovers(utxos, exclude, true, need); }
  }

  lemma TakenIsSmallest(utxos: seq<Utxo>, exclude: set<Outpoint>, coinbase: bool, need: int, sel: Selection)
    requires var ranked, k := Candidates(utxos, exclude, coinbase), |sel.inputs|;
      && 1 <= k <= |ranked| && sel.inputs == ranked[..k] && sel.total == Sum(ranked[..k]) && need <= sel.total
      && forall j :: 1 <= j < k ==> Sum(ranked[..j]) < need
    ensures DistinctCoins(sel.inputs) && sel.total == Sum(sel.inputs)
    ensures forall c :: c in sel.inputs ==> c in Pool(utxos, exclude, coinbase)
    ensures need > 0 ==> forall cs :: Picks(cs, Pool(utxos, exclude, coinbase)) && Sum(cs) >= need ==> |cs| >= |sel.inputs|
  {
    hide Pool, Ranked;
    CandidatesSound(utxos, exclude, coinbase);
    var ranked, pool := Candidates(utxos, exclude, coinbase), Pool(utxos, exclude, coinbase);
    forall cs | need > 0 && Picks(cs, pool) && Sum(cs) >= need ensures |cs| >= |sel.inputs| {
      LargestAreBest(ranked, cs);
      assert Sum([]) == 0;
    }
  }

  lemma NothingCovers(utxos: seq<Utxo>, exclude: set<Outpoint>, coinbase: bool, need: int)
    requires need > 0
    requires var ranked := Candidates(utxos, exclude, coinbase);
      forall k :: 1 <= k <= |ranked| && k <= MAX_TX_INPUTS && Sum(ranked[..k]) <= MAX_SAFE_INTEGER ==> Sum(ranked[..k]) < need
    ensures Sum(Largest(Candidates(utxos, exclude, coinbase), MAX_TX_INPUTS)) <= MAX_SAFE_INTEGER ==>
              forall cs :: Picks(cs, Pool(utxos, exclude, coinbase)) && |cs| <= MAX_TX_INPUTS ==> Sum(cs) < need
  {
    hide Pool, Ranked;
    CandidatesSound(utxos, exclude, coinbase);
    var ranked, pool := Candidates(utxos, exclude, coinbase), Pool(utxos, exclude, coinbase);
    var most := Largest(ranked, MAX_TX_INPUTS);
    if Sum(most) <= MAX_SAFE_INTEGER {
      forall cs | Picks(cs, pool) && |cs| <= MAX_TX_INPUTS ensures Sum(cs) < need {
        LargestAreBest(ranked, cs);
        PrefixGrows(ranked, |cs|, |most|);
        if cs == [] { assert Sum(cs) == 0; }
      }
    }
  }

  // ----- assembling -----

  const MAX_FEE_BACKSTOP: nat := 100_000_000
  const FEERATE_SCALE: nat := 1_000_000

  datatype BuildResult = Built(tx: Tx, change: nat, inTotal: nat, fee: nat) | Refused

  function FeeCap(inTotal: nat): nat { if inTotal / 10 > MAX_FEE_BACKSTOP then inTotal / 10 else MAX_FEE_BACKSTOP }

  function SumOut(outs: seq<TxOutput>): nat { if outs == [] then 0 else SumOut(outs[..|outs| - 1]) + outs[|outs| - 1].value }

  /** An output as a caller asks for it; None is an amount that is not a whole number. */
  datatype Request = Request(value: Option<int>, to: seq<byte>)

  predicate RequestOk(o: Request) { |o.to| == 20 && o.value.Some? && 0 <= o.value.value <= MAX_SAFE_INTEGER }

  ghost predicate Requested(outs: seq<TxOutput>, asked: seq<Request>) {
    |outs| == |asked| && forall k :: 0 <= k < |asked| ==> RequestOk(asked[k]) && outs[k] == OutputFor(asked[k])
  }

  function SumAsked(asked: seq<Request>): nat {
    if asked == [] then 0
    else
      var o := asked[|asked| - 1];
      SumAsked(asked[..|asked| - 1]) + if RequestOk(o) then o.value.value else 0
  }

  /** What a caller may ask for: amounts and fees below 2^53, their sum too, paid to scripts of twenty bytes. */
  ghost predicate Acceptable(asked: seq<Request>, fee: int, maxFee: Option<int>) {
    && 0 <= fee < 0x20_0000_0000_0000 && (maxFee.Some? ==> 0 <= maxFee.value < 0x20_0000_0000_0000)
    && (forall k :: 0 <= k < |asked| ==>
          |asked[k].to| == 20 && asked[k].value.Some? && 0 <= asked[k].value.value < 0x20_0000_0000_0000)
    && SumAsked(asked) < 0x20_0000_0000_0000
  }

  lemma RequestIs(o: Request)
    ensures RequestOk(o) <==> |o.to| == 20 && o.value.Some? && 0 <= o.value.value < 0x20_0000_0000_0000
  {
  }

  lemma {:induction false} SumAskedGrows(asked: seq<Request>, k: nat)
    requires k <= |asked|
    ensures SumAsked(asked[..k]) <= SumAsked(asked)
  {
    if k < |asked| {
      SumAskedGrows(asked[..|asked| - 1], k);
      assert asked[..|asked| - 1][..k] == asked[..k];
    } else {
      assert asked[..k] == asked;
    }
  }

  /** Check the outputs and the fee, and sum the outputs. */
  method ValidateOuts(asked: seq<Request>, fee: int, maxFee: Option<int>) returns (r: Option<(seq<TxOutput>, nat)>)
    ensures r.Some? <==> Acceptable(asked, fee, maxFee)
    ensures r.Some? ==> Requested(r.value.0, asked) && r.value.1 == SumOut(r.value.0) == SumAsked(asked)
  {
    hide RequestOk;
    forall k | 0 <= k < |asked| { RequestIs(asked[k]); }
    if fee < 0 || fee > MAX_SAFE_INTEGER { return None; }
    if maxFee.Some? && !(0 <= maxFee.value <= MAX_SAFE_INTEGER) { return None; }
    var outs: seq<TxOutput>, sum: nat := [], 0;
    for k := 0 to |asked|
      invariant forall i :: 0 <= i < k ==> RequestOk(asked[i])
      invariant Requested(outs, asked[..k]) && sum == SumOut(outs) == SumAsked(asked[..k]) <= MAX_SAFE_INTEGER
    {
      if !RequestOk(asked[k]) { return None; }
      var o := OutputFor(asked[k]);
      assert (outs + [o])[..|outs|] == outs && asked[..k + 1][..k] == asked[..k];
      outs := outs + [o];
      sum := sum + o.value;
      if sum > MAX_SAFE_INTEGER {
        SumAskedGrows(asked, k + 1);
        return None;
      }
    }
    assert asked[..|asked|] == asked;
    r := Some((outs, sum));
  }

  function OutputFor(o: Request): (r: TxOutput)
    requires RequestOk(o)
    ensures o.value.Some? && o.value.value >= 0 && r == TxOutput(o.value.value, o.to)
  {
    TxOutput(o.value.value, o.to)
  }

  function InputOf(c: Coin): TxInput { TxInput(c.op.txid, c.op.vout, []) }

  function InputsOf(cs: seq<Coin>): (r: seq<TxInput>)
    ensures |r| == |cs| && forall k :: 0 <= k < |r| ==> r[k] == InputOf(cs[k])
  {
    seq(|cs|, k requires 0 <= k < |cs| => InputOf(cs[k]))
  }

  /** Put the one signature script into every input. */
  function Signed(tx: Tx, scriptSig: seq<byte>): (r: Tx)
    ensures |r.inputs| == |tx.inputs| && r.outputs == tx.outputs && r.app == tx.app
    ensures r.version == tx.version && r.locktime == tx.locktime
    ensures forall k :: 0 <= k < |r.inputs| ==> r.inputs[k] == tx.inputs[k].(scriptSig := scriptSig)
  {
    tx.(inputs := seq(|tx.inputs|, k requires 0 <= k < |tx.inputs| => tx.inputs[k].(scriptSig := scriptSig)))
  }

  /** Assemble and sign from a selection, given the authoritative input total. An assembled transaction spends exactly
      the selected coins, makes the requested outputs unchanged and in order, sends any change to the sender as the one
      further output, and its inputs are worth its outputs and its fee. */
  method Assemble(sel: Selection, total: int, outs: seq<TxOutput>, sumOut: nat, fee: nat, app: App, scriptSig: seq<byte>,
                  addr: seq<byte>, maxFee: Option<nat>) returns (r: BuildResult)
    requires sumOut == SumOut(outs)
    ensures r.Built? ==>
              && r.inTotal == total == SumOut(r.tx.outputs) + r.fee && r.fee == fee && total == sumOut + fee + r.change
              && |r.tx.inputs| == |sel.inputs|
              && (forall k :: 0 <= k < |sel.inputs| ==> r.tx.inputs[k] == InputOf(sel.inputs[k]).(scriptSig := scriptSig))
              && r.tx.outputs == outs + (if r.change > 0 then [TxOutput(r.change, addr)] else [])
              && r.tx.version == 1 && r.tx.locktime == 0
              && |r.tx.outputs| <= MAX_TX_OUTPUTS && r.tx.app == app && InRange(r.tx)
              && (if maxFee.Some? then fee <= maxFee.value else fee * 10 <= total || fee <= 100_000_000)
              && |Encode(r.tx)| <= fee * FEERATE_SCALE
    ensures r.Refused? ==>
              || !(-0x20_0000_0000_0000 < total < 0x20_0000_0000_0000) || total < sumOut + fee
              || (if maxFee.Some? then fee > maxFee.value else fee * 10 > total && fee > 100_000_000)
              || |outs| + (if total > sumOut + fee then 1 else 0) > MAX_TX_OUTPUTS
              || var change := if total > sumOut + fee then [TxOutput(total - sumOut - fee, addr)] else [];
                 var tx := Signed(Tx(1, InputsOf(sel.inputs), outs + change, 0, app), scriptSig);
                 !InRange(tx) || |Encode(tx)| > fee * FEERATE_SCALE
  {
    hide InRange, Encode;
    var need := sumOut + fee;
    if !Safe(total) || total < need { return Refused; }
    var change: nat := total - need;
    var cap := if maxFee.Some? then maxFee.value else FeeCap(total);
    if fee > cap { return Refused; }
    var outputs := outs;
    if change > 0 {
      assert (outs + [TxOutput(change, addr)])[..|outs|] == outs;
      outputs := outputs + [TxOutput(change, addr)];
    } else {
      assert outs + [] == outs;
    }
    if |outputs| > MAX_TX_OUTPUTS { return Refused; }
    var tx := Signed(Tx(1, InputsOf(sel.inputs), outputs, 0, app), scriptSig);
    if !InRange(tx) || fee * FEERATE_SCALE < |Encode(tx)| { return Refused; }
    r := Built(tx, change, total, fee);
  }

  /** The whole pipeline: what is selected, paid, returned and burned as fee adds up. */
  method SelectAndAssemble(utxos: seq<Utxo>, asked: seq<Request>, fee: int, app: App, scriptSig: seq<byte>, addr: seq<byte>,
                           maxFee: Option<int>) returns (r: BuildResult, spent: seq<Coin>)
    ensures r.Built? ==>
              && DistinctCoins(spent) && (forall c :: c in spent ==> c in Pool(utxos, {}, true))
              && |r.tx.inputs| == |spent| <= MAX_TX_INPUTS
              && (forall k :: 0 <= k < |spent| ==> r.tx.inputs[k].prevTxid == spent[k].op.txid && r.tx.inputs[k].vout == spent[k].op.vout)
              && Sum(spent) == SumOut(r.tx.outputs) + fee
              && |r.tx.outputs| >= |asked| && Requested(r.tx.outputs[..|asked|], asked)
              && r.tx.outputs[|asked|..] == (if r.change > 0 then [TxOutput(r.change, addr)] else [])
  {
    hide Pool, InRange, Encode, DistinctCoins, Sum, Picks, Requested;
    spent := [];
    var v := ValidateOuts(asked, fee, maxFee);
    if v.None? { return Refused, []; }
    var (outs, sumOut) := v.value;
    var sel := SelectInputs(utxos, sumOut + fee, {});
    if sel.None? { return Refused, []; }
    spent := sel.value.inputs;
    var cap: Option<nat> := None;
    if maxFee.Some? { cap := Some(maxFee.value); }
    r := Assemble(sel.value, sel.value.total, outs, sumOut, fee, app, scriptSig, addr, cap);
    if r.Built? { RequestedLength(outs, asked); }
  }

  lemma RequestedLength(outs: seq<TxOutput>, asked: seq<Request>)
    requires Requested(outs, asked)
    ensures |outs| == |asked| && forall more :: (outs + more)[..|asked|] == outs && (outs + more)[|asked|..] == more
  {
  }

  lemma {:induction false} SpendableIsConfirmed(utxos: seq<Utxo>, exclude: set<Outpoint>)
    ensures forall c :: c in Pool(utxos, exclude, false) ==> c in Pool(utxos, exclude, true)
  {
    if utxos != [] { SpendableIsConfirmed(utxos[..|utxos| - 1], exclude); }
  }
}
