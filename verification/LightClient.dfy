/** The light client as it runs: the chain array and its base height, updated in place by ingest, reorg, seed and
    restore (packages/light/src/index.ts). A thrown error is a refusal. */
module LightClients {
  import opened Rules
  import opened Bytes
  import opened Headers
  import opened Lwma
  import opened LightChain

  datatype ReorgResult = Adopted(rolledBack: nat, newTip: nat) | Kept

  class LightClient {
    const cfg: Config
    var baseHeight: nat
    var chain: seq<VerifiedHeader>

    ghost function Model(): Chain reads this { Chain(baseHeight, chain) }

    ghost predicate Valid() reads this { ChainOk(cfg, Model()) }

    constructor (cfg: Config)
      ensures this.cfg == cfg && Valid() && Model() == Chain(0, [])
    {
      this.cfg := cfg;
      baseHeight, chain := 0, [];
    }

    /** Verify a single header and append it. */
    method IngestHeader(o: Offered, now: nat) returns (ok: bool)
      requires Valid()
      modifies this`chain
      ensures Valid() && ok == Ingest(cfg, now, old(Model()), o).Some?
      ensures Model() == if ok then Ingest(cfg, now, old(Model()), o).value else old(Model())
    {
      hide ChainOk, VerifyOne, WindowAt;
      if o.height != baseHeight + |chain| { return false; }
      var parent := if chain == [] then None else Some(chain[|chain| - 1]);
      var vh := VerifyOne(cfg, now, o.height, o.header, WindowAt(chain, |chain|), parent, o.hash);
      if vh.None? { return false; }
      IngestKeeps(cfg, now, Model(), o);
      chain := chain + [vh.value];
      return true;
    }

    /** Verify a competing branch from the ancestor it names, over a window that slides along with it, and adopt it when
        it carries more work: the result is that of replaying the branch header by header. */
    method TryReorg(alt: seq<Offered>, now: nat) returns (r: ReorgResult)
      requires Valid()
      modifies this`chain
      ensures Valid()
      ensures r.Adopted? == Reorg(cfg, now, old(Model()), alt).Some?
      ensures Model() == if r.Adopted? then Reorg(cfg, now, old(Model()), alt).value else old(Model())
      ensures r.Adopted? ==> r.newTip == baseHeight + |chain| - 1 && r.rolledBack == |old(chain)| + |alt| - |chain|
    {
      hide ChainOk, VerifyOne, WindowAt, Ingest;
      if alt == [] { return Kept; }
      var ancestorHeight: int := alt[0].height;
      ancestorHeight := ancestorHeight - 1;
      if !(baseHeight <= ancestorHeight < baseHeight + |chain|) { return Kept; }
      var verified := VerifyBranch(alt, ancestorHeight, now);
      if verified.None? { return Kept; }
      var kept := chain[..ancestorHeight - baseHeight + 1];
      IngestAllAppends(cfg, now, Truncate(Model(), ancestorHeight), alt);
      var altTip := (kept + verified.value)[|kept| + |verified.value| - 1];
      if altTip.chainwork <= WorkBelow(chain) { return Kept; }
      ReorgKeeps(cfg, now, Model(), alt);
      r := Adopted(baseHeight + |chain| - 1 - ancestorHeight, ancestorHeight + |alt|);
      chain := kept + verified.value;
    }

    method VerifyBranch(alt: seq<Offered>, ancestorHeight: nat, now: nat) returns (verified: Option<seq<VerifiedHeader>>)
      requires baseHeight <= ancestorHeight < baseHeight + |chain|
      ensures var T := Truncate(Model(), ancestorHeight);
        match verified
        case Some(vs) => IngestAll(cfg, now, T, alt) == Some(Chain(baseHeight, T.rows + vs))
        case None => IngestAll(cfg, now, T, alt).None?
    {
      hide VerifyOne, WindowAt;
      ghost var T := Truncate(Model(), ancestorHeight);
      var out: seq<VerifiedHeader> := [];
      var prev := chain[ancestorHeight - baseHeight];
      var window := WindowAt(chain, ancestorHeight - baseHeight + 1);
      TruncatedWindow(chain, ancestorHeight - baseHeight + 1);
      assert T.rows + [] == T.rows;
      for i := 0 to |alt|
        invariant IngestAll(cfg, now, T, alt[..i]) == Some(Chain(baseHeight, T.rows + out)) && |out| == i
        invariant prev == (T.rows + out)[|T.rows| + i - 1]
        invariant window == WindowAt(T.rows + out, |T.rows| + i)
      {
        var a := alt[i];
        assert alt[..i + 1][..i] == alt[..i];
        if a.height != ancestorHeight + 1 + i {
          PrefixFails(cfg, now, T, alt, i + 1);
          return None;
        }
        var vh := VerifyOne(cfg, now, a.height, a.header, window, Some(prev), a.hash);
        if vh.None? {
          PrefixFails(cfg, now, T, alt, i + 1);
          return None;
        }
        assert T.rows + out + [vh.value] == T.rows + (out + [vh.value]);
        SlideWindow(T.rows + out, vh.value);
        VerifiedHeaderIs(cfg, now, a, window, Some(prev));
        out, prev := out + [vh.value], vh.value;
        window := window + [a.header];
        if |window| > LWMA_WINDOW { window := window[1..]; }
      }
      assert alt[..|alt|] == alt;
      verified := Some(out);
    }

    /** Seed a trusted run that ends at a pinned checkpoint. It is accepted exactly when all of it verifies and ends there;
        accepted or not, the client then holds the longest part of it that verifies. */
    method SeedTrusted(seed: seq<Offered>, checkpointHash: Hash32) returns (ok: bool)
      requires Valid()
      modifies this
      ensures Valid() && (old(chain) != [] || seed == [] ==> !ok && Model() == old(Model()))
      ensures old(chain) == [] ==> ok == Seeded(cfg, seed, checkpointHash).Some?
      ensures old(chain) == [] && seed != [] ==> Model() == SeedRead(cfg, seed[0].height, seed)
      ensures ok ==> Model() == Seeded(cfg, seed, checkpointHash).value
    {
      hide ChainOk, SeedOne;
      if chain != [] || seed == [] { return false; }
      baseHeight := seed[0].height;
      NoRows(cfg, baseHeight);
      for i := 0 to |seed|
        invariant Valid() && |chain| == i && SeedAll(cfg, seed[0].height, seed[..i]) == Some(Model())
      {
        assert seed[..i + 1][..i] == seed[..i];
        var good := SeedRow(seed[i]);
        if !good {
          SeedStops(cfg, seed[0].height, seed, i);
          return false;
        }
      }
      assert seed[..|seed|] == seed;
      ok := chain[|chain| - 1].hash == checkpointHash;
    }

    method SeedRow(s: Offered) returns (ok: bool)
      requires Valid()
      modifies this`chain
      ensures Valid() && ok == SeedOne(cfg, old(Model()), s).Some?
      ensures Model() == if ok then SeedOne(cfg, old(Model()), s).value else old(Model())
      ensures |chain| == |old(chain)| + if ok then 1 else 0
    {
      hide ChainOk, HeaderInRange, HeaderHash, PowOk, Pinned, SatAddWork;
      var i := |chain|;
      if s.height != baseHeight + i || !HeaderInRange(s.header) { return false; }
      var hash := HeaderHash(s.header, cfg.H);
      if s.hash.Some? && s.hash.value != hash { return false; }
      if i > 0 && s.header.prev != chain[i - 1].hash { return false; }
      if !PowOk(hash, s.header.bits) { return false; }
      if !Pinned(cfg.pins, s.height, hash) { return false; }
      SeedKeeps(cfg, Model(), s);
      chain := chain + [VerifiedHeader(s.height, hash, s.header, SatAddWork(WorkBelow(chain), s.header.bits), true)];
      return true;
    }

    /** The per-header restore step. */
    method RestoreRow(e: SnapRow, now: nat) returns (ok: bool)
      modifies this`chain
      ensures ok == RestoreOne(cfg, now, old(Model()), e).Some?
      ensures Model() == if ok then RestoreOne(cfg, now, old(Model()), e).value else old(Model())
    {
      hide WindowAt, ExpectedBits, TimeOk, HeaderHash, HeaderInRange, PowOk, SatAddWork, IsGenesis, Pinned;
      var i := |chain|;
      if e.height != baseHeight + i || !HeaderInRange(e.header) { return false; }
      var hash := HeaderHash(e.header, cfg.H);
      if hash != e.hash { return false; }
      if i == 0 && baseHeight == 0 && !IsGenesis(e.header, hash) { return false; }
      if i > 0 && e.header.prev != chain[i - 1].hash { return false; }
      var fullWindowAvailable := baseHeight == 0 || i >= LWMA_WINDOW;
      if baseHeight + i > 0 && (!e.trusted || fullWindowAvailable) {
        var window := WindowAt(chain, i);
        if i > 0 && !TimeOk(e.header, window, chain[i - 1].header, now) { return false; }
        if ExpectedBits(window, baseHeight + i) != Some(e.header.bits) { return false; }
      }
      if !PowOk(hash, e.header.bits) || !Pinned(cfg.pins, baseHeight + i, hash) { return false; }
      chain := chain + [VerifiedHeader(baseHeight + i, hash, e.header, SatAddWork(WorkBelow(chain), e.header.bits), e.trusted)];
      return true;
    }
  }

  /** Restore a client from a snapshot, re-verifying every header. */
  method FromSnapshot(cfg: Config, s: Snapshot, now: nat) returns (r: Option<LightClient>)
    ensures r.Some? == Restore(cfg, now, s).Some?
    ensures r.Some? ==> fresh(r.value) && r.value.Valid() && r.value.cfg == cfg && r.value.Model() == Restore(cfg, now, s).value
  {
    hide ChainOk, RestoreOne;
    if s.headers == [] || !(0 <= s.baseHeight <= MAX_SAFE_INTEGER) { return None; }
    if cfg.pins != map[] && !Anchored(cfg.pins, s.baseHeight, |s.headers|) { return None; }
    var lc := new LightClient(cfg);
    lc.baseHeight := s.baseHeight;
    for i := 0 to |s.headers|
      invariant fresh(lc) && lc.cfg == cfg && RestoreRows(cfg, now, s.baseHeight, s.headers[..i]) == Some(lc.Model())
    {
      assert s.headers[..i + 1][..i] == s.headers[..i];
      var ok := lc.RestoreRow(s.headers[i], now);
      if !ok {
        RestorePrefixFails(cfg, now, s.baseHeight, s.headers, i + 1);
        return None;
      }
    }
    assert s.headers[..|s.headers|] == s.headers;
    RestoreKeeps(cfg, now, s.baseHeight, s.headers);
    r := Some(lc);
  }

  // ----- the sliding window -----

  lemma TruncatedWindow(rows: seq<VerifiedHeader>, n: nat)
    requires n <= |rows|
    ensures WindowAt(rows[..n], n) == WindowAt(rows, n)
  {
    var lo := if n < LWMA_WINDOW then 0 else n - LWMA_WINDOW;
    assert rows[..n][lo..n] == rows[lo..n];
  }

  /** Pushing a header and dropping the oldest beyond the window length is moving on by one row. */
  lemma SlideWindow(rows: seq<VerifiedHeader>, vh: VerifiedHeader)
    ensures var slid := WindowAt(rows, |rows|) + [vh.header];
      WindowAt(rows + [vh], |rows| + 1) == if |slid| > LWMA_WINDOW then slid[1..] else slid
  {
    var n, more := |rows|, rows + [vh];
    var lo := if n < LWMA_WINDOW then 0 else n - LWMA_WINDOW;
    var hi := if n + 1 < LWMA_WINDOW then 0 else n + 1 - LWMA_WINDOW;
    var slid := WindowAt(rows, n) + [vh.header];
    var now := if |slid| > LWMA_WINDOW then slid[1..] else slid;
    forall k | 0 <= k < |now| ensures now[k] == more[hi..n + 1][k].header {
      if |slid| > LWMA_WINDOW { assert now[k] == slid[k + 1]; }
    }
    assert now == WindowAt(more, n + 1);
  }

  lemma VerifiedHeaderIs(cfg: Config, now: nat, o: Offered, window: seq<BlockHeader>, parent: Option<VerifiedHeader>)
    requires VerifyOne(cfg, now, o.height, o.header, window, parent, o.hash).Some?
    ensures VerifyOne(cfg, now, o.height, o.header, window, parent, o.hash).value.header == o.header
  {
  }
}
