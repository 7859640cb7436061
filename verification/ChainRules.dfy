/** The rules of the header chain in plain numbers (packages/light/src/index.ts, packages/codec/src/header.ts:105-146):
    what work a header proves, what it counts for, when its time is right, and what each operation therefore refuses. */
module ChainRules {
  import opened Rules
  import opened Bytes
  import opened Merkle
  import opened Headers
  import opened Lwma
  import opened LightChain

  // ----- work -----

  /** `w` is what a header at target `t` counts for: 2^256 over t + 1, rounded down, or the most a 128-bit number holds. */
  predicate CountsFor(w: nat, t: nat) {
    || w * (t + 1) <= Pow256(32) < (w + 1) * (t + 1)
    || (w + 1 == Pow256(16) && Pow256(16) * (t + 1) <= Pow256(32))
  }

  lemma WorkExact(t: nat)
    requires 0 < t <= POW_LIMIT_TARGET
    ensures CountsFor(WorkOfTarget(t), t)
  {
    hide Pow256;
    PowLimit();
    MaxWork();
    FloorParts(TWO_256, t + 1, MAX_U128 + 1);
  }

  lemma FloorParts(n: nat, d: nat, m: nat)
    requires d > 0
    ensures (n / d) * d <= n < (n / d + 1) * d && (n / d >= m ==> m * d <= n)
  {
    assert n == (n / d) * d + n % d;
    if n / d >= m { Arith.MulMonotone(m, n / d, d); }
  }

  lemma MaxWork()
    ensures Pow256(16) == MAX_U128 + 1
  {
    Widths();
    Pow256Adds(8, 8);
  }

  /** A header that counts for work at all is no easier than the limit, and one that proves none counts for none. */
  lemma NoWorkBeyond(bits: nat)
    ensures WorkOf(bits) > 0 <==> 0 < TargetOf(bits) <= POW_LIMIT_TARGET
  {
    hide TargetOf;
    if 0 < TargetOf(bits) <= POW_LIMIT_TARGET { WorkAntitone(TargetOf(bits), POW_LIMIT_TARGET); }
  }

  // ----- what every row proves -----

  /** The header's own hash, read as a number, is no more than the target its bits encode, and that is within the limit. */
  predicate Mined(header: BlockHeader, H: Hasher) {
    HeaderInRange(header) && FromBE(H(EncodeHeader(header))) <= TargetOf(header.bits) <= POW_LIMIT_TARGET && TargetOf(header.bits) > 0
  }

  lemma RowMined(cfg: Config, c: Chain, i: nat)
    requires ChainOk(cfg, c) && i < |c.rows|
    ensures Mined(c.rows[i].header, cfg.H) && c.rows[i].hash == cfg.H(EncodeHeader(c.rows[i].header))
  {
    hide FromBE, TargetOf, EncodeHeader, Derived;
    assert RowOk(cfg, c.base, c.rows, i);
  }

  /** Every row of every chain that a client reaches - restored from a snapshot or seeded, then fed any headers and
      reorganised in any way - was mined at its own target. */
  lemma EveryRowMined(cfg: Config, c: Chain, ops: seq<Op>, now: nat, s: Snapshot, seed: seq<Offered>, checkpoint: Hash32, i: nat)
    requires c == Chain(0, []) || Restore(cfg, now, s) == Some(c) || Seeded(cfg, seed, checkpoint) == Some(c)
    requires i < |PerformAll(cfg, c, ops).rows|
    ensures Mined(PerformAll(cfg, c, ops).rows[i].header, cfg.H)
  {
    hide ChainOk, Mined, PerformAll, RestoreRows, SeedOne;
    if c == Chain(0, []) {
      NoRows(cfg, 0);
    } else if Restore(cfg, now, s) == Some(c) {
      RestoreKeeps(cfg, now, s.baseHeight, s.headers);
    } else {
      SeedAllKeeps(cfg, seed[0].height, seed);
    }
    PerformAllKeeps(cfg, c, ops);
    RowMined(cfg, PerformAll(cfg, c, ops), i);
  }

  lemma {:induction false} SeedAllKeeps(cfg: Config, base: nat, seed: seq<Offered>)
    requires SeedAll(cfg, base, seed).Some?
    ensures ChainOk(cfg, SeedAll(cfg, base, seed).value)
  {
    hide ChainOk, SeedOne;
    if seed == [] {
      NoRows(cfg, base);
    } else {
      SeedAllKeeps(cfg, base, seed[..|seed| - 1]);
      SeedKeeps(cfg, SeedAll(cfg, base, seed[..|seed| - 1]).value, seed[|seed| - 1]);
    }
  }

  /** A header that was not mined at its own target is refused wherever it comes: ingested, in a branch, in a seed, in a
      snapshot. */
  lemma UnminedRefused(cfg: Config, now: nat, c: Chain, o: Offered, e: SnapRow)
    requires !Mined(o.header, cfg.H) && !Mined(e.header, cfg.H)
    ensures Ingest(cfg, now, c, o).None? && SeedOne(cfg, c, o).None? && RestoreOne(cfg, now, c, e).None?
  {
    hide FromBE, TargetOf, EncodeHeader, TimeOk, ExpectedBits, WindowAt, IsGenesis, Pinned, SatAddWork;
  }

  lemma {:induction false} UnminedBranchRefused(cfg: Config, now: nat, c: Chain, alt: seq<Offered>, k: nat)
    requires k < |alt| && !Mined(alt[k].header, cfg.H)
    ensures Reorg(cfg, now, c, alt).None? && SeedAll(cfg, c.base, alt).None?
    ensures forall checkpoint: Hash32 :: Seeded(cfg, alt, checkpoint).None?
  {
    hide Ingest, SeedOne, Mined;
    var e := SnapRow(0, ZERO_HASH, alt[k].header, false);
    forall d: Chain ensures Ingest(cfg, now, d, alt[k]).None? && SeedOne(cfg, d, alt[k]).None? {
      UnminedRefused(cfg, now, d, alt[k], e);
    }
    assert alt[..k + 1][..k] == alt[..k];
    forall d: Chain ensures IngestAll(cfg, now, d, alt).None? { PrefixFails(cfg, now, d, alt, k + 1); }
    forall base: nat ensures SeedAll(cfg, base, alt).None? { SeedFails(cfg, base, alt, k + 1); }
  }

  const ZERO_HASH: Hash32 := Zeros(32)

  lemma {:induction false} SeedFails(cfg: Config, base: nat, seed: seq<Offered>, k: nat)
    requires k <= |seed| && SeedAll(cfg, base, seed[..k]).None?
    ensures SeedAll(cfg, base, seed).None?
  {
    if k == |seed| {
      assert seed[..k] == seed;
    } else {
      assert seed[..|seed| - 1][..k] == seed[..k];
      SeedFails(cfg, base, seed[..|seed| - 1], k);
    }
  }

  lemma UnminedSnapshotRefused(cfg: Config, now: nat, s: Snapshot, k: nat)
    requires k < |s.headers| && !Mined(s.headers[k].header, cfg.H)
    ensures Restore(cfg, now, s).None?
  {
    hide RestoreOne, Mined;
    if Readable(cfg, s) {
      var e := s.headers[k];
      forall d: Chain ensures RestoreOne(cfg, now, d, e).None? { UnminedRefused(cfg, now, d, Offered(0, e.header, None), e); }
      assert s.headers[..k + 1][..k] == s.headers[..k];
      RestorePrefixFails(cfg, now, s.baseHeight, s.headers, k + 1);
    }
  }

  // ----- cumulative work -----

  /** Below the 128-bit ceiling, a row's cumulative work is its parent's and what its own target counts for. */
  lemma RowWork(cfg: Config, c: Chain, i: nat)
    requires ChainOk(cfg, c) && i < |c.rows| && c.rows[i].chainwork + 1 < Pow256(16)
    ensures var below := if i > 0 then c.rows[i - 1].chainwork else 0;
      c.rows[i].chainwork >= below && CountsFor(c.rows[i].chainwork - below, TargetOf(c.rows[i].header.bits))
  {
    hide FromBE, TargetOf, EncodeHeader, Derived, Pow256, CountsFor, WorkOfTarget;
    assert RowOk(cfg, c.base, c.rows, i);
    MaxWork();
    WorkExact(TargetOf(c.rows[i].header.bits));
  }

  /** At the ceiling it stays there. */
  lemma RowWorkSaturates(cfg: Config, c: Chain, i: nat)
    requires ChainOk(cfg, c) && 0 < i < |c.rows|
    ensures c.rows[i - 1].chainwork <= c.rows[i].chainwork < Pow256(16)
  {
    hide FromBE, TargetOf, EncodeHeader, Derived, Pow256, WorkOfTarget;
    assert RowOk(cfg, c.base, c.rows, i) && RowOk(cfg, c.base, c.rows, i - 1);
    MaxWork();
  }

  /** The max-work rule, both ways: a valid branch off a held ancestor is adopted if and only if it ends in more work. */
  lemma HeavierWins(cfg: Config, now: nat, c: Chain, alt: seq<Offered>)
    requires alt != [] && At(c, alt[0].height - 1).Some?
    requires IngestAll(cfg, now, Truncate(c, alt[0].height - 1), alt).Some? && c.rows != []
    ensures var d := IngestAll(cfg, now, Truncate(c, alt[0].height - 1), alt).value;
      && d.rows != []
      && (Reorg(cfg, now, c, alt) == Some(d) <==> d.rows[|d.rows| - 1].chainwork > c.rows[|c.rows| - 1].chainwork)
      && (Reorg(cfg, now, c, alt).Some? ==> Reorg(cfg, now, c, alt) == Some(d))
  {
    hide Ingest, Appended, IngestAll;
    var T := Truncate(c, alt[0].height - 1);
    IngestAllAppends(cfg, now, T, alt);
    AppendedRows(T, IngestAll(cfg, now, T, alt).value, alt);
  }

  lemma AppendedRows(c: Chain, d: Chain, alt: seq<Offered>)
    requires Appended(c, d, alt)
    ensures |d.rows| == |c.rows| + |alt|
  {
  }

  // ----- time -----

  /** How many of `s` are below `m`, and how many are not above it. */
  function Below(s: seq<nat>, m: nat): nat { if s == [] then 0 else Below(s[..|s| - 1], m) + if s[|s| - 1] < m then 1 else 0 }

  function AtMost(s: seq<nat>, m: nat): nat { if s == [] then 0 else AtMost(s[..|s| - 1], m) + if s[|s| - 1] <= m then 1 else 0 }

  /** No more than half of the times lie below `m`, and more than half do not lie above it. */
  predicate IsMedian(m: nat, times: seq<nat>) { Below(times, m) <= |times| / 2 < AtMost(times, m) }

  lemma {:induction false} CountBounds(s: seq<nat>, m: nat)
    ensures Below(s, m) <= AtMost(s, m) <= |s|
  {
    if s != [] { CountBounds(s[..|s| - 1], m); }
  }

  lemma {:induction false} AllAtMost(s: seq<nat>, m: nat)
    requires forall k :: 0 <= k < |s| ==> s[k] <= m
    ensures AtMost(s, m) == |s|
  {
    if s != [] { AllAtMost(s[..|s| - 1], m); }
  }

  lemma {:induction false} RankedCounts(s: seq<nat>, k: nat)
    requires Ascending(s) && k < |s|
    ensures Below(s, s[k]) <= k < AtMost(s, s[k])
  {
    var rest := s[..|s| - 1];
    if k < |rest| {
      RankedCounts(rest, k);
    } else {
      CountBounds(rest, s[k]);
      AllAtMost(s, s[k]);
    }
  }

  lemma {:induction false} InsertCounts(s: seq<nat>, t: nat, m: nat)
    ensures Below(InsertTime(s, t), m) == Below(s, m) + (if t < m then 1 else 0)
    ensures AtMost(InsertTime(s, t), m) == AtMost(s, m) + (if t <= m then 1 else 0)
  {
    if s == [] || s[|s| - 1] <= t {
      assert (s + [t])[..|s|] == s;
    } else {
      InsertCounts(s[..|s| - 1], t, m);
      var r := InsertTime(s[..|s| - 1], t);
      assert InsertTime(s, t) == r + [s[|s| - 1]] && (r + [s[|s| - 1]])[..|r|] == r;
    }
  }

  lemma {:induction false} SortCounts(w: seq<BlockHeader>, m: nat)
    ensures Below(SortTimes(w), m) == Below(TimesOf(w), m) && AtMost(SortTimes(w), m) == AtMost(TimesOf(w), m)
  {
    if w != [] {
      SortCounts(w[..|w| - 1], m);
      InsertCounts(SortTimes(w[..|w| - 1]), w[|w| - 1].time, m);
      assert TimesOf(w)[..|w| - 1] == TimesOf(w[..|w| - 1]);
    }
  }

  lemma MedianUnique(a: nat, b: nat, times: seq<nat>)
    requires IsMedian(a, times) && IsMedian(b, times)
    ensures a == b
  {
    if a < b { AtMostBelow(times, a, b); }
    if b < a { AtMostBelow(times, b, a); }
  }

  lemma {:induction false} AtMostBelow(s: seq<nat>, a: nat, b: nat)
    requires a < b
    ensures AtMost(s, a) <= Below(s, b)
  {
    if s != [] { AtMostBelow(s[..|s| - 1], a, b); }
  }

  /** The last at most eleven headers. */
  function LastEleven(window: seq<BlockHeader>): seq<BlockHeader> { if |window| <= 11 then window else window[|window| - 11..] }

  lemma MedianExact(window: seq<BlockHeader>)
    requires window != []
    ensures IsMedian(MedianTime(window), TimesOf(LastEleven(window)))
  {
    hide SortTimes, TimesOf, Below, AtMost;
    var recent := LastEleven(window);
    assert recent == window[if |window| < MTP_WINDOW then 0 else |window| - MTP_WINDOW..];
    TimesSorted(recent);
    var s := SortTimes(recent);
    RankedCounts(s, |s| / 2);
    SortCounts(recent, s[|s| / 2]);
  }

  /** A minute after the parent, past the median of the eleven headers before, and at most two hours ahead of the clock. */
  ghost predicate RightTime(header: BlockHeader, before: seq<BlockHeader>, parent: BlockHeader, now: nat) {
    && parent.time + 60 <= header.time <= now + 7200
    && forall m: nat :: IsMedian(m, TimesOf(LastEleven(before))) ==> m < header.time
  }

  lemma TimeIs(header: BlockHeader, before: seq<BlockHeader>, parent: BlockHeader, now: nat)
    requires before != []
    ensures TimeOk(header, before, parent, now) <==> RightTime(header, before, parent, now)
  {
    hide MedianTime, IsMedian, LastEleven;
    MedianExact(before);
    forall m: nat | IsMedian(m, TimesOf(LastEleven(before))) ensures m == MedianTime(before) {
      MedianUnique(m, MedianTime(before), TimesOf(LastEleven(before)));
    }
  }

  // ----- what each operation accepts, exactly -----

  /** The last at most 45 headers of the rows. */
  function Recent(rows: seq<VerifiedHeader>): seq<BlockHeader> { HeadersOf(if |rows| <= 45 then rows else rows[|rows| - 45..]) }

  lemma RecentIs(rows: seq<VerifiedHeader>)
    ensures WindowAt(rows, |rows|) == Recent(rows)
  {
    assert rows[if |rows| < LWMA_WINDOW then 0 else |rows| - LWMA_WINDOW..|rows|] == if |rows| <= 45 then rows else rows[|rows| - 45..];
  }

  predicate AgreesWithPins(cfg: Config, height: nat, hash: Hash32) { height !in cfg.pins || cfg.pins[height] == hash }

  /** The rules a header is re-derived by: the genesis block as it is, any other on its parent, in time, at the bits its
      window mandates. */
  ghost predicate FollowsRules(cfg: Config, now: nat, rows: seq<VerifiedHeader>, height: nat, header: BlockHeader) {
    if height == 0 then cfg.H(EncodeHeader(header)) == GENESIS_HASH && header.bits == INITIAL_BITS
    else
      && rows != [] && header.prev == rows[|rows| - 1].hash && RightTime(header, Recent(rows), rows[|rows| - 1].header, now)
      && ExpectedBits(Recent(rows), height) == Some(header.bits)
  }

  /** `d` is `c` and one row more: this header under its own hash. */
  ghost predicate Appends(cfg: Config, c: Chain, d: Chain, header: BlockHeader, trusted: bool) {
    && d.base == c.base && |d.rows| == |c.rows| + 1 && d.rows[..|c.rows|] == c.rows
    && d.rows[|c.rows|].height == c.base + |c.rows| && d.rows[|c.rows|].hash == cfg.H(EncodeHeader(header))
    && d.rows[|c.rows|].header == header && d.rows[|c.rows|].trusted == trusted
  }

  /** A header is ingested if and only if it comes next, was mined, has the hash it claims, agrees with the pins and follows
      the rules; the row it becomes is untrusted. */
  lemma IngestExact(cfg: Config, now: nat, c: Chain, o: Offered)
    ensures Ingest(cfg, now, c, o).Some? <==>
            && o.height == c.base + |c.rows| && Mined(o.header, cfg.H)
            && (o.hash.Some? ==> o.hash.value == cfg.H(EncodeHeader(o.header)))
            && AgreesWithPins(cfg, o.height, cfg.H(EncodeHeader(o.header))) && FollowsRules(cfg, now, c.rows, o.height, o.header)
    ensures Ingest(cfg, now, c, o).Some? ==> Appends(cfg, c, Ingest(cfg, now, c, o).value, o.header, false)
  {
    hide FromBE, TargetOf, EncodeHeader, TimeOk, RightTime, ExpectedBits, WindowAt, Recent, SatAddWork, HeaderInRange;
    RecentIs(c.rows);
    if c.rows != [] {
      RecentThere(c.rows);
      TimeIs(o.header, Recent(c.rows), c.rows[|c.rows| - 1].header, now);
    }
  }

  lemma RecentThere(rows: seq<VerifiedHeader>)
    requires rows != []
    ensures Recent(rows) != []
  {
  }

  /** A seeded row need only come next, be linked and mined, have the hash it claims and agree with the pins. */
  lemma SeedExact(cfg: Config, c: Chain, o: Offered)
    ensures SeedOne(cfg, c, o).Some? <==>
            && o.height == c.base + |c.rows| && Mined(o.header, cfg.H)
            && (o.hash.Some? ==> o.hash.value == cfg.H(EncodeHeader(o.header)))
            && AgreesWithPins(cfg, o.height, cfg.H(EncodeHeader(o.header)))
            && (c.rows != [] ==> o.header.prev == c.rows[|c.rows| - 1].hash)
    ensures SeedOne(cfg, c, o).Some? ==> Appends(cfg, c, SeedOne(cfg, c, o).value, o.header, true)
  {
    hide FromBE, TargetOf, EncodeHeader, SatAddWork, HeaderInRange;
  }

  /** A restored row must be mined, linked, hashed and pinned as told; its rules are re-derived unless the file calls it
      trusted and it lies in the first window above a base that is not genesis. */
  lemma RestoreExact(cfg: Config, now: nat, c: Chain, e: SnapRow)
    ensures RestoreOne(cfg, now, c, e).Some? <==>
            && e.height == c.base + |c.rows| && Mined(e.header, cfg.H) && e.hash == cfg.H(EncodeHeader(e.header))
            && AgreesWithPins(cfg, e.height, e.hash)
            && (c.rows != [] ==> e.header.prev == c.rows[|c.rows| - 1].hash)
            && (if e.trusted && c.base > 0 && |c.rows| < 45 then true
                else FollowsRules(cfg, now, c.rows, e.height, e.header))
    ensures RestoreOne(cfg, now, c, e).Some? ==> Appends(cfg, c, RestoreOne(cfg, now, c, e).value, e.header, e.trusted)
  {
    hide FromBE, TargetOf, EncodeHeader, TimeOk, RightTime, ExpectedBits, WindowAt, Recent, SatAddWork, HeaderInRange;
    RecentIs(c.rows);
    if c.rows != [] {
      RecentThere(c.rows);
      TimeIs(e.header, Recent(c.rows), c.rows[|c.rows| - 1].header, now);
    } else if c.base > 0 {
      EmptyWindow(c.rows, c.base);
    }
  }

  // ----- whole seeds and snapshots -----

  /** The k-th seeded header is accepted after those before it. */
  ghost predicate SeedsAt(cfg: Config, base: nat, seed: seq<Offered>, k: nat)
    requires k < |seed|
  {
    var c := SeedAll(cfg, base, seed[..k]);
    c.Some? && SeedOne(cfg, c.value, seed[k]).Some?
  }

  lemma {:induction false} SeedAllExact(cfg: Config, base: nat, seed: seq<Offered>)
    ensures SeedAll(cfg, base, seed).Some? <==> forall k :: 0 <= k < |seed| ==> SeedsAt(cfg, base, seed, k)
  {
    hide SeedOne;
    if seed != [] {
      var rest, last := seed[..|seed| - 1], |seed| - 1;
      SeedAllExact(cfg, base, rest);
      assert seed[..last] == rest;
      forall k | 0 <= k < last ensures SeedsAt(cfg, base, seed, k) == SeedsAt(cfg, base, rest, k) { assert rest[..k] == seed[..k]; }
      var c := SeedAll(cfg, base, rest);
      assert SeedsAt(cfg, base, seed, last) <==> c.Some? && SeedOne(cfg, c.value, seed[last]).Some?;
    }
  }

  /** A seed is accepted if and only if it is not empty, every header of it is accepted after those before it, and the hash
      of the last is the checkpoint's. */
  lemma SeededExact(cfg: Config, seed: seq<Offered>, checkpoint: Hash32)
    ensures Seeded(cfg, seed, checkpoint).Some? <==>
      seed != [] && (forall k :: 0 <= k < |seed| ==> SeedsAt(cfg, seed[0].height, seed, k))
      && cfg.H(EncodeHeader(seed[|seed| - 1].header)) == checkpoint
  {
    hide SeedOne, SeedsAt, EncodeHeader;
    if seed != [] {
      var base, last := seed[0].height, |seed| - 1;
      SeedAllExact(cfg, base, seed);
      if SeedAll(cfg, base, seed).Some? {
        var c := SeedAll(cfg, base, seed[..last]);
        assert c.Some?;
        SeedExact(cfg, c.value, seed[last]);
      }
    }
  }

  /** The k-th row of a snapshot is accepted after those before it. */
  ghost predicate RestoresAt(cfg: Config, now: nat, base: nat, es: seq<SnapRow>, k: nat)
    requires k < |es|
  {
    var c := RestoreRows(cfg, now, base, es[..k]);
    c.Some? && RestoreOne(cfg, now, c.value, es[k]).Some?
  }

  lemma {:induction false} RestoreRowsExact(cfg: Config, now: nat, base: nat, es: seq<SnapRow>)
    ensures RestoreRows(cfg, now, base, es).Some? <==> forall k :: 0 <= k < |es| ==> RestoresAt(cfg, now, base, es, k)
  {
    hide RestoreOne;
    if es != [] {
      var rest, last := es[..|es| - 1], |es| - 1;
      RestoreRowsExact(cfg, now, base, rest);
      assert es[..last] == rest;
      forall k | 0 <= k < last ensures RestoresAt(cfg, now, base, es, k) == RestoresAt(cfg, now, base, rest, k) {
        assert rest[..k] == es[..k];
      }
      var c := RestoreRows(cfg, now, base, rest);
      assert RestoresAt(cfg, now, base, es, last) <==> c.Some? && RestoreOne(cfg, now, c.value, es[last]).Some?;
    }
  }

  /** A snapshot is restored if and only if it is not empty, starts at a safe height, holds - for a client with pins - a pinned
      height from the forty-fifth row on, and each row is accepted after those before it. */
  lemma SnapshotExact(cfg: Config, now: nat, s: Snapshot)
    ensures Restore(cfg, now, s).Some? <==>
      && s.headers != [] && 0 <= s.baseHeight < 0x20_0000_0000_0000
      && (cfg.pins == map[] || exists p :: p in cfg.pins && 44 <= p - s.baseHeight < |s.headers|)
      && forall k :: 0 <= k < |s.headers| ==> RestoresAt(cfg, now, s.baseHeight, s.headers, k)
  {
    hide RestoreOne, RestoresAt;
    if s.baseHeight >= 0 { RestoreRowsExact(cfg, now, s.baseHeight, s.headers); }
  }
}
