/** The header chain a light client holds (packages/light/src/index.ts): what each operation accepts, as functions of
    the chain, and what every held chain keeps. `now` is the wall clock in seconds. */
module LightChain {
  import opened Rules
  import opened Bytes
  import opened Merkle
  import opened Headers
  import opened Lwma

  const MTP_WINDOW: nat := 11
  const MAX_FUTURE_DRIFT_SECS: nat := 7200
  const GENESIS_HASH: Hash32 := [
    0x00, 0x00, 0x00, 0x52, 0xc2, 0x82, 0x1f, 0x71, 0xb1, 0x9c, 0x3d, 0x79, 0xdf, 0xab, 0xfb, 0x12,
    0xd4, 0x07, 0x6b, 0xa1, 0x5d, 0x83, 0xb4, 0x7d, 0x00, 0x8e, 0x58, 0x2a, 0xad, 0x6c, 0x0d, 0x52]

  datatype VerifiedHeader = VerifiedHeader(height: nat, hash: Hash32, header: BlockHeader, chainwork: nat, trusted: bool)

  /** rows[i] is the header at height base + i. */
  datatype Chain = Chain(base: nat, rows: seq<VerifiedHeader>)

  datatype Offered = Offered(height: nat, header: BlockHeader, hash: Option<Hash32>)

  type Pins = map<nat, Hash32>

  /** What a client is configured with: its hash function and its pinned checkpoints. */
  datatype Config = Config(H: Hasher, pins: Pins)

  /** Cumulative work, saturating at 128 bits. */
  function SatAddWork(a: nat, bits: nat): nat {
    if a + WorkOf(bits) > MAX_U128 then MAX_U128 else a + WorkOf(bits)
  }

  function WorkBelow(rows: seq<VerifiedHeader>): nat { if rows == [] then 0 else rows[|rows| - 1].chainwork }

  function Work(c: Chain): nat { WorkBelow(c.rows) }

  function At(c: Chain, height: int): Option<VerifiedHeader> {
    if c.base <= height < c.base + |c.rows| then Some(c.rows[height - c.base]) else None
  }

  function HeadersOf(rows: seq<VerifiedHeader>): (r: seq<BlockHeader>)
    ensures |r| == |rows| && forall k :: 0 <= k < |r| ==> r[k] == rows[k].header
  {
    seq(|rows|, k requires 0 <= k < |rows| => rows[k].header)
  }

  /** The at most LWMA_WINDOW headers before index `i`. */
  function WindowAt(rows: seq<VerifiedHeader>, i: nat): seq<BlockHeader>
    requires i <= |rows|
  {
    HeadersOf(rows[if i < LWMA_WINDOW then 0 else i - LWMA_WINDOW..i])
  }

  // ----- time -----

  function InsertTime(s: seq<nat>, t: nat): (r: seq<nat>)
    ensures |r| == |s| + 1
  {
    if s == [] || s[|s| - 1] <= t then s + [t] else InsertTime(s[..|s| - 1], t) + [s[|s| - 1]]
  }

  function SortTimes(w: seq<BlockHeader>): (r: seq<nat>)
    ensures |r| == |w|
  {
    if w == [] then [] else InsertTime(SortTimes(w[..|w| - 1]), w[|w| - 1].time)
  }

  /** The median time of the last MTP_WINDOW headers. */
  function MedianTime(window: seq<BlockHeader>): nat {
    var recent := SortTimes(window[if |window| < MTP_WINDOW then 0 else |window| - MTP_WINDOW..]);
    if recent == [] then 0 else recent[|recent| / 2]
  }

  function TimesOf(w: seq<BlockHeader>): (r: seq<nat>)
    ensures |r| == |w|
  {
    if w == [] then [] else TimesOf(w[..|w| - 1]) + [w[|w| - 1].time]
  }

  ghost predicate Ascending(s: seq<nat>) { forall i, j :: 0 <= i < j < |s| ==> s[i] <= s[j] }

  lemma {:induction false} InsertTimeAdds(s: seq<nat>, t: nat)
    ensures multiset(InsertTime(s, t)) == multiset(s) + multiset{t} && forall x :: x in InsertTime(s, t) ==> x in s || x == t
  {
    if s != [] && s[|s| - 1] > t {
      InsertTimeAdds(s[..|s| - 1], t);
      assert s == s[..|s| - 1] + [s[|s| - 1]];
    }
  }

  lemma {:induction false} InsertTimeSorts(s: seq<nat>, t: nat)
    requires Ascending(s)
    ensures Ascending(InsertTime(s, t))
  {
    if s != [] && s[|s| - 1] > t {
      var rest, l := s[..|s| - 1], s[|s| - 1];
      InsertTimeSorts(rest, t);
      InsertTimeAdds(rest, t);
      var r := InsertTime(rest, t);
      forall k | 0 <= k < |r| ensures r[k] <= l { assert r[k] in rest || r[k] == t; }
    }
  }

  /** The times are ranked ascending, each as often as it occurs: the one in the middle is their median. */
  lemma {:induction false} TimesSorted(w: seq<BlockHeader>)
    ensures Ascending(SortTimes(w)) && multiset(SortTimes(w)) == multiset(TimesOf(w))
  {
    if w != [] {
      TimesSorted(w[..|w| - 1]);
      InsertTimeSorts(SortTimes(w[..|w| - 1]), w[|w| - 1].time);
      InsertTimeAdds(SortTimes(w[..|w| - 1]), w[|w| - 1].time);
    }
  }

  /** The time rules that do not read the clock. */
  predicate TimeFollows(header: BlockHeader, window: seq<BlockHeader>, parent: BlockHeader) {
    header.time >= parent.time + MIN_BLOCK_SPACING_SECS && header.time > MedianTime(window)
  }

  predicate TimeOk(header: BlockHeader, window: seq<BlockHeader>, parent: BlockHeader, now: nat) {
    TimeFollows(header, window, parent) && header.time <= now + MAX_FUTURE_DRIFT_SECS
  }

  predicate Pinned(pins: Pins, height: nat, hash: Hash32) { height in pins ==> pins[height] == hash }

  predicate IsGenesis(header: BlockHeader, hash: Hash32) { hash == GENESIS_HASH && header.bits == INITIAL_BITS }

  // ----- ingest -----

  /** Full verification of one header against its window and parent. */
  function VerifyOne(cfg: Config, now: nat, height: nat, header: BlockHeader, window: seq<BlockHeader>,
                     parent: Option<VerifiedHeader>, claimed: Option<Hash32>): Option<VerifiedHeader>
  {
    var hash := HeaderHash(header, cfg.H);
    if !HeaderInRange(header) || (claimed.Some? && claimed.value != hash) then None
    else if (if height == 0 then !IsGenesis(header, hash)
             else parent.None? || header.prev != parent.value.hash || !TimeOk(header, window, parent.value.header, now)
                  || ExpectedBits(window, height) != Some(header.bits)) then None
    else if !PowOk(hash, header.bits) || !Pinned(cfg.pins, height, hash) then None
    else
      var below := if parent.Some? then parent.value.chainwork else 0;
      Some(VerifiedHeader(height, hash, header, SatAddWork(below, header.bits), false))
  }

  function Ingest(cfg: Config, now: nat, c: Chain, o: Offered): Option<Chain> {
    if o.height != c.base + |c.rows| then None
    else
      var vh := VerifyOne(cfg, now, o.height, o.header, WindowAt(c.rows, |c.rows|), At(c, o.height - 1), o.hash);
      if vh.None? then None else Some(Chain(c.base, c.rows + [vh.value]))
  }

  /** Ingest each header in turn. */
  function IngestAll(cfg: Config, now: nat, c: Chain, alt: seq<Offered>): Option<Chain> {
    if alt == [] then Some(c)
    else
      var d := IngestAll(cfg, now, c, alt[..|alt| - 1]);
      if d.None? then None else Ingest(cfg, now, d.value, alt[|alt| - 1])
  }

  /** The chain up to and including `height`. */
  function Truncate(c: Chain, height: nat): Chain
    requires c.base <= height < c.base + |c.rows|
  {
    Chain(c.base, c.rows[..height - c.base + 1])
  }

  /** The reorg rule: replay the branch from the ancestor it names; adopt it only for strictly more work. */
  function Reorg(cfg: Config, now: nat, c: Chain, alt: seq<Offered>): Option<Chain> {
    if alt == [] || At(c, alt[0].height - 1).None? then None
    else
      var d := IngestAll(cfg, now, Truncate(c, alt[0].height - 1), alt);
      if d.Some? && Work(d.value) > Work(c) then d else None
  }

  lemma {:induction false} PrefixFails(cfg: Config, now: nat, c: Chain, alt: seq<Offered>, k: nat)
    requires k <= |alt| && IngestAll(cfg, now, c, alt[..k]).None?
    ensures IngestAll(cfg, now, c, alt).None?
  {
    if k == |alt| {
      assert alt[..k] == alt;
    } else {
      assert alt[..|alt| - 1][..k] == alt[..k];
      PrefixFails(cfg, now, c, alt[..|alt| - 1], k);
    }
  }

  // ----- what every held chain keeps -----

  /** The difficulty and the time rules of row `i` were re-derived from the rows before it. */
  predicate Derived(rows: seq<VerifiedHeader>, i: nat)
    requires i < |rows|
  {
    if rows[i].height == 0 then IsGenesis(rows[i].header, rows[i].hash)
    else i > 0 && ExpectedBits(WindowAt(rows, i), rows[i].height) == Some(rows[i].header.bits)
         && TimeFollows(rows[i].header, WindowAt(rows, i), rows[i - 1].header)
  }

  /** A row names its height, its own hash and its parent's, has valid work at its bits, adds that work to the sum below
      it, agrees with the pins, and - unless it was trusted - carries exactly the difficulty the rows before it mandate. */
  predicate RowOk(cfg: Config, base: nat, rows: seq<VerifiedHeader>, i: nat)
    requires i < |rows|
  {
    var r := rows[i];
    && r.height == base + i
    && HeaderInRange(r.header) && r.hash == HeaderHash(r.header, cfg.H)
    && PowOk(r.hash, r.header.bits) && Pinned(cfg.pins, r.height, r.hash)
    && (i > 0 ==> r.header.prev == rows[i - 1].hash)
    && r.chainwork == SatAddWork(if i > 0 then rows[i - 1].chainwork else 0, r.header.bits)
    && (!r.trusted ==> Derived(rows, i))
  }

  ghost predicate ChainOk(cfg: Config, c: Chain) { forall i :: 0 <= i < |c.rows| ==> RowOk(cfg, c.base, c.rows, i) }

  lemma PrefixRow(cfg: Config, base: nat, rows: seq<VerifiedHeader>, more: seq<VerifiedHeader>, i: nat)
    requires i < |rows| <= |more| && more[..|rows|] == rows
    ensures RowOk(cfg, base, rows, i) <==> RowOk(cfg, base, more, i)
  {
    hide HeaderInRange, HeaderHash, PowOk, SatAddWork, Derived;
    assert forall k :: 0 <= k < |rows| ==> more[k] == more[..|rows|][k];
    DerivedPrefix(rows, more, i);
  }

  lemma TruncateKeeps(cfg: Config, c: Chain, height: nat)
    requires ChainOk(cfg, c) && c.base <= height < c.base + |c.rows|
    ensures ChainOk(cfg, Truncate(c, height))
  {
    hide RowOk;
    var t := Truncate(c, height);
    forall i | 0 <= i < |t.rows| ensures RowOk(cfg, t.base, t.rows, i) { PrefixRow(cfg, c.base, t.rows, c.rows, i); }
  }

  lemma PushKeeps(cfg: Config, c: Chain, vh: VerifiedHeader)
    requires ChainOk(cfg, c) && RowOk(cfg, c.base, c.rows + [vh], |c.rows|)
    ensures ChainOk(cfg, Chain(c.base, c.rows + [vh]))
  {
    hide RowOk;
    var more := c.rows + [vh];
    assert more[..|c.rows|] == c.rows;
    forall i | 0 <= i < |more| ensures RowOk(cfg, c.base, more, i) {
      if i < |c.rows| { PrefixRow(cfg, c.base, c.rows, more, i); }
    }
  }

  lemma IngestKeeps(cfg: Config, now: nat, c: Chain, o: Offered)
    requires ChainOk(cfg, c) && Ingest(cfg, now, c, o).Some?
    ensures ChainOk(cfg, Ingest(cfg, now, c, o).value)
  {
    hide ChainOk, HeaderInRange, HeaderHash, PowOk, Pinned, SatAddWork, ExpectedBits, TimeFollows, IsGenesis;
    var i := |c.rows|;
    var parent := At(c, o.height - 1);
    var vh := VerifyOne(cfg, now, o.height, o.header, WindowAt(c.rows, i), parent, o.hash).value;
    var more := c.rows + [vh];
    var lo := if i < LWMA_WINDOW then 0 else i - LWMA_WINDOW;
    assert more[lo..i] == c.rows[lo..i];
    assert i > 0 ==> parent == Some(more[i - 1]);
    PushKeeps(cfg, c, vh);
  }

  lemma {:induction false} IngestAllKeeps(cfg: Config, now: nat, c: Chain, alt: seq<Offered>)
    requires ChainOk(cfg, c) && IngestAll(cfg, now, c, alt).Some?
    ensures ChainOk(cfg, IngestAll(cfg, now, c, alt).value)
  {
    hide ChainOk, Ingest;
    if alt != [] {
      IngestAllKeeps(cfg, now, c, alt[..|alt| - 1]);
      IngestKeeps(cfg, now, IngestAll(cfg, now, c, alt[..|alt| - 1]).value, alt[|alt| - 1]);
    }
  }

  /** An adopted branch leaves a sound chain with strictly more work: the old one up to the ancestor, then an untrusted
      row for each header of the branch. */
  lemma ReorgKeeps(cfg: Config, now: nat, c: Chain, alt: seq<Offered>)
    requires ChainOk(cfg, c) && Reorg(cfg, now, c, alt).Some?
    ensures var d := Reorg(cfg, now, c, alt).value; var h := alt[0].height - 1;
      ChainOk(cfg, d) && Work(d) > Work(c) && At(c, h).Some? && Appended(Truncate(c, h), d, alt)
  {
    hide ChainOk, IngestAll, Appended;
    TruncateKeeps(cfg, c, alt[0].height - 1);
    IngestAllKeeps(cfg, now, Truncate(c, alt[0].height - 1), alt);
    IngestAllAppends(cfg, now, Truncate(c, alt[0].height - 1), alt);
  }

  lemma IngestAppends(cfg: Config, now: nat, c: Chain, o: Offered)
    requires Ingest(cfg, now, c, o).Some?
    ensures var d := Ingest(cfg, now, c, o).value;
      d.base == c.base && exists vh: VerifiedHeader :: d.rows == c.rows + [vh] && vh.header == o.header && !vh.trusted
  {
    var vh := VerifyOne(cfg, now, o.height, o.header, WindowAt(c.rows, |c.rows|), At(c, o.height - 1), o.hash).value;
    assert Ingest(cfg, now, c, o).value.rows == c.rows + [vh] && vh.header == o.header && !vh.trusted;
  }

  /** `d` is `c` with an untrusted row for each header of `alt`, in order. */
  ghost predicate Appended(c: Chain, d: Chain, alt: seq<Offered>) {
    && d.base == c.base && |d.rows| == |c.rows| + |alt| && d.rows[..|c.rows|] == c.rows
    && forall j :: 0 <= j < |alt| ==> d.rows[|c.rows| + j].header == alt[j].header && !d.rows[|c.rows| + j].trusted
  }

  lemma AppendOne(c: Chain, e: Chain, alt: seq<Offered>, o: Offered, vh: VerifiedHeader)
    requires Appended(c, e, alt) && vh.header == o.header && !vh.trusted
    ensures Appended(c, Chain(e.base, e.rows + [vh]), alt + [o])
  {
    var d, more := e.rows + [vh], alt + [o];
    assert d[..|c.rows|] == e.rows[..|c.rows|];
    forall j | 0 <= j < |more| ensures d[|c.rows| + j].header == more[j].header && !d[|c.rows| + j].trusted {
      if j < |alt| { assert d[|c.rows| + j] == e.rows[|c.rows| + j]; }
    }
  }

  lemma {:induction false} IngestAllAppends(cfg: Config, now: nat, c: Chain, alt: seq<Offered>)
    requires IngestAll(cfg, now, c, alt).Some?
    ensures Appended(c, IngestAll(cfg, now, c, alt).value, alt)
  {
    hide Ingest, Appended;
    if alt == [] {
      AppendNone(c);
    } else {
      var rest, o := alt[..|alt| - 1], alt[|alt| - 1];
      var e := IngestAll(cfg, now, c, rest).value;
      IngestAllAppends(cfg, now, c, rest);
      IngestAppends(cfg, now, e, o);
      var d := Ingest(cfg, now, e, o).value;
      var vh: VerifiedHeader :| d.rows == e.rows + [vh] && vh.header == o.header && !vh.trusted;
      AppendOne(c, e, rest, o, vh);
      assert alt == rest + [o] && d == Chain(e.base, e.rows + [vh]);
    }
  }

  lemma AppendNone(c: Chain)
    ensures Appended(c, c, [])
  {
  }

  // ----- the trusted seed -----

  /** One seeded row: everything but the difficulty and the time rules. */
  function SeedOne(cfg: Config, c: Chain, s: Offered): Option<Chain> {
    var hash := HeaderHash(s.header, cfg.H);
    if s.height != c.base + |c.rows| || !HeaderInRange(s.header) || (s.hash.Some? && s.hash.value != hash)
       || (c.rows != [] && s.header.prev != c.rows[|c.rows| - 1].hash)
       || !PowOk(hash, s.header.bits) || !Pinned(cfg.pins, s.height, hash) then None
    else Some(Chain(c.base, c.rows + [VerifiedHeader(s.height, hash, s.header, SatAddWork(WorkBelow(c.rows), s.header.bits), true)]))
  }

  lemma SeedKeeps(cfg: Config, c: Chain, s: Offered)
    requires ChainOk(cfg, c) && SeedOne(cfg, c, s).Some?
    ensures ChainOk(cfg, SeedOne(cfg, c, s).value)
  {
    var d := SeedOne(cfg, c, s).value;
    PushKeeps(cfg, c, d.rows[|c.rows|]);
  }

  function SeedAll(cfg: Config, base: nat, seed: seq<Offered>): Option<Chain> {
    if seed == [] then Some(Chain(base, []))
    else
      var c := SeedAll(cfg, base, seed[..|seed| - 1]);
      if c.None? then None else SeedOne(cfg, c.value, seed[|seed| - 1])
  }

  /** seedTrusted on a fresh client: the run, if it ends at the checkpoint. */
  function Seeded(cfg: Config, seed: seq<Offered>, checkpointHash: Hash32): Option<Chain> {
    if seed == [] then None
    else
      var c := SeedAll(cfg, seed[0].height, seed);
      if c.Some? && c.value.rows != [] && c.value.rows[|c.value.rows| - 1].hash == checkpointHash then c else None
  }

  /** The rows a seed leaves behind: those of the longest part of it that verifies. */
  function SeedRead(cfg: Config, base: nat, seed: seq<Offered>): Chain {
    var c := SeedAll(cfg, base, seed);
    if c.Some? then c.value else SeedRead(cfg, base, seed[..|seed| - 1])
  }

  lemma {:induction false} SeedStops(cfg: Config, base: nat, seed: seq<Offered>, k: nat)
    requires k < |seed| && SeedAll(cfg, base, seed[..k]).Some? && SeedAll(cfg, base, seed[..k + 1]).None?
    ensures SeedAll(cfg, base, seed).None? && SeedRead(cfg, base, seed) == SeedAll(cfg, base, seed[..k]).value
  {
    var rest := seed[..|seed| - 1];
    if k + 1 == |seed| {
      assert seed[..k + 1] == seed && rest == seed[..k];
    } else {
      assert rest[..k] == seed[..k] && rest[..k + 1] == seed[..k + 1];
      SeedStops(cfg, base, rest, k);
    }
  }

  // ----- snapshots -----

  datatype SnapRow = SnapRow(height: int, hash: Hash32, header: BlockHeader, trusted: bool)
  datatype Snapshot = Snapshot(baseHeight: int, headers: seq<SnapRow>)

  /** Is some pinned checkpoint inside the snapshot and at or above the top of its trusted prefix? */
  predicate Anchored(pins: Pins, base: nat, n: nat) {
    exists cp :: cp in pins && base + LWMA_WINDOW - 1 <= cp < base + n
  }

  /** May this snapshot be read at all? */
  predicate Readable(cfg: Config, s: Snapshot) {
    s.headers != [] && 0 <= s.baseHeight <= MAX_SAFE_INTEGER
    && (cfg.pins != map[] ==> Anchored(cfg.pins, s.baseHeight, |s.headers|))
  }

  /** Must the difficulty of row `i` be re-derived, whatever the file says of it? */
  predicate MustDerive(base: nat, i: nat, trusted: bool) { base + i > 0 && (!trusted || base == 0 || i >= LWMA_WINDOW) }

  function RestoreOne(cfg: Config, now: nat, c: Chain, e: SnapRow): Option<Chain> {
    var i, window := |c.rows|, WindowAt(c.rows, |c.rows|);
    var hash := HeaderHash(e.header, cfg.H);
    if e.height != c.base + i || !HeaderInRange(e.header) || hash != e.hash then None
    else if i == 0 && c.base == 0 && !IsGenesis(e.header, hash) then None
    else if i > 0 && e.header.prev != c.rows[i - 1].hash then None
    else if MustDerive(c.base, i, e.trusted)
            && ((i > 0 && !TimeOk(e.header, window, c.rows[i - 1].header, now))
                || ExpectedBits(window, c.base + i) != Some(e.header.bits)) then None
    else if !PowOk(hash, e.header.bits) || !Pinned(cfg.pins, c.base + i, hash) then None
    else Some(Chain(c.base, c.rows + [VerifiedHeader(c.base + i, hash, e.header, SatAddWork(WorkBelow(c.rows), e.header.bits), e.trusted)]))
  }

  function RestoreRows(cfg: Config, now: nat, base: nat, es: seq<SnapRow>): Option<Chain> {
    if es == [] then Some(Chain(base, []))
    else
      var c := RestoreRows(cfg, now, base, es[..|es| - 1]);
      if c.None? then None else RestoreOne(cfg, now, c.value, es[|es| - 1])
  }

  /** fromSnapshot: the restored chain, or None where it throws. */
  function Restore(cfg: Config, now: nat, s: Snapshot): Option<Chain> {
    if !Readable(cfg, s) then None else RestoreRows(cfg, now, s.baseHeight, s.headers)
  }

  lemma {:induction false} RestorePrefixFails(cfg: Config, now: nat, base: nat, es: seq<SnapRow>, k: nat)
    requires k <= |es| && RestoreRows(cfg, now, base, es[..k]).None?
    ensures RestoreRows(cfg, now, base, es).None?
  {
    if k == |es| {
      assert es[..k] == es;
    } else {
      assert es[..|es| - 1][..k] == es[..k];
      RestorePrefixFails(cfg, now, base, es[..|es| - 1], k);
    }
  }

  /** Every restored row whose rules had to be re-derived has them. */
  ghost predicate RestoredOk(c: Chain) {
    forall i :: 0 <= i < |c.rows| && (MustDerive(c.base, i, c.rows[i].trusted) || c.base + i == 0) ==> Derived(c.rows, i)
  }

  /** The row a restore appends. */
  function RestoredRow(cfg: Config, c: Chain, e: SnapRow): (r: VerifiedHeader)
    ensures r.trusted == e.trusted
  {
    VerifiedHeader(c.base + |c.rows|, HeaderHash(e.header, cfg.H), e.header, SatAddWork(WorkBelow(c.rows), e.header.bits), e.trusted)
  }

  lemma RestoredRows(cfg: Config, now: nat, c: Chain, e: SnapRow)
    requires RestoreOne(cfg, now, c, e).Some?
    ensures RestoreOne(cfg, now, c, e).value == Chain(c.base, c.rows + [RestoredRow(cfg, c, e)])
    ensures c.base + |c.rows| == 0 ==> IsGenesis(e.header, HeaderHash(e.header, cfg.H))
    ensures MustDerive(c.base, |c.rows|, e.trusted) ==>
              ExpectedBits(WindowAt(c.rows, |c.rows|), c.base + |c.rows|) == Some(e.header.bits)
              && (c.rows != [] ==> TimeFollows(e.header, WindowAt(c.rows, |c.rows|), c.rows[|c.rows| - 1].header))
  {
    hide HeaderHash, HeaderInRange, PowOk, TimeFollows, SatAddWork, ExpectedBits, WindowAt, IsGenesis;
  }

  lemma NewRowDerived(cfg: Config, now: nat, c: Chain, e: SnapRow)
    requires RestoreOne(cfg, now, c, e).Some?
    ensures var i := |c.rows|; var more := c.rows + [RestoredRow(cfg, c, e)];
      MustDerive(c.base, i, e.trusted) || c.base + i == 0 ==> Derived(more, i)
  {
    hide RestoreOne, HeaderHash, MedianTime, SatAddWork, WorkBelow, TimeFollows, ExpectedBits, IsGenesis;
    var i, more := |c.rows|, c.rows + [RestoredRow(cfg, c, e)];
    RestoredRows(cfg, now, c, e);
    var lo := if i < LWMA_WINDOW then 0 else i - LWMA_WINDOW;
    assert more[lo..i] == c.rows[lo..i];
    if i == 0 && c.base > 0 { EmptyWindow(c.rows, c.base); }
  }

  lemma EmptyWindow(rows: seq<VerifiedHeader>, height: nat)
    requires height > 0
    ensures ExpectedBits(WindowAt(rows, 0), height).None?
  {
    assert WindowAt(rows, 0) == [];
  }

  lemma NewRowOk(cfg: Config, now: nat, c: Chain, e: SnapRow)
    requires RestoreOne(cfg, now, c, e).Some?
    ensures RowOk(cfg, c.base, c.rows + [RestoredRow(cfg, c, e)], |c.rows|)
  {
    hide HeaderHash, HeaderInRange, PowOk, SatAddWork, Derived, TimeOk, ExpectedBits;
    NewRowDerived(cfg, now, c, e);
  }

  lemma RestoreOneKeeps(cfg: Config, now: nat, c: Chain, e: SnapRow)
    requires ChainOk(cfg, c) && RestoredOk(c) && RestoreOne(cfg, now, c, e).Some?
    ensures ChainOk(cfg, RestoreOne(cfg, now, c, e).value) && RestoredOk(RestoreOne(cfg, now, c, e).value)
  {
    hide RestoreOne, RowOk, Derived, ExpectedBits, TimeFollows, IsGenesis, WindowAt, RestoredRow;
    var i, more := |c.rows|, c.rows + [RestoredRow(cfg, c, e)];
    RestoredRows(cfg, now, c, e);
    NewRowDerived(cfg, now, c, e);
    NewRowOk(cfg, now, c, e);
    PushKeeps(cfg, c, RestoredRow(cfg, c, e));
    assert more[..i] == c.rows;
    forall k | 0 <= k < |more| && (MustDerive(c.base, k, more[k].trusted) || c.base + k == 0) ensures Derived(more, k) {
      if k < i {
        assert more[k] == more[..i][k];
        DerivedPrefix(c.rows, more, k);
      }
    }
  }

  lemma DerivedPrefix(rows: seq<VerifiedHeader>, more: seq<VerifiedHeader>, i: nat)
    requires i < |rows| <= |more| && more[..|rows|] == rows
    ensures Derived(rows, i) <==> Derived(more, i)
  {
    hide ExpectedBits, TimeFollows, IsGenesis;
    assert forall k :: 0 <= k < |rows| ==> more[k] == more[..|rows|][k];
    var lo := if i < LWMA_WINDOW then 0 else i - LWMA_WINDOW;
    assert more[lo..i] == rows[lo..i];
  }

  lemma {:induction false} RestoreKeeps(cfg: Config, now: nat, base: nat, es: seq<SnapRow>)
    requires RestoreRows(cfg, now, base, es).Some?
    ensures var c := RestoreRows(cfg, now, base, es).value;
      ChainOk(cfg, c) && RestoredOk(c) && c.base == base && |c.rows| == |es|
  {
    hide ChainOk, RestoredOk;
    if es == [] {
      NoRows(cfg, base);
    } else {
      RestoreKeeps(cfg, now, base, es[..|es| - 1]);
      RestoreOneKeeps(cfg, now, RestoreRows(cfg, now, base, es[..|es| - 1]).value, es[|es| - 1]);
    }
  }

  lemma NoRows(cfg: Config, base: nat)
    ensures ChainOk(cfg, Chain(base, [])) && RestoredOk(Chain(base, []))
  {
  }

  /** Anchor containment: with checkpoints configured, every restored header that skipped the difficulty and time rules
      lies at or below a pinned checkpoint the snapshot contains, and the header there is the pinned one. */
  lemma SkippedIsAnchored(cfg: Config, now: nat, s: Snapshot)
    requires cfg.pins != map[] && Restore(cfg, now, s).Some?
    ensures var c := Restore(cfg, now, s).value;
      exists cp :: cp in cfg.pins && c.base <= cp < c.base + |c.rows| && c.rows[cp - c.base].hash == cfg.pins[cp]
                   && forall i :: 0 <= i < |c.rows| && !Derived(c.rows, i) ==> c.base + i <= cp
  {
    hide RestoreRows, Derived, RowOk;
    var c := Restore(cfg, now, s).value;
    RestoreKeeps(cfg, now, s.baseHeight, s.headers);
    var cp :| cp in cfg.pins && c.base + LWMA_WINDOW - 1 <= cp < c.base + |c.rows|;
    PinnedRow(cfg, c, cp - c.base);
    forall i | 0 <= i < |c.rows| && !Derived(c.rows, i) ensures c.base + i <= cp {
      assert !MustDerive(c.base, i, c.rows[i].trusted);
    }
  }

  lemma PinnedRow(cfg: Config, c: Chain, i: nat)
    requires ChainOk(cfg, c) && i < |c.rows| && c.base + i in cfg.pins
    ensures c.rows[i].hash == cfg.pins[c.base + i]
  {
    hide Derived, HeaderHash, PowOk, SatAddWork;
    assert RowOk(cfg, c.base, c.rows, i);
  }

  /** The serialized headers of a chain: the strings its links hash. */
  ghost function Serialized(c: Chain): set<seq<byte>> { set i | 0 <= i < |c.rows| :: EncodeHeader(c.rows[i].header) }

  lemma SameHashSameHeader(cfg: Config, c: Chain, d: Chain, k: nat)
    requires ChainOk(cfg, c) && ChainOk(cfg, d) && k < |c.rows| && k < |d.rows| && c.rows[k].hash == d.rows[k].hash
    ensures c.rows[k].header == d.rows[k].header || Collision(cfg.H, Serialized(c) + Serialized(d))
  {
    hide Derived, EncodeHeader, PowOk;
    assert RowOk(cfg, c.base, c.rows, k) && RowOk(cfg, d.base, d.rows, k);
    var x, y := EncodeHeader(c.rows[k].header), EncodeHeader(d.rows[k].header);
    assert x in Serialized(c) && y in Serialized(d);
    DecodeEncodeHeader(c.rows[k].header);
    DecodeEncodeHeader(d.rows[k].header);
  }

  /** Two chains over the same heights that agree on one hash agree on every header up to it, or a collision is in hand. */
  lemma {:induction false} OneHashOnePast(cfg: Config, c: Chain, d: Chain, k: nat)
    requires ChainOk(cfg, c) && ChainOk(cfg, d) && k < |c.rows| && k < |d.rows| && c.rows[k].hash == d.rows[k].hash
    ensures (forall i :: 0 <= i <= k ==> c.rows[i].header == d.rows[i].header) || Collision(cfg.H, Serialized(c) + Serialized(d))
  {
    hide Derived, EncodeHeader, PowOk, Collision;
    SameHashSameHeader(cfg, c, d, k);
    if k > 0 && c.rows[k].header == d.rows[k].header {
      assert RowOk(cfg, c.base, c.rows, k) && RowOk(cfg, d.base, d.rows, k);
      OneHashOnePast(cfg, c, d, k - 1);
    }
  }

  /** So two accepted snapshots from the same height that both reach a pinned checkpoint hold the same headers up to it. */
  lemma SnapshotsAgree(cfg: Config, now: nat, later: nat, s: Snapshot, t: Snapshot, cp: nat)
    requires Restore(cfg, now, s).Some? && Restore(cfg, later, t).Some? && s.baseHeight == t.baseHeight
    requires cp in cfg.pins && s.baseHeight <= cp < s.baseHeight + |s.headers| && cp < t.baseHeight + |t.headers|
    ensures var c, d := Restore(cfg, now, s).value, Restore(cfg, later, t).value;
      |c.rows| > cp - s.baseHeight && |d.rows| > cp - s.baseHeight
      && ((forall i :: 0 <= i <= cp - s.baseHeight ==> c.rows[i].header == d.rows[i].header)
          || Collision(cfg.H, Serialized(c) + Serialized(d)))
  {
    hide RestoreRows, Derived, EncodeHeader, PowOk, Collision;
    RestoreKeeps(cfg, now, s.baseHeight, s.headers);
    RestoreKeeps(cfg, later, t.baseHeight, t.headers);
    var c, d := Restore(cfg, now, s).value, Restore(cfg, later, t).value;
    assert RowOk(cfg, c.base, c.rows, cp - c.base) && RowOk(cfg, d.base, d.rows, cp - c.base);
    OneHashOnePast(cfg, c, d, cp - c.base);
  }

  // ----- a client's whole life over its pins -----

  /** What a client may do to the chain it holds; `now` is its clock at the time. */
  datatype Op = IngestOp(now: nat, o: Offered) | ReorgOp(now: nat, alt: seq<Offered>)

  /** A refused operation leaves the chain. */
  function Perform(cfg: Config, c: Chain, op: Op): Chain {
    var d := match op
             case IngestOp(now, o) => Ingest(cfg, now, c, o)
             case ReorgOp(now, alt) => Reorg(cfg, now, c, alt);
    if d.Some? then d.value else c
  }

  function PerformAll(cfg: Config, c: Chain, ops: seq<Op>): Chain {
    if ops == [] then c else Perform(cfg, PerformAll(cfg, c, ops[..|ops| - 1]), ops[|ops| - 1])
  }

  lemma IngestGains(cfg: Config, now: nat, c: Chain, o: Offered)
    requires ChainOk(cfg, c) && Ingest(cfg, now, c, o).Some?
    ensures Ingest(cfg, now, c, o).value.base == c.base && Work(Ingest(cfg, now, c, o).value) >= Work(c)
  {
    hide HeaderInRange, HeaderHash, PowOk, Pinned, ExpectedBits, TimeOk, IsGenesis, WindowAt, Derived;
    if c.rows != [] { assert RowOk(cfg, c.base, c.rows, |c.rows| - 1); }
  }

  /** Nothing a client is handed takes back its base, its soundness or its work. */
  lemma {:induction false} PerformAllKeeps(cfg: Config, c: Chain, ops: seq<Op>)
    requires ChainOk(cfg, c)
    ensures var d := PerformAll(cfg, c, ops); ChainOk(cfg, d) && d.base == c.base && Work(d) >= Work(c)
  {
    hide ChainOk, Ingest, Reorg, Work, Appended;
    if ops != [] {
      var m, op := PerformAll(cfg, c, ops[..|ops| - 1]), ops[|ops| - 1];
      PerformAllKeeps(cfg, c, ops[..|ops| - 1]);
      match op
      case IngestOp(now, o) =>
        if Ingest(cfg, now, m, o).Some? {
          IngestKeeps(cfg, now, m, o);
          IngestGains(cfg, now, m, o);
        }
      case ReorgOp(now, alt) =>
        if Reorg(cfg, now, m, alt).Some? {
          ReorgSound(cfg, now, m, alt);
        }
    }
  }

  lemma ReorgSound(cfg: Config, now: nat, c: Chain, alt: seq<Offered>)
    requires ChainOk(cfg, c) && Reorg(cfg, now, c, alt).Some?
    ensures var d := Reorg(cfg, now, c, alt).value; ChainOk(cfg, d) && d.base == c.base && Work(d) > Work(c)
  {
    hide ChainOk, IngestAll;
    ReorgKeeps(cfg, now, c, alt);
  }

  /** Whatever a client is offered, and however it reorganises, any two of the chains it passes through - or two clients
      that started from one chain - that both reach a pinned checkpoint agree on every header up to it, or a collision
      is in hand: no reorg rewrites the past of a pin. */
  lemma PinsHoldThroughReorgs(cfg: Config, c: Chain, xs: seq<Op>, ys: seq<Op>, cp: nat)
    requires ChainOk(cfg, c) && cp in cfg.pins
    requires At(PerformAll(cfg, c, xs), cp).Some? && At(PerformAll(cfg, c, ys), cp).Some?
    ensures var d, e := PerformAll(cfg, c, xs), PerformAll(cfg, c, ys);
      (forall h :: c.base <= h <= cp ==> At(d, h).Some? && At(e, h).Some? && At(d, h).value.header == At(e, h).value.header)
      || Collision(cfg.H, Serialized(d) + Serialized(e))
  {
    hide ChainOk, PerformAll, Collision, Serialized;
    PerformAllKeeps(cfg, c, xs);
    PerformAllKeeps(cfg, c, ys);
    var d, e, k := PerformAll(cfg, c, xs), PerformAll(cfg, c, ys), cp - c.base;
    PinnedRow(cfg, d, k);
    PinnedRow(cfg, e, k);
    OneHashOnePast(cfg, d, e, k);
    if !Collision(cfg.H, Serialized(d) + Serialized(e)) {
      forall h | c.base <= h <= cp ensures At(d, h).Some? && At(e, h).Some? && At(d, h).value.header == At(e, h).value.header {
        assert d.rows[h - c.base].header == e.rows[h - c.base].header;
      }
    }
  }
}
