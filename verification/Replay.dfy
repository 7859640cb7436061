/** resolve(): the fold of the record handlers over an ordered feed (packages/cairnx/src/resolve.ts). */
module Replay {
  import opened Rules
  import opened Ledgers
  import opened Handlers

  /** Cross a block boundary: the deferred cancels of the block that ended take effect. */
  function EnterBlock(L: Ledger, height: nat): Ledger {
    if height != L.block then FlushCancels(L).(block := height) else L
  }

  /** The ledger a handler sees at `height`. */
  function Prepare(L: Ledger, height: nat): Ledger { SweepExpired(EnterBlock(L, height), height) }

  function Handle(L: Ledger, ev: Event): Ledger {
    if ev.Propose? then ApplyPropose(L, ev) else ApplyAttest(L, ev)
  }

  function Step(L: Ledger, ev: Event): Ledger {
    if ev.height < ACTIVATION_HEIGHT then L else Handle(Prepare(L, ev.height), ev)
  }

  function RunFrom(L: Ledger, evs: seq<Event>): Ledger {
    if evs == [] then L else Step(RunFrom(L, evs[..|evs| - 1]), evs[|evs| - 1])
  }

  function Run(evs: seq<Event>): Ledger { RunFrom(EMPTY, evs) }

  /** Flush the final block's cancels and expire everything expired as of the tip. */
  function Seal(L: Ledger, tip: nat): Ledger { SweepExpired(FlushCancels(L).(block := tip + 1), tip + 1) }

  lemma RunFromAppend(L: Ledger, a: seq<Event>, b: seq<Event>)
    ensures RunFrom(L, a + b) == RunFrom(RunFrom(L, a), b)
  {
    if b == [] {
      assert a + b == a;
    } else {
      assert (a + b)[..|a + b| - 1] == a + b[..|b| - 1];
      RunFromAppend(L, a, b[..|b| - 1]);
    }
  }

  // ----- what a well-formed feed is -----

  predicate Amount(n: nat) { 1 <= n <= MAX_AMOUNT }

  /** The bounds parseRecord puts on a record's amounts. */
  predicate RecordOk(rec: Record) {
    match rec
    case Deploy(_, supply, limit) => Amount(supply) && (limit.Some? ==> Amount(limit.value))
    case Mint(_, amount) => amount.Some? ==> Amount(amount.value)
    case Transfer(_, _, amount) => Amount(amount)
    case OfferRec(give, want, _, min, _) =>
      (give.TokenGive? ==> Amount(give.amount))
      && (want.ValueSpec? ==> want.value <= MAX_AMOUNT) && (want.AmountSpec? ==> want.amount <= MAX_AMOUNT)
      && (want.AmountSpec? && give.TokenGive? ==> want.ticker != give.ticker)
      && (min.Some? ==> give.TokenGive? && want.ValueSpec? && 1 <= min.value <= want.value)
    case _ => true
  }

  predicate EventOk(ev: Event) { ev.Propose? && ev.rec.Some? ==> RecordOk(ev.rec.value) }

  /** Consensus order: height, then proposals before attests, then position, then id. */
  predicate Before(a: Event, b: Event) {
    a.height < b.height
    || (a.height == b.height
        && ((a.Propose? && b.Attest?)
            || (a.Propose? == b.Propose? && (a.pos < b.pos || (a.pos == b.pos && a.id < b.id)))))
  }

  ghost predicate Ordered(evs: seq<Event>) {
    forall i, j :: 0 <= i < j < |evs| ==> Before(evs[i], evs[j])
  }

  /** A feed in consensus order in which every transaction id occurs once. */
  ghost predicate Feed(evs: seq<Event>) {
    Ordered(evs)
    && (forall i, j :: 0 <= i < j < |evs| ==> evs[i].id != evs[j].id)
    && (forall i :: 0 <= i < |evs| ==> EventOk(evs[i]))
  }
}
