/** The CairnX rule constants and the pure selectors over them (packages/cairnx/src/types.ts).
    Heights and epochs are natural numbers; amounts are unbounded, as the source's bigints are. */
module Rules {

  datatype Option<+T> = None | Some(value: T)

  /** A transaction id, an address or a hash, read as the number its fixed-length lowercase hex spells.
      Strings of one length over 0-9a-f compare by code unit exactly as these numbers do. */
  type Id = nat
  type Addr = nat
  type Hash = nat

  const ACTIVATION_HEIGHT: nat := 29_860
  const V11_HEIGHT: nat := 29_960
  const V12_HEIGHT: nat := 30_300
  const V13_HEIGHT: nat := 31_100
  const V14_HEIGHT: nat := 31_400
  const V15_HEIGHT: nat := 32_000
  const V16_HEIGHT: nat := 33_600
  const V17_HEIGHT: nat := 34_000
  const V18_HEIGHT: nat := 40_000
  const V20_HEIGHT: nat := 38_400
  const V21_HEIGHT: nat := 40_100
  const V22_HEIGHT: nat := 41_300
  const V24_HEIGHT: nat := 46_400
  const V25_HEIGHT: nat := 46_440
  const V26_HEIGHT: nat := 46_480
  const V27_HEIGHT: nat := 46_520
  const V28_HEIGHT: nat := 60_000
  const V29_HEIGHT: nat := 88_000

  const EPOCH_LEN: nat := 30
  const MAX_SAFE_INTEGER: nat := 0x1F_FFFF_FFFF_FFFF
  const MAX_AMOUNT: nat := 0xFFFF_FFFF_FFFF_FFFF_FFFF_FFFF

  const SCORE_FILL: nat := 100
  const SCORE_CANCEL: nat := 0
  const SCORE_CLAIM: nat := 50
  const CONF_TOKEN_FILL: nat := 1_000_000

  const CLAIM_WINDOW_BLOCKS: nat := 15
  const CLAIM_WINDOW_BLOCKS_V20: nat := 40
  const CLAIM_FILL_GRACE_BLOCKS: nat := 5
  const MAX_ACTIVE_CLAIMS: nat := 3
  const CLAIM_COOLDOWN_BLOCKS: nat := 15
  const FCLAIM_MAX_EPOCH_AHEAD: nat := 2
  const FILL_TIP_MARGIN: nat := 4
  const MAX_OFFER_EPOCHS: nat := 168

  const TREASURY_ADDR: Addr := 0x6b09ce74e6070ebc982ab0fb793a211c4d24f016
  const FEE_BPS: nat := 100
  const FEE_BPS_V16: nat := 150
  const REBATE_FLAT: nat := 25_000_000
  const REBATE_BPS: nat := 50
  const DEPLOY_FEE: nat := 100_000_000

  const NAME_TERM_EPOCHS: nat := 8_760
  const NAME_GRACE_EPOCHS: nat := 720
  const NAME_PREMIUM_START: nat := 20
  const NAME_PREMIUM_DECAY_EPOCHS: nat := 720
  const COMMIT_MAX_BLOCKS: nat := 8 * EPOCH_LEN
  const REG_COMMIT_MAX_BLOCKS: nat := 8
  const REG_FINALIZE_GRACE_BLOCKS: nat := 20
  const MAX_PENDING_REG: nat := 3
  const FINALIZE_TIP_MARGIN: nat := 2

  function EpochOf(height: nat): nat { height / EPOCH_LEN }

  const V15_EPOCH: nat := EpochOf(V15_HEIGHT)

  /** The taker fee on a trade of `want` base units at `bps`, rounded up. */
  function TradeFee(want: nat, bps: nat): nat { (want * bps + 9999) / 10000 }

  function MakerRebate(value: nat): nat { REBATE_FLAT + (value * REBATE_BPS + 9999) / 10000 }

  /** The fee of an offer whose stamped rate is `bps`: a zero rate is free. */
  function FeeAt(amount: nat, bps: nat): nat { if bps != 0 then TradeFee(amount, bps) else 0 }

  function NameRegFee(length: nat, height: nat): nat {
    if height >= V24_HEIGHT then
      if length <= 3 then 1_500_000_000 else if length == 4 then 1_000_000_000
      else if length <= 9 then 500_000_000 else 300_000_000
    else if height >= V18_HEIGHT then
      if length <= 4 then 670_000_000 else 300_000_000
    else if length <= 3 then 500_000_000 else if length == 4 then 200_000_000
    else if length == 5 then 100_000_000 else if length <= 9 then 50_000_000 else 10_000_000
  }

  /** The fee to claim a name whose lease lapsed: a premium over the registration fee that decays linearly. */
  function ExpiredClaimFee(length: nat, epochsPastGrace: nat, height: nat): nat {
    var base := NameRegFee(length, height);
    if epochsPastGrace >= NAME_PREMIUM_DECAY_EPOCHS then base
    else
      var left := NAME_PREMIUM_DECAY_EPOCHS - epochsPastGrace;
      base * (1 + ((NAME_PREMIUM_START - 1) * left) / NAME_PREMIUM_DECAY_EPOCHS)
  }

  function ClaimWindowAt(height: nat): nat {
    if height >= V20_HEIGHT then CLAIM_WINDOW_BLOCKS_V20 else CLAIM_WINDOW_BLOCKS
  }

  /** The fill grace of a stored claim, recovered from its era; an fclaim hold has none. */
  function ClaimGraceOf(claimUntil: nat, claimTxid: Option<Id>): nat {
    if claimTxid.Some? then 0
    else if claimUntil >= V20_HEIGHT + CLAIM_WINDOW_BLOCKS_V20 then CLAIM_FILL_GRACE_BLOCKS else 0
  }

  /** The last height at which an fclaim's fill can mine. */
  function FclaimHoldEnd(expiresEpoch: nat): nat { (expiresEpoch + 1) * EPOCH_LEN - 1 }

  /** The first height at which an offer anchored at `anchor` is expired. */
  function OfferExpiryHeightOf(expiresEpoch: nat, anchor: nat): nat {
    var raw := (expiresEpoch + 1) * EPOCH_LEN;
    if anchor >= V22_HEIGHT then raw
    else
      var capped := (EpochOf(anchor) + MAX_OFFER_EPOCHS + 1) * EPOCH_LEN;
      var late := if V21_HEIGHT > capped then V21_HEIGHT else capped;
      if raw < late then raw else late
  }

  /** The fee rate stamped on an offer created at `height`. */
  function FeeBpsAt(height: nat): nat {
    if height >= V11_HEIGHT then (if height >= V16_HEIGHT then FEE_BPS_V16 else FEE_BPS) else 0
  }
}
