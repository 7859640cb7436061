# CairnX and its light client, verified

This project models four connected parts of the repository in Dafny and proves what they promise.

**The CairnX resolver** (`Rules`, `Ledger`, `Handlers`, `Replay`, `Ordering`, `Resolver`). `Ledger.dfy` holds the replay
state as a value and the helpers that change it, `Handlers.dfy` one specification function per record kind, `Replay.dfy`
the fold over a feed. `Resolver.dfy` is the program in its own form: a class with the maps and private indexes of the
replay context, one method per helper and record kind, the event loop, each proved to leave exactly the ledger of its
specification. The invariants live in `Closing` (closing passes, sweep and indexes), `Offers` (terms, partial fills,
claims), `Moves` (what one event does to the offers), `Heights`, `Indexes`, `Conservation` (tokens), `NameSafety`,
`Holds` (the hold cap and the invariant of every reachable ledger), `HoldSafety`, `Provenance`, `Registration`,
`Recaptures` and `Lane` (all that the rest of a ledger has to do with one offer). What each record does is stated once
more in plain numbers, without the helpers the handlers are written with: `Naming` (commits, reveals, finalizes, leases,
fees), `Contest` (who wins a name), `Listing` (offers and bids), `Cancels`, `Granting` (holds and routing), `Pricing` and
`Delivery` (what a fill must pay and what it hands over) and `Issuance` (tokens).
`Surface.dfy` states what they say of every state `resolve()` serves, for every chain and every tip.

**The client fund boundary** (`Preflight`, `VerifyFill`, `Verdict`, `HoldCount`, `LaneFill`). The small predicates a client
signs by, and the proof that they agree with the resolver, or refuse more: a previewed fill is the applied fill, a safe fill or finalize
is applied under any continuation, and the buyer's own hold count is never below the resolver's.

**The light client and its codec** (`Bytes`, `Utf8`, `TxCodec`, `TxLayout`, `TxReader`, `Merkle`, `Bind`, `Header`, `Lwma`,
`Retarget`, `LightChain`, `ChainRules`, `LightClient`). The transaction printer and parser, the merkle bind, compact
difficulty and its re-derivation, and the max-work header chain with reorg, seeding and snapshot restore. sha256d is an unspecified function to 32 bytes, given as
a parameter; uniqueness is stated as "equal, or two different members of this finite set of hashed strings have one hash".

**Two kernels**: Sunrise order pricing (`Sunrise`, `SunriseValue`) and coin selection with assembly (`CoinSelect`).

Ids, addresses and hashes of the resolver are natural numbers: strings of one length over 0-9a-f order by code unit as
the numbers they spell. Amounts are unbounded integers, as the source's bigints are. Every height gate that an offer, name,
fill, claim or expiry rule reads is kept at its value. Records are taken parsed; a name reveal or finalize carries the
commit hash re-derived from its name, salt and proposer, the only use the handlers make of a salt. Deferred cancels are
data - the offers named and the height - where the source keeps closures that read the same offers later. A thrown error
is `None` or a refusal. The wall clock, the policy depth a fill must be buried, and the signature script are parameters.

Two properties hold only from a gate on, and are stated so. A repeated transaction is ignored if and only if it is at or
above V29 (`Ordering.AppliedAlikeExactly` says exactly when two deliveries are applied alike), and below V29 it applies
again: from the activation height up to V29, and nowhere else, a repeat can change what is served
(`Ordering.RepeatMattersExactly`; `Ordering.RepeatsCountBelowV29` gives an input at each of those heights). A cancelled or
swept offer leaves its lock entry behind, so the lock invariants speak of open offers. A comment in
`packages/cairnx/src/resolve/names.ts` places V26 at block 51,200; the constant is 46,480, and the model follows the
constant.

`Delivered` in `Ordering.dfy` says what a chain's events are: one id has one content, parsed amounts are within their
bounds, and below V29 each event comes once. It is the only condition of the theorems about whole runs, with event heights
not above the tip. `HoldCounting` and `LaneFill` assume besides that two proposals of one block have different positions.

## Model

| member | source | states |
|---|---|---|
| Surface.ServedIsSound | packages/cairnx/src/resolve.ts:31-102 | every state resolve() serves, for every chain and tip, satisfies the full invariant: offers, heights, tokens, names, holds, indexes |
| Surface.TokensConserved | packages/cairnx/src/resolve/context.ts:88-102 | over every run: a ticker's circulating sum equals what was minted and is at most its supply, unknown tickers circulate nothing, no balance is negative, and an address's locked balance is exactly what its open offers still have to deliver |
| Surface.ListedNamesSafe | packages/cairnx/src/resolve/market.ts:23-48 | while an offer of a name is open the name is there, registered, owned by the seller, locked, not lapsed, and listed by that one offer |
| Surface.HoldsCapped | packages/cairnx/src/resolve/context.ts:155-158 | no address ever holds more than three open offers at once |
| Surface.PortionsAddUp | packages/cairnx/src/resolve/attest.ts:135-164 | the account of an offer sold in portions: delivered is the pro-rata floor, fills sum to paid and delivered, filled exactly when fully paid and then fully delivered, and the fees lie between the whole-trade fee and that plus one per further fill |
| Surface.ServedIsSettled | packages/cairnx/src/resolve.ts:97-102 | resolve() is a scan of every row of the replayed ledger after the last block's cancels: the closing sweep over the private indexes settles what the scan would; the indexes are exactly the open offers, open bids and pending names, and nothing left open has reached its expiry height |
| Surface.SweptIsScanned | conformance/cairnx_ref.py:450-464 | at every height of every run the indexed sweep gives what the reference's scan of every row gives |
| Surface.DeadBranches | packages/cairnx/src/resolve/attest.ts:106-113 | at every event of every chain an open offer can deliver: the branches for a missing lock, a vanished name or a zero price never run |
| Ordering.AppliedAlikeExactly | packages/cairnx/src/resolve.ts:34-58 | two deliveries are applied alike if and only if they hold the same events at or above V29, in any order and number, and the same events equally often below it |
| Ordering.RepeatIgnoredExactly | packages/cairnx/src/resolve.ts:43-58 | one more copy of a delivered event is ignored if and only if the event is at or above V29 |
| Ordering.RepeatMattersExactly | packages/cairnx/src/resolve.ts:45-58 | a repeat at a given height can change the state served if and only if the height is at least the activation height and below V29 |
| Ordering.ResolvedAlike | packages/cairnx/src/resolve.ts:65-66 | deliveries that differ only below the activation height are resolved alike |
| Ordering.DeliveryDoesNotMatter | packages/cairnx/src/resolve.ts:34-58 | for chains whose events below V29 come once, resolve() depends only on the set of events: neither order nor repetition changes the result |
| Ordering.RepeatsCountBelowV29 | packages/cairnx/src/resolve.ts:45-58 | at every height from activation up to V29, every mint within the supply of a token just deployed credits twice its amount when it is delivered twice, and once when delivered once |
| Ordering.AppliedIsFeed | packages/cairnx/src/resolve.ts:34-58 | what is applied is in strict consensus order and holds every delivered event once |
| Ordering.AppliedInPlace | packages/cairnx/src/resolve.ts:34-42 | of any two applied events the sooner one comes first: by block, then proposals before attests, then position, then id |
| Ordering.FeedIsApplied | packages/cairnx/src/resolve.ts:34-58 | a list already in order with every id once is applied as it is |
| Ordering.SortSorts | packages/cairnx/src/resolve.ts:34-42 | the sort is a permutation in consensus order |
| Runs.Continues | packages/cairnx/src/resolve.ts:65-95 | any feed cut in two: the first part reaches a sound ledger and the rest continues from it |
| HoldCap.RunKeepsInv | packages/cairnx/src/resolve.ts:65-95 | every continuation of a sound ledger keeps every invariant |
| HoldCap.StepKeepsInv | packages/cairnx/src/resolve.ts:65-95 | one event - block boundary, sweep and handler - keeps every invariant |
| Closing.IndexedSweepIsFullScan | packages/cairnx/src/resolve/context.ts:105-128 | with the indexes in step, the sweep that walks only them gives the state of a scan of every row |
| Closing.CloseAllEffect | packages/cairnx/src/resolve/context.ts:139-147 | a pass that closes offers closes exactly the visited ones that are open and due, unlocks exactly their names and leaves the rest alone |
| Closing.ExpiryHeightExact | packages/cairnx/src/types.ts:388-393 | offerExpiryHeightOf is exactly the first height at which the sweep expires the offer, across the V21 and V22 gates |
| IndexInvariants.HandleKeepsIndex | packages/cairnx/src/resolve/context.ts:67-81 | every handler keeps the open-offer, open-bid and pending-name indexes equal to the sets they stand for, in insertion order |
| HeightInvariants.PrepareUnexpired | packages/cairnx/src/resolve/context.ts:105-111 | no offer the sweep leaves open has expired |
| HeightInvariants.HandleKeepsTime | packages/cairnx/src/resolve.ts:62-69 | nothing a ledger holds is later than its block, and a deferred cancel never outlives the block it was made in |
| Moves.HandleMoves | packages/cairnx/src/resolve/attest.ts:35-74 | every event either leaves the offers, closes some in a pass, adds its own, or replaces one open offer without changing its terms |
| Conservation.HandleKeepsTokens | packages/cairnx/src/resolve/attest.ts:95-226 | every handler keeps circulation equal to minted, balances non-negative and locks equal to the seller's locked balance |
| Conservation.CreditCirculating | packages/cairnx/src/resolve/context.ts:88-94 | crediting one balance moves its ticker's circulation by exactly what was credited, and no other ticker's |
| Conservation.DeliverKeepsTokens | packages/cairnx/src/resolve/context.ts:161-166 | delivering x locked units of the seller to the buyer keeps the token invariant |
| Conservation.CloseTokenGive | packages/cairnx/src/resolve/context.ts:99-102 | closing a token offer returns exactly its lock, though the lock entry stays |
| NameSafety.ListedNotLapsed | packages/cairnx/src/resolve/market.ts:44-48 | an open offer that has not expired keeps its name's lease alive: the lease check at listing is enough |
| NameSafety.ListedNotBeaten | packages/cairnx/src/resolve/market.ts:29-43 | a reveal can displace a listed name only if the listing predates the sale embargo |
| NameSafety.HandleKeepsNames | packages/cairnx/src/resolve/names.ts:36-200 | every handler keeps names and the offers that list them in agreement |
| Registration.FrozenNameHolds | packages/cairnx/src/resolve/names.ts:108-124 | from V25, past the reveal window of its anchor, a name's record stays with its holder except by the holder's transfer, a fill of the offer that lists it, a recapture after its lease lapsed, or the holder's own finalize |
| Registration.FrozenNotBeaten | packages/cairnx/src/resolve/names.ts:49-63 | no window-valid reveal beats a name past its freeze |
| Registration.ReservationKept | packages/cairnx/src/resolve/names.ts:108-124 | a live reservation and the commit that opens it come unchanged through any continuation of its finalize window |
| Registration.SafeFinalizeIsAccepted | packages/cairnx/src/preflight.ts:328-361 | a finalizeWinnerCheck safe verdict with a tip, on the true record and the caller's own commit height: under any continuation a correctly opened, paid nfinalize mined at tip+1 or tip+2 registers the name for a full term |
| RecaptureLane.SafeRecaptureIsAccepted | packages/cairnx/src/resolve/names.ts:176-198 | a live recapture reservation past its reveal window: under any continuation its owner's opened nfinalize that pays the decaying premium inside the window takes the lapsed name for a full term |
| RecaptureLane.RecaptureKept | packages/cairnx/src/resolve/names.ts:77-90 | the recapture reservation, the lapsed record and the commit that opens it come unchanged through any continuation in the finalize window |
| RecaptureLane.FeedRecaptures | packages/cairnx/src/resolve/names.ts:190-194 | on every reachable ledger a recapture reservation is of a lapsed, registered name, so the branch for a name no longer lapsed never runs |
| HoldSafety.HeldOfferUntouched | packages/cairnx/src/resolve/attest.ts:17-26 | whatever anyone anchors, short of the holder's own fill, an offer held through an fclaim stays exactly as it is to the end of the hold |
| HoldSafety.GrantHolds | packages/cairnx/src/resolve/market.ts:121-160 | a granted fclaim leaves the offer open, held by its proposer, routed to it, through the epoch it asked for |
| HoldSafety.GrantedHoldIsSafe | packages/cairnx/src/resolve/market.ts:141-160 | from the grant on, over every continuation: the offer is open, held, routed and unchanged |
| HoldSafety.HeldNotDue | packages/cairnx/src/resolve/context.ts:139-147 | from V28 neither a deferred cancel, a name void nor the sweep closes a held offer |
| Provenance.WholeRunFromEvents | packages/cairnx/src/resolve/market.ts:154-160 | every offer and every fclaim record a run holds is that of one of its events |
| Provenance.RunRoutes | packages/cairnx/src/resolve/market.ts:157-159 | an open offer that routes to an fclaim has done so ever since that fclaim's own event |
| Pricing.WholeFillPays | packages/cairnx/src/resolve/attest.ts:168-226 | on every reachable ledger a fill of a whole CSD-priced offer is applied if and only if its author is admitted and every address is paid what it is owed: the price, ceil(price*rate/10000) to the treasury, and, for an offer anchored from V16 on that answers a bid for one taker or from V17 on stands open, 25,000,000 + ceil(price*50/10000) to the seller; coinciding addresses add up |
| Pricing.OutputsAreOwed | packages/cairnx/src/preflight.ts:122-135 | requiredFillOutputs of a whole offer gives every address exactly those sums, and refuses exactly when the payment is below the price |
| Pricing.PreviewExplains | packages/cairnx/src/preflight.ts:57-121 | why a preview refuses, each reason if and only if, and that what it refuses it shows to deliver nothing |
| Pricing.PortionPays | packages/cairnx/src/resolve/attest.ts:125-166 | on every reachable ledger a portion is applied if and only if its author is admitted, the payee gets the minimum or the remainder, the treasury its rounded-up share of what is credited, and at least one unit more of the pro-rata floor is delivered; the offer's account then stands as computed |
| Pricing.TokenFillMoves | packages/cairnx/src/resolve/attest.ts:95-123 | on every reachable ledger a token-priced fill happens exactly when its buyer can settle price and fee, and then moves every balance of every ticker by its share |
| Deliveries.WholeFillDelivers | packages/cairnx/src/resolve/attest.ts:168-226 | an applied whole fill hands over the whole give: the tokens out of the seller's lock, or the name, which from V13 on is anchored at the sale and counts as bought; the bid it answers is done if it was its bidder's own fill |
| Deliveries.TokenFillDelivers | packages/cairnx/src/resolve/attest.ts:95-123 | so does a token-priced fill, over the balances its payment leaves |
| Deliveries.PortionDelivers | packages/cairnx/src/resolve/attest.ts:125-166 | an applied portion hands over what it adds to the delivered total, and leaves exactly the undelivered rest locked; the last one consumes the lock and answers the bid |
| Listings.OfferListed | packages/cairnx/src/resolve/market.ts:13-71 | an offer is listed if and only if its terms are acceptable at its height and its give can be tied up - the name rules and the token rules, era by era, in plain numbers - and the book then carries it as its record states it, with its give locked |
| Listings.BidBooked | packages/cairnx/src/resolve/market.ts:73-87 | a bid is booked exactly from V12 on, before its own end, inside the bounds of its era |
| Listings.BidsExpire | packages/cairnx/src/resolve/context.ts:112-116 | the sweep before an event expires exactly the open bids that are over |
| Cancels.SellerCancels | packages/cairnx/src/resolve/attest.ts:76-93 | on every reachable ledger a cancel is the seller's alone, of an open offer that is no firm quote: queued from V14 on, below it at once, the undelivered give returned |
| Cancels.BulkCancels | packages/cairnx/src/resolve/market.ts:89-119 | a bulk cancel names exactly its author's open offers of the filter that are no firm quotes |
| Cancels.BoundaryCancels | packages/cairnx/src/resolve.ts:62-63 | the block boundary cancels exactly the offers still open that a queued cancel names, but for those that its own height finds under a live fclaim hold |
| Cancels.FirmQuotesStand | packages/cairnx/src/resolve/market.ts:98 | over every run a taker-bound offer from V28 on is never cancelled: not by its seller, not in bulk, not by a void of its name |
| Cancels.FirmQuotesServed | packages/cairnx/src/resolve/attest.ts:80 | and is not in any state served |
| Granting.FclaimGranted | packages/cairnx/src/resolve/market.ts:121-160 | from V28 on every fclaim is recorded, and granted exactly when the offer is open, for anyone, CSD-priced, unheld and not just held by its author, who holds fewer than three, through an epoch at most two ahead that the offer outlives |
| Granting.HoldIsShort | packages/cairnx/src/resolve/market.ts:157-159 | a granted hold is live at once and over within ninety blocks |
| Granting.ClaimGranted | packages/cairnx/src/resolve/attest.ts:228-261 | a claim attest holds an offer by the same ladder in [V17, V28), for fifteen blocks or, from V20, forty, and does nothing else ever |
| Granting.ActsOn | packages/cairnx/src/resolve/attest.ts:35-52 | on every reachable ledger an attest acts on an offer if and only if it names it, or is a fill from V28 on that names the fclaim now holding it |
| Granting.OtherAttests | packages/cairnx/src/resolve/attest.ts:53-74 | any other attest does nothing but cancel its author's own open bid |
| Naming.CommitsAreFirst | packages/cairnx/src/resolve/names.ts:27-34 | over every run a hash counts as committed from the height of its first commit record, and only such a record commits it |
| Naming.RevealReserves | packages/cairnx/src/resolve/names.ts:105-126 | from V25 on a reveal reserves a name if and only if its commit is at most eight blocks old, its author holds under three other reservations and no record stands against its anchor; the record it then writes |
| Naming.RevealRecaptures | packages/cairnx/src/resolve/names.ts:77-90 | a reveal of a lapsed name reserves its recapture by the same rule |
| Naming.RevealRegisters | packages/cairnx/src/resolve/names.ts:127-144 | below V25 a reveal registers at once if and only if it is anchored in the 240-block window or carries no commit, pays the fee and no record stands against its anchor |
| Naming.FinalizeRegisters | packages/cairnx/src/resolve/names.ts:146-175 | a finalize of one's own reservation registers the name if and only if it opens the commit, in blocks 9 to 28 after it, and pays the fee |
| Naming.FinalizeRecaptures | packages/cairnx/src/resolve/names.ts:176-200 | a finalize of one's own recapture takes the lapsed name if and only if it is as timely and pays the premium of its epoch |
| Naming.OthersFinalizeNothing | packages/cairnx/src/resolve/names.ts:146-155 | anyone else's finalize does nothing |
| Naming.FinalizeCheckExact | packages/cairnx/src/preflight.ts:328-361 | finalizeWinnerCheck with a tip is safe if and only if the record is the caller's own reservation of that commit and a finalize is timely at every height within two blocks of the tip |
| Naming.ReservationsEnd | packages/cairnx/src/resolve/context.ts:117-127 | the sweep drops exactly the reservations whose twenty-eight blocks are over, and no registered name |
| Naming.NameTransfers | packages/cairnx/src/resolve/names.ts:202-212 | a registered name that is not listed and not lapsed is its owner's to give away, and no one else's |
| Naming.NameRenews | packages/cairnx/src/resolve/names.ts:243-258 | a renewal adds a term for the fee: anyone's while the lease runs, the owner's alone in its grace, no one's after |
| Naming.PremiumFalls | packages/cairnx/src/types.ts:48-56 | the fee for a lapsed name starts at twenty registration fees, never rises, and is one from 720 epochs on |
| Naming.ShorterIsDearer | packages/cairnx/src/types.ts:201-212 | in no era is a shorter name cheaper |
| Contest.WinnerIsLeast | packages/cairnx/src/resolve/names.ts:24-25 | over every run from V25 on, the anchor (commit height, position, id) of a live reservation is the lexicographically least of all the reveals that contended for the name - in their window, with room, of a name not lapsed - since it was last open |
| Contest.WinnerRevealed | packages/cairnx/src/resolve/names.ts:108-124 | and the reservation belongs to the author of one of those reveals, at that reveal's anchor |
| Contest.RecaptureWinnerIsLeast | packages/cairnx/src/resolve/names.ts:77-90 | the same of the recapture reservation |
| Issuance.MintMoves | packages/cairnx/src/resolve/tokens.ts:24-44 | a mint credits its author with the most it may - what was asked, what an open mint allows at once, what is left - and only when its author may mint; nothing else moves |
| Issuance.TransferMoves | packages/cairnx/src/resolve/tokens.ts:46-55 | a transfer moves its amount of available balance exactly when there is so much, and nothing else |
| Issuance.DeployMoves | packages/cairnx/src/resolve/tokens.ts:9-22 | the first to deploy a ticker owns it, for one CSD from V11 on |
| Preflight.PreviewIsTheResolver | packages/cairnx/src/preflight.ts:57-135 | on every reachable ledger a fill of a CSD-priced offer is applied if and only if the client would sign it, then delivers the previewed amount for the previewed fee, and otherwise changes nothing; what either demands is stated in plain sums by Pricing.WholeFillPays, Pricing.PortionPays and Pricing.OutputsAreOwed |
| Preflight.EndorsementIsTheGate | packages/cairnx/src/preflight.ts:273-302 | fillEndorsement lets exactly the attester and target through that the resolver does |
| Preflight.OutputsAreNeeds | packages/cairnx/src/preflight.ts:122-135 | the merged output list of requiredFillOutputs is met exactly when the resolver's need map is |
| Preflight.RemainderCompletes | packages/cairnx/src/resolve/attest.ts:135-164 | paying the remainder and its fee always completes an open partial offer, delivering the whole give |
| Preflight.OpenOffersReady | packages/cairnx/src/resolve/attest.ts:110-113 | an open offer's lock or name is there |
| VerifyFill.SafeFillIsApplied | packages/cairnx/src/verifyfill.ts:204-332 | a safe verdict over a complete history: whatever is anchored after the tip, the caller's fill with the required outputs, mined at any height up to the end of the hold, is applied and delivers what was previewed |
| VerifyFill.ViewIsHeld | packages/cairnx/src/verifyfill.ts:127-143 | what the replayed view calls a live hold of mine is one in the chain's own ledger, granted by the proven fclaim through its epoch |
| LaneFill.SafeLaneFillIsApplied | packages/cairnx/src/verifyfill.ts:51-89 | over the offer's complete lane alone, with the give's backing: a safe verdict whose myLiveHoldsAtGrant is the buyer's own count, with no other claim of the lane refused by the cap, means that the planned fill is applied by the whole chain's ledger under any continuation, and delivers what was previewed |
| LaneFill.LaneViewIsHeld | packages/cairnx/src/verifyfill.ts:119-143 | what the lane's replay calls a live hold of mine is one in the chain's own ledger, on the offer in the very state the verdict saw |
| LaneFill.CountMeansRoom | packages/cairnx/src/verifyfill.ts:276-292 | a count of other holds below the cap means the resolver did not refuse the fclaim on the cap |
| Lanes.LaneIsTheChain | packages/cairnx/src/verifyfill.ts:58-89 | the replay of one offer's lane and that of the whole chain agree on the offer, its queued cancels and its fclaims at every height, so long as both admit the offer and no claim on it is refused by the cap alone |
| Lanes.HandleCell | packages/cairnx/src/resolve/attest.ts:35-74 | what any event other than its own does to an offer is decided by the offer, the routing of the attest and the author's room under the cap; nothing else of the ledger counts |
| Lanes.ViewLater | packages/cairnx/src/resolve/context.ts:105-128 | lazy sweeping and flushing are path-independent for an offer: however often a ledger is looked at on the way, it shows the same offer at the end |
| HoldCounting.CountOtherHoldsAtGrant | packages/cairnx/src/holdcount.ts:32-51 | the loop counts the distinct other offers with an earlier, still live, not closed fclaim of the buyer; below the sunset height it refuses |
| Verdicts.VerdictExact | packages/cairnx/src/verifyfill.ts:204-332 | over a complete history the verdict is safe if and only if the lane is proven deep, fewer than three other holds are asserted, the chain's own ledger holds the offer for the caller through the fclaim's epoch, the payment delivers as planned, and the hold outlasts the tip by four blocks |
| Verdicts.WholePaymentExact | packages/cairnx/src/verifyfill.ts:305-327 | the payment planned for a whole offer is safe if and only if it reaches the price and the transaction's sums, where given, are the price, the fee and the rebate to the unit, added up by address |
| Verdicts.PortionPaymentExact | packages/cairnx/src/verifyfill.ts:305-327 | that for a portion if and only if it reaches the minimum or the remainder, delivers a unit more, and the sums are what it credits and the fee on that |
| Verdicts.LaneExact | packages/cairnx/src/verifyfill.ts:204-285 | the lane is proven if and only if the history holds the CSD-priced offer and an fclaim on it from V28 on, both buried deep, and every fill attest of the offer or of any fclaim on it is buried as deep |
| HoldCounting.CountExact | packages/cairnx/src/holdcount.ts:32-51 | where none of the buyer's other fclaims still in force was denied and each one filled since is proven closed, the count is exactly the other offers the resolver holds for the buyer at the grant |
| HoldCounting.CountNeverUnder | packages/cairnx/src/holdcount.ts:32-51 | every hold the resolver counts at the grant, other than one on the reserved offer, is among those the buyer counted |
| HoldCounting.CapDenialShows | packages/cairnx/src/holdcount.ts:22-31 | on an offer nobody holds, the resolver's live hold count is at most the buyer's, so a cap denial always shows |
| HoldCounting.ClosedIsClosed | packages/cairnx/src/fillclosed.ts:19-43 | a fill that myProvenFillClosedOffer accepts did close the offer: no later ledger counts that hold |
| Verdicts.ClosingFillExact | packages/cairnx/src/fillclosed.ts:19-43 | a fill is accepted as closing if and only if, for a grant from V29 on, it is the caller's own under that fclaim, after it and before the grant, and pays the whole offer of the proven record to every address |
| HoldCounting.LiveHoldHasFclaim | packages/cairnx/src/holdcount.ts:11-14 | from the sunset height on every live hold is an fclaim's |
| Resolvers.Resolve | packages/cairnx/src/resolve.ts:31-102 | the imperative replay leaves exactly the ledger of the specification |
| Resolvers.DropRepeats | packages/cairnx/src/resolve.ts:53-58 | the de-duplication loop keeps the first of every repeated event at or above V29 |
| Resolvers.Resolver.constructor | packages/cairnx/src/resolve/context.ts:53-86 | a new context is empty |
| Resolvers.Resolver.Apply | packages/cairnx/src/resolve.ts:65-95 | one turn of the event loop |
| Resolvers.Resolver.ApplyPendingCancels | packages/cairnx/src/resolve.ts:62-63 | the deferred cancels run in order and the queue empties |
| Resolvers.Resolver.SettleAt | packages/cairnx/src/resolve.ts:97-102 | the final flush and the closing sweep at the height after the tip |
| Resolvers.Resolver.Sweep | packages/cairnx/src/resolve/context.ts:105-128 | the four sweep loops over the private indexes |
| Resolvers.Resolver.SweepOpenOffers | packages/cairnx/src/resolve/context.ts:105-111 | the offer loop visits a snapshot of the index in order |
| Resolvers.Resolver.SweepOpenBids | packages/cairnx/src/resolve/context.ts:112-116 | the bid loop |
| Resolvers.Resolver.SweepPendingNames | packages/cairnx/src/resolve/context.ts:117-127 | the reservation and recapture loops |
| Resolvers.Resolver.AddBalance | packages/cairnx/src/resolve/context.ts:88-94 | one balance changes, its row created at zero when missing |
| Resolvers.Resolver.SetOfferStatus | packages/cairnx/src/resolve/context.ts:70-73 | status and open-offer index move together |
| Resolvers.Resolver.PutNameRec | packages/cairnx/src/resolve/context.ts:78-81 | record and pending index move together |
| Resolvers.Resolver.ReleaseOffer | packages/cairnx/src/resolve/context.ts:99-102 | locked tokens return to the seller, or the name unlocks |
| Resolvers.Resolver.ReleaseLockedGive | packages/cairnx/src/resolve/context.ts:161-166 | the whole lock goes to the buyer and is consumed |
| Resolvers.Resolver.SettleBid | packages/cairnx/src/resolve/context.ts:131-135 | a bid filled by its bidder is done |
| Resolvers.Resolver.VoidNameOffers | packages/cairnx/src/resolve/context.ts:139-147 | the open offers of a name are cancelled, except one frozen by a live fclaim hold |
| Resolvers.Resolver.CountLiveHolds | packages/cairnx/src/resolve/context.ts:155-158 | the counting loop returns the number of offers counted against the cap |
| Resolvers.Resolver.Deploy | packages/cairnx/src/resolve/tokens.ts:9-22 | a new ticker, for the deploy fee from V11 |
| Resolvers.Resolver.Mint | packages/cairnx/src/resolve/tokens.ts:24-44 | the credit a mint record earns, clamped to the remaining supply |
| Resolvers.Resolver.Transfer | packages/cairnx/src/resolve/tokens.ts:46-55 | available balance moves if it covers the amount |
| Resolvers.Resolver.Commit | packages/cairnx/src/resolve/names.ts:27-34 | the earliest height of a commit is kept |
| Resolvers.Resolver.RevealName | packages/cairnx/src/resolve/names.ts:36-144 | the reveal ladder: window, lapsed claim, reservation, registration |
| Resolvers.Resolver.RecaptureName | packages/cairnx/src/resolve/names.ts:77-90 | the method leaves the ledger of its specification, a payment-free recapture reservation under the cap; who wins is Contest.RecaptureWinnerIsLeast |
| Resolvers.Resolver.ReserveName | packages/cairnx/src/resolve/names.ts:108-126 | the method leaves the ledger of its specification, a payment-free reservation under the cap that voids a displaced holder's listings; who wins is Contest.WinnerIsLeast |
| Resolvers.Resolver.RegisterName | packages/cairnx/src/resolve/names.ts:127-144 | the pre-V25 registration for its fee |
| Resolvers.Resolver.ReclaimName | packages/cairnx/src/resolve/names.ts:91-104 | the pre-V26 reclaim of a lapsed name at the decaying premium |
| Resolvers.Resolver.CountPending | packages/cairnx/src/resolve/names.ts:116-118 | the number of the address's other live reservations |
| Resolvers.Resolver.CountRecaptures | packages/cairnx/src/resolve/names.ts:84-86 | the number of the address's other live recaptures |
| Resolvers.Resolver.Finalize | packages/cairnx/src/resolve/names.ts:146-200 | both finalize lanes |
| Resolvers.Resolver.TransferName | packages/cairnx/src/resolve/names.ts:202-212 | an unlocked, live, registered name changes owner |
| Resolvers.Resolver.RenewName | packages/cairnx/src/resolve/names.ts:243-258 | a lease is extended by a term, by the owner only while in grace |
| Resolvers.Resolver.PlaceOffer | packages/cairnx/src/resolve/market.ts:13-71 | a listable name or a covered amount is locked and the offer added open |
| Resolvers.Resolver.PlaceBid | packages/cairnx/src/resolve/market.ts:73-87 | a bid inside its bounds is added open |
| Resolvers.Resolver.CancelAll | packages/cairnx/src/resolve/market.ts:89-119 | the proposer's matching open offers are queued for cancelling, or cancelled at once below V14 |
| Resolvers.Resolver.CancelTargets | packages/cairnx/src/resolve/market.ts:93-102 | the snapshot loop collects exactly those offers, in order |
| Resolvers.Resolver.ClaimOffer | packages/cairnx/src/resolve/market.ts:121-161 | the fclaim is recorded, and on a grant the offer's hold is set |
| Resolvers.Resolver.GrantLadder | packages/cairnx/src/resolve/market.ts:141-156 | the rungs of the grant ladder |
| Resolvers.Resolver.OnAttest | packages/cairnx/src/resolve/attest.ts:35-74 | routing and dispatch of an attest |
| Resolvers.Resolver.FindTarget | packages/cairnx/src/resolve/attest.ts:38-50 | the offer an attest acts on, through a current granted fclaim for a fill |
| Resolvers.Resolver.CancelOffer | packages/cairnx/src/resolve/attest.ts:76-93 | the seller's cancel, deferred from V14 |
| Resolvers.Resolver.FillInTokens | packages/cairnx/src/resolve/attest.ts:95-123 | the atomic token swap, or nothing |
| Resolvers.Resolver.FillPortion | packages/cairnx/src/resolve/attest.ts:125-166 | the clamped portion, its fee and its pro-rata delivery, or nothing |
| Resolvers.Resolver.FillWhole | packages/cairnx/src/resolve/attest.ts:168-226 | the whole fill when every required per-address sum is paid, or nothing; Pricing.WholeFillPays says which sums |
| Resolvers.Resolver.PaysAll | packages/cairnx/src/resolve/attest.ts:195-209 | the loop over the need map |
| Resolvers.Resolver.ClaimLegacy | packages/cairnx/src/resolve/attest.ts:228-261 | the pre-V28 claim and its ladder |
| TxCodec.DecodeEncode | packages/codec/src/tx.ts:106-122 | every transaction within the limits is read back as it was written |
| TxCodec.EncodeDecode | packages/codec/src/tx.ts:99-122 | whatever is accepted is exactly what the writer makes of the result: nothing trails and there is no second encoding |
| TxCodec.EncodeInjective | packages/codec/src/tx.ts:48-55 | no two transactions have the same bytes |
| TxLayouts.TxLayout | packages/codec/src/tx.ts:40-56 | where each field lies in the bytes of a transaction, lowest byte first, and that there is nothing else |
| TxLayouts.DecodesExactly | packages/codec/src/tx.ts:106-123 | untrusted bytes decode to a transaction if and only if they are its encoding, at most 100,000 of them, with at most 512 inputs and outputs, and every field fits |
| TxLayouts.StripsScripts | packages/codec/src/tx.ts:31-38 | an id leaves out exactly the scripts of the inputs that are not a coinbase's |
| Utf8.Utf8Exactly | packages/codec/src/tx.ts:83-88 | a byte string is accepted as text if and only if it encodes a sequence of Unicode scalar values |
| TxCodec.StrippedFixes | packages/codec/src/tx.ts:36-38 | stripped bytes agree exactly when the transactions agree up to non-coinbase scriptSigs |
| TxCodec.NeverSixtyFour | packages/codec/src/tx.ts:48-55 | no transaction serializes to exactly 64 bytes |
| TxReader.Deserialize | packages/codec/src/tx.ts:106-122 | the reader over an advancing offset computes the decoder |
| TxReader.Serialize | packages/codec/src/tx.ts:48-55 | the writing loops produce the encoding, and a field out of range throws |
| TxReader.Reader.U32 | packages/codec/src/tx.ts:72-77 | four bytes are read and consumed, or the read fails |
| TxReader.Reader.Take | packages/codec/src/tx.ts:79-80 | n bytes are read and consumed, or the read fails |
| TxReader.Reader.Str | packages/codec/src/tx.ts:82-86 | ill-formed UTF-8 is refused |
| TxReader.Reader.AppPayload | packages/codec/src/tx.ts:91-97 | the three app variants |
| TxReader.Reader.Inputs | packages/codec/src/tx.ts:110-113 | the input loop |
| Merkle.RootFixesLeaves | packages/codec/src/header.ts:151-165 | two lists of leaf-sized strings with distinct ids and one root are the same list, across lengths and odd rows, or two different members of the hashed strings collide |
| Merkle.BranchProves | packages/codec/src/header.ts:197-215 | the branch built for a leaf folds to the root |
| Merkle.ProofIsSound | packages/codec/src/header.ts:176-194 | what folds to the root at a position of the tree is the leaf there, or a collision is in hand |
| Merkle.UpDistinct | packages/codec/src/header.ts:154-162 | distinct nodes have distinct parents, or a collision is in hand |
| Merkle.ParentsOf | packages/codec/src/header.ts:151-165 | each layer pairs the ids below it in order, left before right, the last alone with itself |
| Merkle.RootOfFew | packages/codec/src/header.ts:151-165 | the roots of one, two and three ids, written out |
| Merkle.ComputeRoot | packages/codec/src/header.ts:151-165 | the layer loop computes the root |
| Merkle.BuildBranch | packages/codec/src/header.ts:197-215 | the branch loop computes the branch |
| Merkle.VerifyProof | packages/codec/src/header.ts:176-194 | the fold loop compares with the root |
| Bind.BindBlockTxs | packages/light/src/bind.ts:22-44 | the bind refuses a body that does not decode, repeats a txid or misses the root, and otherwise returns every transaction with its re-derived id |
| Bind.BindsExactly | packages/light/src/bind.ts:22-44 | a served body is bound if and only if every transaction decodes, the hashes of their stripped bytes are pairwise different, and those have the header's root |
| Bind.OneRootOneBody | packages/light/src/bind.ts:36-43 | two non-empty bodies bound to one root carry the same transactions in the same order up to scriptSigs, or a collision is in hand |
| Headers.DecodeEncodeHeader | packages/codec/src/header.ts:19-46 | an 84-byte record reads back as the header it was written from |
| Headers.EncodeDecodeHeader | packages/codec/src/header.ts:34-46 | and writes back as the record it was read from |
| Headers.HeaderLayout | packages/codec/src/header.ts:19-46 | where each field lies in the 84 bytes, lowest byte first |
| Headers.CompactLoss | packages/codec/src/header.ts:57-114 | encoding a target below 2^255 to compact bits decodes to a nonzero target no larger, within one part in 2^15 |
| Headers.PowLimit | packages/codec/src/header.ts:116-124 | the value of the limit bits |
| Headers.WorkAntitone | packages/codec/src/header.ts:139-146 | an easier target never counts for more work, and every target within the limit counts for some; the work itself is ChainRules.WorkExact |
| Headers.ToTargetBytes | packages/codec/src/header.ts:81-85 | the buffer is filled with the value big-endian, right-aligned |
| Headers.BitsToTarget | packages/codec/src/header.ts:57-72 | the decoded 32 bytes hold the target, zero when refused |
| Headers.TargetToBits | packages/codec/src/header.ts:99-114 | the byte loops compute the compact form |
| Headers.MinBE | packages/codec/src/header.ts:88-93 | minimal big-endian bytes of a value |
| ChainRules.WorkExact | packages/codec/src/header.ts:139-146 | for every target t within the limit the work w is floor(2^256 / (t + 1)), or the 128-bit maximum where that is less |
| ChainRules.NoWorkBeyond | packages/codec/src/header.ts:139-146 | bits that decode to no target within the limit count for no work |
| Lwma.ExpectedBitsFromWindow | packages/light/src/lwma.ts:71-123 | the accumulating loops compute the mandated bits of the specification, which Retarget.ExpectedIs and Retarget.RawTargetIs state over the window |
| Retarget.RawTargetIs | packages/light/src/lwma.ts:101-118 | the raw target is the plain average of the window's targets times the average gap, the gap before header i counted i times, over two minutes, each division rounded down |
| Retarget.TargetsInAnyOrder | packages/light/src/lwma.ts:110-114 | windows with the same times whose targets are permutations of each other have the same raw target |
| Retarget.BitsInAnyOrder | packages/light/src/lwma.ts:71-123 | and mandate the same bits |
| Retarget.EvenWindow | packages/light/src/lwma.ts:101-118 | an evenly spaced window of one target a and n-1 targets b has the raw target (((a + (n-1)b) / n) * s) / 120 |
| Retarget.ExpectedIs | packages/light/src/lwma.ts:71-123 | the mandated bits by height and window: the limit's, the parent's, or those of the capped raw target |
| Lwma.TargetBounds | packages/light/src/lwma.ts:101-118 | the next target is at most twelve times the window average and, with blocks at least 60 seconds apart, at least half of it; the average is the plain mean of the window's targets (Retarget.RawTargetIs) |
| Lwma.NextBitsDecode | packages/light/src/lwma.ts:115-122 | a nonzero capped target encodes to bits within the limit that lose less than one part in 2^15, so the last guard never fires; an underflow decodes to the limit |
| Lwma.ExpectedWithinLimit | packages/light/src/lwma.ts:71-123 | a parent within the limit mandates bits that decode to a nonzero target within the limit, at every height |
| LightChain.ReorgKeeps | packages/light/src/index.ts:327-353 | an adopted branch leaves a sound chain with strictly more work: the old one up to the ancestor, then an untrusted row for each header of the branch |
| LightChain.PinsHoldThroughReorgs | packages/light/src/index.ts:176-226 | over any sequence of offered headers and reorgs, any two chains a client passes through that reach a pinned checkpoint agree on every header up to it, or a collision is in hand |
| LightChain.PerformAllKeeps | packages/light/src/index.ts:199-353 | no sequence of offered headers and reorgs takes back a client's base, its soundness or its cumulative work |
| LightChain.IngestKeeps | packages/light/src/index.ts:199-226 | ingest keeps links, heights, hashes, saturating work, pins and the exact difficulty of untrusted headers; that each row was mined at its own target is ChainRules.EveryRowMined |
| ChainRules.EveryRowMined | packages/codec/src/header.ts:127-131 | every row of every chain reached by restore, seed, ingest and reorganisation has its own hash, read as a number, at most the target of its own bits, and that within the limit |
| ChainRules.UnminedRefused | packages/light/src/index.ts:207-226 | a header whose hash exceeds its own target is refused by ingest, seed and restore |
| ChainRules.UnminedBranchRefused | packages/light/src/index.ts:327-353 | a branch or a seed that holds one is refused |
| ChainRules.UnminedSnapshotRefused | packages/light/src/index.ts:487-535 | and a snapshot |
| ChainRules.RowWork | packages/light/src/index.ts:215-226 | below the 128-bit ceiling a row's cumulative work is its parent's and floor(2^256 / (t + 1)) at the target of its own bits |
| ChainRules.HeavierWins | packages/light/src/index.ts:346-353 | a valid branch off a held ancestor is adopted if and only if it ends in more work |
| ChainRules.MedianExact | packages/light/src/index.ts:231-250 | the median time is the value with at most half of the last eleven times below it and above it |
| ChainRules.IngestExact | packages/light/src/index.ts:199-226 | a header is ingested if and only if it comes next, was mined, has the hash it claims, agrees with the pins and follows the time and difficulty rules |
| ChainRules.SeedExact | packages/light/src/index.ts:261-280 | a seeded row need only come next, be linked, mined, hashed and pinned as told |
| ChainRules.SeededExact | packages/light/src/index.ts:261-280 | a seed is accepted if and only if it is not empty, each header is accepted after those before it, and the hash of the last is the checkpoint's |
| ChainRules.RestoreExact | packages/light/src/index.ts:487-525 | a restored row must be mined, linked, hashed and pinned as told, and re-derive its rules unless called trusted in the first window above a base that is not genesis |
| ChainRules.SnapshotExact | packages/light/src/index.ts:438-535 | a snapshot is restored if and only if it is not empty, starts at a safe height, holds, for a client with pins, a pinned height from the forty-fifth row on, and each row is accepted after those before it |
| LightChain.TimesSorted | packages/light/src/index.ts:247-249 | the median is taken from the sorted times |
| LightChain.SkippedIsAnchored | packages/light/src/index.ts:438-525 | with checkpoints configured, every restored header that skipped the difficulty and time rules lies at or below a pinned checkpoint the snapshot contains |
| LightChain.SnapshotsAgree | packages/light/src/index.ts:438-525 | two accepted snapshots from one height that reach a pinned checkpoint hold the same headers up to it, or a collision is in hand |
| LightChain.OneHashOnePast | packages/light/src/index.ts:207-226 | two sound chains that agree on one hash agree on every header below it, or a collision is in hand |
| LightChain.RestoreKeeps | packages/light/src/index.ts:487-525 | a restored chain is sound, and every header whose rules had to be re-derived has them |
| LightClients.LightClient.IngestHeader | packages/light/src/index.ts:199-204 | a header is verified and appended, or the chain is unchanged; which headers are is ChainRules.IngestExact |
| LightClients.LightClient.TryReorg | packages/light/src/index.ts:327-353 | the sliding window verifies the branch exactly as ingesting it header by header from the ancestor would; the chain changes only on adoption, which ChainRules.HeavierWins decides by work as ChainRules.RowWork counts it |
| LightClients.LightClient.VerifyBranch | packages/light/src/index.ts:333-345 | the verified rows are those of the replay, and a refusal is the replay's |
| LightClients.LightClient.SeedTrusted | packages/light/src/index.ts:261-280 | a seed is accepted exactly when it is linked, valid and ends at the checkpoint; accepted or refused, the client then holds the longest part of it that verifies |
| LightClients.LightClient.RestoreRow | packages/light/src/index.ts:487-525 | one restored header, or the chain is unchanged |
| LightClients.FromSnapshot | packages/light/src/index.ts:527-535 | a snapshot is restored exactly when it is readable, anchored and every header verifies |
| LightClients.SlideWindow | packages/light/src/index.ts:333-345 | push and shift on the window is moving on by one row |
| Sunrise.Expm1Scaled | packages/cairnx/src/mm/sunrise.ts:28-37 | the series loop terminates on its whole range and sums the series; outside it throws |
| Sunrise.Expm1Monotone | packages/cairnx/src/mm/sunrise.ts:28-37 | the series is monotone |
| Sunrise.ArgInRange | packages/cairnx/src/mm/sunrise.ts:64-65 | the cost function never leaves the range of the series |
| Sunrise.FindFlat | packages/cairnx/src/mm/sunrise.ts:67-79 | the bisection finds the first point at the cap |
| Sunrise.BuildCurve | packages/cairnx/src/mm/sunrise.ts:39-79 | valid parameters give the one curve they describe |
| Sunrise.CurveUnique | packages/cairnx/src/mm/sunrise.ts:67-79 | one set of parameters has one curve |
| Sunrise.SplitCost | packages/cairnx/src/mm/sunrise.ts:52-94 | two orders cost what the one that spans them costs, or one base unit more |
| Sunrise.SplitNeverCheaper | packages/cairnx/src/mm/sunrise.ts:97-111 | splitting an order never lowers its price |
| Sunrise.PriceGrows | packages/cairnx/src/mm/sunrise.ts:97-111 | a larger order never costs less |
| SunriseValue.Expm1Between | packages/cairnx/src/mm/sunrise.ts:28-37 | e^z - 1 as computed lies between z and z e^z |
| SunriseValue.ValueBetween | packages/cairnx/src/mm/sunrise.ts:52-94 | the antiderivative at n lies between n at the starting price, but for one rounding of the exponent, and n at the price it reaches |
| SunriseValue.FirstOrder | packages/cairnx/src/mm/sunrise.ts:81-94 | on the rising part the first n base units cost no less than n at the starting price, but for that rounding, and, rounded up, no more than n at the price they reach |
| SunriseValue.FlatOrder | packages/cairnx/src/mm/sunrise.ts:67-94 | past the start of the flat part an order costs its size at the flat price, rounded up |
| SunriseValue.PriceExact | packages/cairnx/src/mm/sunrise.ts:97-111 | the asked price is the larger of the curve's cost and the floor's, each with the margin and rounded up |
| SunriseValue.CurveExact | packages/cairnx/src/mm/sunrise.ts:39-79 | parameters are refused exactly outside their ranges; accepted, they give a curve in 10^decimals units that starts at p0 compounded over its clamped age and never exceeds capMult times p0 |
| SunriseValue.TimeCompounds | packages/cairnx/src/mm/curve.ts:33-40 | the time multiplier is 10^12 (1 + rate)^n, short of it by no more than n units grown as much |
| Sunrise.TokensFor | packages/cairnx/src/mm/sunrise.ts:124-135 | the largest order in the room the budget affords |
| CoinSelect.SelectInputs | packages/tx/src/index.ts:22-49 | a selection takes distinct eligible coins, at most 512, that cover the need with as few as any choice from its pool, coinbase coins only where no 512 others cover it; a refusal means no 512 eligible coins cover it; both while the sum of the 512 largest is safe |
| CoinSelect.Take | packages/tx/src/index.ts:37-47 | the shortest covering prefix of the ranked pool within the caps |
| CoinSelect.Confirmed | packages/tx/src/index.ts:23-36 | the filter keeps eligible coins, the first of each outpoint |
| CoinSelect.PoolExact | packages/tx/src/index.ts:23-36 | a pool holds exactly the coins confirmed at least once, worth a positive safe amount, not excluded, the first such of their outpoint, and no coinbase's unless those are let in |
| CoinSelect.LargestAreBest | packages/tx/src/index.ts:39-45 | no choice of coins is worth more than as many of the largest |
| CoinSelect.ValidateOuts | packages/tx/src/index.ts:126-137 | exactly the acceptable outputs and fees pass, with their sum |
| CoinSelect.Assemble | packages/tx/src/index.ts:145-170 | inputs are worth outputs plus fee; requested outputs come first and unchanged, change goes to the sender; and a refusal has one of the listed causes |
| CoinSelect.SelectAndAssemble | packages/tx/src/index.ts:172-179 | what is selected, paid, returned and burned as fee adds up |

## Left out

- The HTTP client, retries, byte caps, batch providers, task yielding and the asynchronous fetching around the light client and verifyFillSpv: the events and headers are taken as handed over, and only the decision is modelled.
- secp256k1, RFC 6979, sha256 and ripemd160: unspecified; a signature script is a parameter of assembly.
- Parsing of records from their URI (regexes, canonical JSON, reserved names): records are datatypes with the bounds the parser enforces.
- The applied-event log, canonicalState, the materialized state's field layout, nprofile, tmeta and nset contents, and the informational links from a bid to its offers: they move no value and no other modelled field.
- verifyFillSpv over a window that lacks part of the lane, or with synthetic give backing: the source documents both as known limits; the theorems take a complete history (`VerifyFill`) or a complete lane with real backing (`LaneFill`), and there assume that the chain admitted the offer and refused no other claim of the lane on the cap alone.
- bindOfferTerms, fillOutputPlan, fillIsSafe, buildFeeHeight and claimWindowOf: comparisons and wrappers around what is modelled.
- requiredClaimDepth: floating point; its result is a parameter of the fill query.
- The bits and work memo maps of lwma.ts: replaced by the pure functions they cache.
- verifyLinkedRecords, fromRecords, toRecords, the snapshot writer and syncFromCheckpoint: compositions of seeding, linking and ingesting with byte slicing.
- The JSON types of a snapshot (heights that are null or false): heights are integers, checked as the source checks the normalized number.
- Times above 2^53 in the header time rules, which the source rounds to a double: the clock bound refuses them in either reading.
- Positions of 2^31 and above in a merkle proof, where the source's shifts wrap at 32 bits: positions are unbounded here.
- Case and `0x` spelling of hex strings in the codec, the light client and coin selection: a string is the bytes it spells.
- feeCap multiplies by 0.10 in floating point; here a tenth, rounded down.
- selectAndVerify's exclude-and-retry loop and the verified builders: selection with an exclude set and assembly from a given total are modelled, the loop around the injected verifier is not.
- SIWC, market sizing, route plausibility, the emission schedule, publishing scripts.
- Registration.SafeFinalizeIsAccepted: registration finalizes only; finalizeWinnerCheck has no verdict on a recapture, whose own theorem is RecaptureLane.SafeRecaptureIsAccepted.
