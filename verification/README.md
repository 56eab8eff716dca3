# Launchpad accounting, proved

Six groups of Solidity contracts in this repository hold other people's money under rules that no single line of
them checks. This project models each of them in Dafny and proves the rules of every reachable state.

| contracts | what is proved | files |
|---|---|---|
| DeskRewards and DeskNFT | the searched fee index equals a per-card ledger, loses no remainder and never overpays | `Desk*.dfy` |
| PonsV2BondingCurve | the virtual reserve is never paid out, and graduation hands over exactly the promised seed | `BondingCurve*.dfy` |
| SolonStaking | principal and rewards in one balance, always covered, no user moving another's earnings | `SolonStaking*.dfy` |
| PonsV2BuybackVault | a weighted-average vest that never runs ahead of its line and always completes | `BuybackVault*.dfy` |
| PonsV2LaunchFactory | many launches' reserves pooled in one escrow, each leaving exactly once | `LaunchFactory*.dfy` |
| CurvePool | the small constant-product sibling of the curve | `CurvePool*.dfy` |

Each group has three parts. `...Model` gives storage as a datatype, every transaction as a function returning the new
state or the reason it reverts, and `Run`, which applies any sequence of transactions, the environment's included
(time, donations, failing transfers). `...Runs` (for the desks also `DeskLedgerRuns`, `DeskPayouts`, `DeskHistory`,
`DeskRewardsPromises`, `DeskSettlements` and `DeskFlows`, for staking also `SolonStakingFairness`,
`SolonStakingForfeits`, `SolonStakingDust` and `SolonStakingLanes`, for the curve also `BondingCurveRounding` and
`BondingCurveTrades`, for the factory also `LaunchFactoryExits`) states the invariants and the theorems over all runs.
What an operation pays, charges or schedules is given there by the two inequalities of its rounding (`IsFloor`), not
by the functions that compute it, together with the exact condition for its success.
`...Contract` is the contract itself as a class whose methods update fields in the source's order, loops included;
each is proved to do what its transaction function says, or to leave storage as it was. `FloorMath` holds all
non-linear arithmetic, `MapSums` sums over maps, `Balances` amounts by address, `Outcomes` the result type.

Amounts are mathematical integers. An overflow, an underflow or a failed `require` is a transaction that does not
happen. Where the source would underflow the model says so by an error, and the theorems show that it never occurs.
Guarded functions are atomic; the reward leg of `unstake`, which may fail alone, is a free choice of the environment.

`dafny verify dfyconfig.toml` checks the whole project.

## Where the code and its comments disagree

The model follows the code. These are theorems, with the exact or the tight condition:

- The snipe tax does not always reach zero inside its window (comment at src/v2/PonsV2BondingCurve.sol:307-311): the
  last shift inside it is at most 13, so a start of 8192 or more, the default 9900 included, is cut off
  (`SnipeTaxReachesZeroInsideWindow`, `DefaultSnipeTaxIsCutOff`).
- Sold out is not equivalent to the threshold being reached (src/v2/PonsV2BondingCurve.sol:395-402). Sold out implies
  it. The converse fails for every launch with two or more tokens for sale whose phantomQuote + threshold does not
  divide phantomQuote * supply: a first buy that keeps exactly the threshold, and there is one, leaves one token
  (`FirstBuyOfTheThreshold`, `SomeBuyKeeps`, `ThresholdCanBeReachedBeforeSellOut`).
  From any reachable state `BuySellsOutExactlyWhen` says which buys do that, and `SoldOutIffThresholdReached` gives a
  product bound under which none does. What graduation relies on is the implication.
- The buyback earmark can exceed the creator's bucket by more than a wei or two (src/v2/PonsV2BondingCurve.sol:747-751):
  never, unless buybackBurnBps is 10000 and protocolFeeShareBps is neither 0 nor 10000 (`EarmarkFitsTheBucket`), and
  then by any amount, over enough trades (`EarmarkExceedsTheBucket`, `ExcessIsUnbounded`), though by less than one wei
  per trade (`EarmarkNearBucket`). The clamp makes it harmless.
- A failed reward checkpoint does not leave the reward on the books (src/stake/SolonStaking.sol:26-29): the principal
  leg then shrinks the stake that the unsettled part was computed from (`SkippedFullExitForfeitsUnsettled`,
  `SkippedExitForfeitsItsShare`), in states a deployment reaches (`SkippedExitLosesARunningReward`). The modelled
  checkpoint itself has no failing arithmetic; it can still fail for gas or for a self-call that reverts. When only the
  payment fails the comment is right (`UnpaidRewardStaysOnTheBooks`).
- A top-up can slow what was already vesting (src/v2/PonsV2BuybackVault.sol:26-34 calls the blend fair); `DepositPace`
  and `LockPace` say exactly when.
- Frequent releases cannot stall a vest for good (src/v2/PonsV2BuybackVault.sol:174-176): they delay it by less than a
  unit each, and everything vests at the end (`ReleasesTrackTheStraightLine`, `EverythingVestsAtTheEnd`).

## Model

| member | source | states |
|---|---|---|
| `DeskRewardsPromises.EveryCardGetsItsEagerShare` | src/v3/DeskRewards.sol:248-292 | for every run of mints, transfers, fees and payouts and every card, the searched index equals what an eager ledger makes of the run's fees by adding each fee's whole quotient to every card existing at that moment |
| `DeskHistory.RecordIsHistory` | src/v3/DeskRewards.sol:232-242 | the fees a source and asset have on record, day, card count and amount, are exactly those read off the run's transactions, and sum to what it received |
| `DeskHistory.StepRecords` | src/v3/DeskRewards.sol:41-68 | one transaction adds its own fee to one record and touches no other; payouts, sealing, syncing and transfers add none, and no transaction changes a sealed stream's shares |
| `DeskRewardsPromises.NoRemainderIsLost` | src/v3/DeskRewards.sol:253-288 | for every run, source and asset, 1e27 times the fees of the run is all ordinary and delegated credit plus the latest stream's remainder plus the one waiting remainder, across changes of card count and gaps between days; no other remainder exists anywhere |
| `DeskRewardsPromises.SidesAddUp` | src/v3/DeskRewards.sol:282-290 | in every reachable state the vault holds exactly protocolMinted cards, ids run 1..supply, and per stream the ordinary cards' credit sums to totalCredit27 and the vault cards' to delegatedCredit27 |
| `DeskRewardsPromises.OlderCardsHaveNoLess` | src/v3/DeskRewards.sol:363-374 | credit never grows with the card id, and is equal for two cards that a stream's first fee already found |
| `DeskRewardsPromises.StreamsNeverOverpay` | src/v3/DeskRewards.sol:299-354 | per stream: forwarded units fit the delegated credit, raw payouts to all cards together fit the ordinary credit, and stock payouts fit the stock bought |
| `DeskRewardsPromises.SourcesNeverOverdraw` | src/v3/DeskRewards.sol:194-220 | per source, everything paid, forwarded and sealed plus what the fee ledger still owes is at most what was received; custody and outstanding stock are exactly the sums of the unpaid parts |
| `DeskRewardsPromises.NothingUnderflows` | src/v3/DeskRewards.sol:150-220 | no reachable transaction ever meets a failing checked subtraction, a short balance or a failing purchase-coverage check |
| `DeskSettlements.OrdinaryCardsCanAlwaysClaim` | src/v3/DeskRewards.sol:299-341 | when transfers settle and the owner is eligible, pay succeeds exactly for an existing card outside the vault and at most 20 streams; after it the card has received of every named raw stream the whole units of its credit and of every native one floor(purchased * credit / total), each given by its two inequalities, repeats included |
| `DeskSettlements.RefusedPayoutsPayNothing` | src/v3/DeskRewards.sol:308-341 | with an ineligible owner or a transfer that does not settle, pay succeeds exactly when nothing is due in any named stream, and then changes nothing |
| `DeskSettlements.LessThanOneUnitPerCardIsLeft` | src/v3/DeskRewards.sol:299-305 | once every ordinary card of a stream is paid, less than one unit per ordinary card is left of the stock bought, or of the whole units of their credit |
| `DeskFlows.ForwardingPays` | src/v3/DeskRewards.sol:194-220 | forwarding succeeds for every credited stream once it settles, and the vault's part forwarded is then exactly the whole units of its credit; no other stream moves |
| `DeskFlows.SealingPays` | src/v3/DeskRewards.sol:150-162 | sealing succeeds exactly under its conditions on kind, day, asset and a whole unit of credit, and exactly the whole units of the ordinary credit leave |
| `DeskFlows.SyncingBooks` | src/v3/DeskRewards.sol:168-184 | syncing books all that was delivered for a sealed stream and collects all that the payout vault had ready |
| `DeskFlows.AssetsMoveWithTheirBooks` | src/v3/DeskRewards.sol:41-354 | in every transaction each asset's balance moves by exactly what custody and bought stock do; only unasked transfers in make a difference, and recognising a royalty books all of it |
| `DeskFlows.IncomeIsTaken` | src/v3/DeskRewards.sol:232-257 | which income is taken: pool fees from the ledger, native income and listed royalties, once there is a card and, if the vault holds cards, its staking |
| `DeskRewardsPromises.SealedSharesAreFrozen` | src/v3/DeskRewards.sol:150-162 | a sealed stream is a native one whose day is over, and no later run of any transactions changes its total, its counter or any card's credit in it |
| `DeskRewardsRuns.RunKeeps` | src/v3/DeskRewards.sol:14-361 | the joint invariant of both contracts, the ledger's debt and the payout vault's debt survives every run of the nineteen transactions |
| `DeskRewardsRuns.PayKeeps` | src/v3/DeskRewards.sol:308-341 | a payout keeps the invariant and is refused only for a missing or vault card, too many streams, eligibility or an outside transfer |
| `DeskRewardsRuns.FundProtocolKeeps` | src/v3/DeskRewards.sol:204-220 | forwarding the vault's part keeps the invariant and never lacks custody |
| `DeskRewardsRuns.SealKeeps` | src/v3/DeskRewards.sol:150-162 | sealing keeps the invariant and the budget is always there to send |
| `DeskRewardsRuns.SyncKeeps` | src/v3/DeskRewards.sol:168-184 | synchronising bought stock never finds less delivered than before and never fails its coverage check |
| `DeskRewardsRuns.SyncRoyaltyKeeps` | src/v3/DeskRewards.sol:58-68 | a royalty sync never underflows and recognises only what neither custody nor bought stock accounts for |
| `DeskRewardsRuns.OnFeeCreditKeeps` | src/v3/DeskRewards.sol:237-242 | a fee the ledger still owes is credited and becomes a claim of the book on future custody |
| `DeskRewardsRuns.GrowthKeeps` | src/v3/DeskNFT.sol:371-383 | new cards and transfers change no stream's totals: a card minted after a stream's last fee adds nothing to either side |
| `DeskLedgerRuns.CreditRefines` | src/v3/DeskRewards.sol:248-292 | one fee: bumping one counter and adding a generation leads to the same ledger as crediting every card |
| `DeskLedgerRuns.CreditConserves` | src/v3/DeskRewards.sol:253-288 | one fee: credits plus what is left over grow by exactly 1e27 times the fee |
| `DeskLedgerRuns.CreditKeepsSides` | src/v3/DeskRewards.sol:282-290 | one fee splits between ordinary and vault cards to the last unit |
| `DeskLedgerRuns.DistributeRaisesEveryCard` | src/v3/DeskRewards.sol:278-283 | a fee raises the searched credit of every existing card by the same quotient and of no other |
| `DeskLedgerRuns.NewGenerationCreditsNothing` | src/v3/DeskRewards.sol:266-273 | opening a generation changes nobody's credit |
| `DeskPayouts.RawPaymentsWithinCredit` | src/v3/DeskRewards.sol:302-305 | all cards of a raw stream together received at most the whole units of its ordinary credit, floors included |
| `DeskPayouts.StockPaymentsWithinPurchase` | src/v3/DeskRewards.sol:302-305 | all cards of a native stream together received at most the stock bought, floored shares included |
| `DeskPayouts.DrawnWithinReceived` | src/v3/DeskRewards.sol:204-220 | over all days of a source, card payouts, sealed budgets and forwarding together stay within the fees received |
| `DeskNFTModel.MintKeeps` | src/v3/DeskNFT.sol:381-436 | a paid mint keeps ids gapless, the vault's count and the per-address totals, and no address passes the cap |
| `DeskNFTModel.MintProtocolKeeps` | src/v3/DeskNFT.sol:371-375 | a protocol mint raises protocolMinted by exactly the cards that enter the vault, within the cap of 1000 |
| `DeskNFTModel.TransferKeeps` | src/v3/DeskNFT.sol:182-190 | no transfer takes a card out of the vault or puts one in |
| `DeskNFTModel.ConfigureKeeps` | src/v3/DeskNFT.sol:364-369 | the vault is set once, while it holds no card |
| `DeskNFTModel.MintDecides` | src/v3/DeskNFT.sol:381-436 | a public mint succeeds exactly outside the vault, within 20 at once, 5000 in all, the address cap and the exact price, and creates the next ids for one owner |
| `DeskNFTModel.ProtocolMintDecides` | src/v3/DeskNFT.sol:371-375 | a protocol mint succeeds exactly for the vault, up to 1000 cards, on the same terms |
| `DeskNFTModel.GrantDecides` | src/v3/DeskNFT.sol:203-222 | governance grants one consented card on the same terms |
| `DeskNFTModel.TransferDecides` | src/v3/DeskNFT.sol:173-190 | a transfer succeeds exactly by leave of the owner, to an eligible one, with the vault on neither end, and moves that card alone |
| `DeskRewardsContract.Search` | src/v3/DeskRewards.sol:367-372 | the loop ends at the first generation whose upper id reaches the card |
| `DeskRewardsContract.DeskRewards.Credit27` | src/v3/DeskRewards.sol:363-374 | the binary search returns the card's eager balance |
| `DeskRewardsContract.DeskRewards.CreditFee` | src/v3/DeskRewards.sol:248-292 | the step-by-step update is the ledger transaction that the conservation and refinement lemmas are about, and reverts without a card or without staking for vault cards |
| `DeskRewardsContract.DeskRewards.Pay` | src/v3/DeskRewards.sol:308-341 | the loop over streams pays all of them or none, keeps the invariant, and fails only for the reasons PayKeeps names |
| `DeskRewardsContract.DeskRewards.FundProtocol` | src/v3/DeskRewards.sol:194-220 | forwards the whole unforwarded part; never an underflow |
| `DeskRewardsContract.DeskRewards.SealDesk` | src/v3/DeskRewards.sol:150-162 | seals once, after the day, and sends the floored budget; never an underflow |
| `DeskRewardsContract.DeskRewards.SyncPurchased` | src/v3/DeskRewards.sol:168-184 | records the authoritative cumulative delivery; the coverage check is proved redundant |
| `DeskRewardsContract.DeskRewards.SyncRoyalty` | src/v3/DeskRewards.sol:58-68 | credits what arrived unasked; never an underflow |
| `DeskRewardsContract.DeskRewards.OnFeeCredit` | src/v3/DeskRewards.sol:237-242 | credits a fee together with the ledger's promise of it, and keeps the invariant |
| `DeskRewardsContract.DeskRewards.ReceiveNative` | src/v3/DeskRewards.sol:232-235 | a native surcharge or royalty enters custody and is credited, or nothing happens |
| `DeskRewardsContract.DeskRewards.DepositRoyalty` | src/v3/DeskRewards.sol:41-54 | an admitted royalty asset enters custody and is credited, or nothing happens |
| `DeskNFTModel.Surcharge` | src/v3/DeskNFT.sol:430-434 | the rewards receive nine tenths of a mint's fee, rounded up |
| `DeskNFTContract.DeskNFT.MintPaid` | src/v3/DeskNFT.sol:410-436 | the minting loop gives consecutive fresh ids to one owner, or changes nothing |
| `DeskNFTContract.DeskNFT.MintProtocol` | src/v3/DeskNFT.sol:371-375 | mints into the vault and keeps its count, or changes nothing |
| `DeskNFTContract.DeskNFT.Mint` | src/v3/DeskNFT.sol:381-384 | mints to anyone but the vault and keeps the books |
| `DeskNFTContract.DeskNFT.TransferFrom` | src/v3/DeskNFT.sol:173-190 | moves one card between non-vault owners and keeps the books |
| `BondingCurveRuns.VirtualReserveNeverPaidOut` | src/v2/PonsV2BondingCurve.sol:368-386 | in every reachable state pending fees and tax are covered by real quote, the product is at least phantomQuote * supply until graduation, and no checked subtraction or payout ever fails |
| `BondingCurveRuns.GraduationPoint` | src/v2/PonsV2BondingCurve.sol:403-406 | once the sellable allocation is gone only graduate moves a token, the curve stays ready, and graduate succeeds and hands over exactly the reserved tokens and at least the threshold of quote |
| `BondingCurveRuns.GraduatedRunsHandOverTheAllocation` | src/v2/PonsV2BondingCurve.sol:598-638 | whatever the trading history, a graduated curve handed over its reserved tokens and at least the threshold |
| `BondingCurveRuns.NoExtraction` | src/v2/PonsV2BondingCurve.sol:438-566 | any stretch of a run that returns to the same token reserve leaves the real quote reserve no lower, and traders paid in at least what sales paid out plus the fees and taxes charged, less what buybacks spent in it |
| `BondingCurveRuns.RunKeeps` | src/v2/PonsV2BondingCurve.sol:438-871 | the invariant survives every run, graduation is final and the product never falls before it |
| `BondingCurveRuns.ClampedFill` | src/v2/PonsV2BondingCurve.sol:466-495 | whatever the launch rates and the snipe tax, in both arms of the gross-up minimum the quote kept after the three floored charges lies between the ask for the whole allocation and three units above it, never more than was received is spent, and the divisor is at least 100 |
| `BondingCurveRuns.FillKeepsProduct` | src/v2/PonsV2BondingCurve.sol:466-495 | a fill, clamped or not, never lowers the product and never sells into the reserved allocation |
| `BondingCurveRuns.SaleStaysAboveVirtualReserve` | src/v2/PonsV2BondingCurve.sol:541-566 | the gross payout of any sale of circulating tokens fits in the real reserve, although sell has no such check |
| `BondingCurveRuns.SweepConserves` | src/v2/PonsV2BondingCurve.sol:741-822 | on every path of a sweep protocol + executed buyback + creator is exactly the pending fees and tax, the buyback respects the reserved floor, and the product does not fall |
| `BondingCurveRuns.RescueKeeps` | src/v2/PonsV2BondingCurve.sol:850-871 | a rescue pays the protocol its share and both parties together exactly the pending fees and tax, leaves nothing pending or earmarked, and moves neither a token nor the product |
| `BondingCurveRuns.GraduateKeeps` | src/v2/PonsV2BondingCurve.sol:598-638 | graduating succeeds exactly in ready states |
| `BondingCurveTrades.LaunchTerms` | src/v2/PonsV2BondingCurve.sol:195-290 | a curve accepts exactly fees up to 20%, an impact bound inside (0, 100%), a threshold, and a phantom share of at least one token, which is the reserved allocation |
| `BondingCurveTrades.BuyPays` | src/v2/PonsV2BondingCurve.sol:438-520 | in every reachable state a buy succeeds exactly when something is for sale, the kept quote buys a token and the buyer's price is met; the three charges are floored at their rates, the snipe tax joins the fees, the tokens are the floored constant-product ones, and the last of them cost the least spend that covers the ask |
| `BondingCurveTrades.SnipeBpsIsTheRate` | src/v2/PonsV2BondingCurve.sol:315-323 | the snipe rate is the starting rate halved once per fourteenth of the window, floored, cut where less than 1% of the spend would be left |
| `BondingCurveTrades.SalePays` | src/v2/PonsV2BondingCurve.sol:541-566 | in every reachable state a sale's gross is the floored constant-product price, the pending fees and the tax rise by the floored charges on it, the earmark by the floored slice, and the seller gets the rest; with the exact condition for success |
| `BondingCurveTrades.SweepPays` | src/v2/PonsV2BondingCurve.sol:741-822 | the protocol gets its floored share, the buyback runs exactly when its slice, its price impact and its tokens allow, and the creator gets all the rest with the tax; with the exact condition for failure |
| `BondingCurveTrades.SweepFeesPays` | src/v2/PonsV2BondingCurve.sol:579-587 | the operator sweeps always, the creator only while nothing is earmarked, nobody once graduated |
| `BondingCurveTrades.GraduationPays` | src/v2/PonsV2BondingCurve.sol:598-638 | graduation pays both parties the pending fees by the same shares and buys nothing back |
| `BondingCurveRounding.EarmarkNearBucket` | src/v2/PonsV2BondingCurve.sol:711-718 | the buyback earmark exceeds the aggregate creator bucket by less than one wei per fee-charging trade since the last sweep, under any toggling |
| `BondingCurveRounding.EarmarkFitsTheBucket` | src/v2/PonsV2BondingCurve.sol:747-751 | in no run does the earmark exceed the bucket at all unless the whole bucket is bought back and the protocol share lies strictly between nothing and everything |
| `BondingCurveRounding.EarmarkExceedsTheBucket` | src/v2/PonsV2BondingCurve.sol:711-718 | for every such protocol share and every n a launch and n buys of 100 put the earmark floor(n * share / 10000) wei above the bucket |
| `BondingCurveRounding.ExcessIsUnbounded` | src/v2/PonsV2BondingCurve.sol:747-751 | that excess passes every number, and at a share of 99.99% it meets the bound of one wei per trade but one |
| `BondingCurveRuns.SoldOutMeansThresholdReached` | src/v2/PonsV2BondingCurve.sol:269-298 | selling out the allocation implies the quote threshold was reached |
| `BondingCurveRounding.SoldOutIffThresholdReached` | src/v2/PonsV2BondingCurve.sol:395-406 | sold out and threshold reached coincide while the product is below (phantomQuote + threshold) * (reserved + 1) |
| `BondingCurveRounding.BuySellsOutExactlyWhen` | src/v2/PonsV2BondingCurve.sol:395-406 | from every reachable state a successful buy sells out exactly when product <= reserved * (quote reserve + quote kept), and so reaches the threshold with tokens left exactly when the quote it keeps lies between the two points |
| `BondingCurveRounding.FirstBuyOfTheThreshold` | src/v2/PonsV2BondingCurve.sol:395-406 | at every launch and under any fees, a first buy that keeps exactly the threshold sells out iff phantomQuote + threshold divides phantomQuote * supply, leaves exactly one token otherwise, and is refused only when that token was the only one for sale |
| `BondingCurveRounding.SomeBuyKeeps` | src/v2/PonsV2BondingCurve.sol:466-495 | under any fees and snipe tax there is an amount whose charges leave exactly any given quote, so every launch has a first buy of the threshold |
| `BondingCurveRounding.ThresholdCanBeReachedBeforeSellOut` | src/v2/PonsV2BondingCurve.sol:395-402 | the smallest launch where the two part: supply 3, one fee-free buy of the threshold, one token left |
| `BondingCurveRuns.SnipeTaxReachesZeroInsideWindow` | src/v2/PonsV2BondingCurve.sol:307-323 | the snipe tax reaches zero inside its window exactly when the starting rate is below the last power of two the window gets to, at most 8192 |
| `BondingCurveRuns.DefaultSnipeTaxIsCutOff` | src/v2/PonsV2LaunchFactory.sol:319-320 | with the factory's defaults it is still non-zero in every second of the window, against the comment |
| `BondingCurveRuns.SnipeTaxDecays` | src/v2/PonsV2BondingCurve.sol:315-323 | the tax never rises with time and is zero from the end of the window on |
| `BondingCurveMath.AmountInSufficesAndIsTight` | src/v2/libraries/PonsV2BondingCurveMath.sol:25-87 | at every fee, paying what getAmountIn asks buys at least the requested output and one unit less never buys more than it |
| `BondingCurveMath.FeeFreeAmountOut` | src/v2/libraries/PonsV2BondingCurveMath.sol:55-64 | without a fee the scaled quote is the plain constant-product floor |
| `BondingCurveMath.FeeFreeAmountIn` | src/v2/libraries/PonsV2BondingCurveMath.sol:73-87 | without a fee the scaled ask is the plain constant-product floor plus one |
| `BondingCurveMath.FeeIsTakenFromTheInput` | src/v2/libraries/PonsV2BondingCurveMath.sol:25-64 | at any fee getAmountOut gives the floored constant-product output for what the fee leaves of the input, and succeeds exactly when that is a unit |
| `BondingCurveContract.PonsV2BondingCurve.Buy` | src/v2/PonsV2BondingCurve.sol:438-520 | books the decided fill, whole or clamped, or reverts; keeps the invariant |
| `BondingCurveContract.PonsV2BondingCurve.Sell` | src/v2/PonsV2BondingCurve.sol:541-566 | pays the net proceeds SalePays gives, or reverts; keeps the invariant |
| `BondingCurveContract.PonsV2BondingCurve.Sweep` | src/v2/PonsV2BondingCurve.sol:741-822 | pays out the split SweepConserves is about, or reverts |
| `BondingCurveContract.PonsV2BondingCurve.SweepFees` | src/v2/PonsV2BondingCurve.sol:579-587 | operator or creator only, the creator only while nothing is earmarked; keeps the invariant |
| `BondingCurveContract.PonsV2BondingCurve.RescueFees` | src/v2/PonsV2BondingCurve.sol:850-871 | pays the whole creator bucket directly; keeps the invariant |
| `BondingCurveContract.PonsV2BondingCurve.Graduate` | src/v2/PonsV2BondingCurve.sol:598-638 | closes the curve and hands over everything tracked |
| `SolonStakingRuns.AlwaysSolvent` | src/stake/SolonStaking.sol:202-236 | over all runs, whichever reward legs of unstake fail: the reserve covers every earned reward, both remaining streams and the idle bucket; the balance is principal plus reserve plus donations; principal is the sum of stakes; the cap, reserve and underfunded checks never decide anything |
| `SolonStakingRuns.ReserveCoversPromises` | src/stake/SolonStaking.sol:316-327 | the floors of all users together fit the reserve next to what is still to stream |
| `SolonStakingRuns.UnstakeKeeps` | src/stake/SolonStaking.sol:202-219 | unstaking up to one's stake always succeeds and returns exactly the principal, plus everything earned when the reward leg completes |
| `SolonStakingRuns.ClaimKeeps` | src/stake/SolonStaking.sol:221-223 | a claim pays everything earned, paused or not, and leaves nothing earned |
| `SolonStakingRuns.CompoundKeeps` | src/stake/SolonStaking.sol:226-236 | compounding succeeds exactly when unpaused, something is earned and the cap allows it; its reserve check never binds |
| `SolonStakingRuns.StakeKeeps` | src/stake/SolonStaking.sol:190-197 | staking succeeds exactly when unpaused, non-zero and under the cap |
| `SolonStakingRuns.StartPeriodKeeps` | src/stake/SolonStaking.sol:345-356 | a period starts exactly when the folded amount fills one unit per second; underfunded never fires |
| `SolonStakingRuns.OpenStreamConserves` | src/stake/SolonStaking.sol:345-356 | restretching a stream keeps every unit: the truncation goes to the idle bucket |
| `SolonStakingRuns.NotifyKeeps` | src/stake/SolonStaking.sol:253-260 | a buyback injection succeeds exactly under its three conditions and moves no account |
| `SolonStakingRuns.SeedKeeps` | src/stake/SolonStaking.sol:263-271 | the genesis pool is accepted exactly once under its conditions, keeps coverage and moves no account |
| `SolonStakingLanes.SeedStreams` | src/stake/SolonStaking.sol:263-271 | the genesis pool, with the lane's leftover, streams at floor(total / 2592000) per second for exactly thirty days and not past them, in its own lane; the buyback lane is untouched and the rounding idle |
| `SolonStakingLanes.NotifyStreams` | src/stake/SolonStaking.sol:253-260 | an injection restarts the buyback lane for exactly seven days with what it still had to give, and leaves the genesis lane alone |
| `SolonStakingLanes.ReallocateStreams` | src/stake/SolonStaking.sol:276-283 | the owner, and nobody else, restreams all idle rewards over seven days with the buyback leftover, exactly when they fill a rate of one |
| `SolonStakingLanes.EarnsItsShare` | src/stake/SolonStaking.sol:179-186 | from any settled state whatever the lanes give in k seconds reaches every staker by the size of its stake, to less than a unit above and the accumulator's rounding below |
| `SolonStakingFairness.OthersUnaffected` | src/stake/SolonStaking.sol:301-312 | at a fixed time no stake, claim, compound, funding or checkpointed unstake changes what anyone else has earned |
| `SolonStakingForfeits.SkippedCheckpointNeverHurtsOthers` | src/stake/SolonStaking.sol:206-216 | an unstake whose checkpoint fails never lowers anyone else's earnings |
| `SolonStakingFairness.StakeThenUnstakeIsClaim` | src/stake/SolonStaking.sol:190-219 | staking and unstaking the same amount in one block is exactly a claim |
| `SolonStakingFairness.ExtraCheckpointsCostAtMostOneEach` | src/stake/SolonStaking.sol:292-312 | with k extra checkpoints the flows of the k + 1 pieces add up to the whole flow, and the accumulator ends at most k units lower |
| `SolonStakingForfeits.UnpaidRewardStaysOnTheBooks` | src/stake/SolonStaking.sol:206-210 | when only the payment fails the reward stays recorded in full |
| `SolonStakingForfeits.SkippedFullExitForfeitsUnsettled` | src/stake/SolonStaking.sol:202-219 | when the checkpoint fails a full exit keeps only settled rewards, so nothing is lost exactly when less than one unit was unsettled |
| `SolonStakingForfeits.SkippedExitForfeitsItsShare` | src/stake/SolonStaking.sol:202-219 | a partial exit of any size, nothing having streamed since the last update, keeps the reward exactly when the withdrawn stake's share of the unsettled claim fits into that claim's rounding, and never raises it |
| `SolonStakingForfeits.SkippedExitLeavesAtMost` | src/stake/SolonStaking.sol:202-219 | whatever has streamed since, the claim left is at most the old one less the withdrawn stake's stored share, up to one scaled unit per staked token |
| `SolonStakingForfeits.SkippedExitLosesARunningReward` | src/stake/SolonStaking.sol:206-218 | a reachable case for every stake, reward and wait: stake, inject, wait, exit with a failing checkpoint; the reward that had streamed was earned and nothing of it is left |
| `SolonStakingDust.OnlyDustIsStranded` | src/stake/SolonStaking.sol:292-327 | over every run without a failed checkpoint, what the reserve holds beyond everything earned, streaming and idle is dust: per transaction less than one scaled unit per staked token and one unit, and one unit per account |
| `SolonStakingDust.UnstakeSurplus` | src/stake/SolonStaking.sol:202-219 | an exit strands dust in the reserve, and one whose checkpoint fails strands exactly the withdrawn stake's unsettled share |
| `SolonStakingContract.SolonStaking.PendingFlow` | src/stake/SolonStaking.sol:292-299 | the lane loop adds up what both lanes streamed since the last update |
| `SolonStakingContract.SolonStaking.UnflowedRewards` | src/stake/SolonStaking.sol:172-177 | the lane loop adds up what both lanes still have to stream |
| `SolonStakingContract.SolonStaking.Earned` | src/stake/SolonStaking.sol:184-186 | reads the earnings the coverage theorem sums; in a valid contract never more than the reserve |
| `SolonStakingContract.SolonStaking.Stake` | src/stake/SolonStaking.sol:190-197 | settles, then adds the stake, or reverts whole; from a valid state it stays valid and succeeds exactly when unpaused, non-zero and under the cap |
| `SolonStakingContract.SolonStaking.Unstake` | src/stake/SolonStaking.sol:202-219 | returns the principal whatever the reward leg does, rolling back only that leg; from a valid state it succeeds exactly up to the caller's stake and pays what was earned when the leg completes |
| `SolonStakingContract.SolonStaking.Claim` | src/stake/SolonStaking.sol:221-223 | settles and pays; from a valid state it always succeeds and pays exactly what was earned |
| `SolonStakingContract.SolonStaking.Compound` | src/stake/SolonStaking.sol:226-236 | settles and restakes, or reverts whole; from a valid state its reserve check never decides |
| `SolonStakingContract.SolonStaking.NotifyBuyback` | src/stake/SolonStaking.sol:253-260 | injects into the seven-day lane, or reverts whole; keeps the contract valid and every account as it was |
| `SolonStakingContract.SolonStaking.SeedGenesis` | src/stake/SolonStaking.sol:263-271 | injects once into the thirty-day lane, or reverts whole; keeps the contract valid and every account as it was |
| `SolonStakingContract.SolonStaking.ReallocateIdle` | src/stake/SolonStaking.sol:276-283 | restreams the idle bucket, or reverts whole; keeps the contract valid and is never underfunded |
| `BuybackVaultRuns.ReleasesTrackTheStraightLine` | src/v2/PonsV2BuybackVault.sol:287-306 | between two locks, after any releases at any times, what has not vested is never below the exact straight line to vestingEnd and exceeds it by less than one unit per release and reading |
| `BuybackVaultRuns.EverythingVestsAtTheEnd` | src/v2/PonsV2BuybackVault.sol:299-306 | however often it was released, nothing is left unvested once vestingEnd is reached; frequent releases cannot stall a vest for good |
| `BuybackVaultRuns.LockedTokensAccountedFor` | src/v2/PonsV2BuybackVault.sol:121-198 | in every reachable state totalLocked is released + vested + unvested, the vault holds the unreleased part, the schedule ends within five years of its last update, and nothing underflows |
| `BuybackVaultRuns.LockKeeps` | src/v2/PonsV2BuybackVault.sol:121-164 | a lock never underflows, never brings maturity closer and never lowers what has vested |
| `BuybackVaultRuns.ReleaseKeeps` | src/v2/PonsV2BuybackVault.sol:178-198 | a release pays everything vested to the two beneficiaries without loss, the protocol's part being exactly floor(released * share) |
| `BuybackVaultRuns.ReleasesSplitByTheShare` | src/v2/PonsV2BuybackVault.sol:187-196 | over any run without a lock the protocol's running total is its share of all that was released, short by less than one unit per release |
| `BuybackVaultRuns.LockSchedules` | src/v2/PonsV2BuybackVault.sol:121-164 | a lock succeeds exactly for an authorised locker on valid and, while anything is owed, the same protocol terms; the new end is the floored weighted average away and a closed epoch takes the new terms but keeps a creator already set |
| `BuybackVaultRuns.VestedGrowsWithTime` | src/v2/PonsV2BuybackVault.sol:279-306 | the vested amount never falls as time passes |
| `BuybackVaultRuns.CombinedDurationBounds` | src/v2/PonsV2BuybackVault.sol:152-160 | the averaged duration is positive, at most five years and at least what was left |
| `BuybackVaultRuns.RunKeeps` | src/v2/PonsV2BuybackVault.sol:121-219 | books balance and the vested amount never falls over any run |
| `BuybackVaultRuns.DepositPace` | src/v2/PonsV2BuybackVault.sol:26-34 | a deposit keeps the pace of what was already vesting exactly when unvested * remaining + amount * five years < total * (floor(total * remaining / unvested) + 1) |
| `BuybackVaultRuns.LockPace` | src/v2/PonsV2BuybackVault.sol:121-164 | the same of every successful lock that finds tokens still vesting: tokens per second stay at or above the old pace exactly under that condition |
| `BuybackVaultRuns.DepositPaceMargin` | src/v2/PonsV2BuybackVault.sol:26-34 | a readable form: the pace is kept when remaining * (2 * unvested + amount) reaches unvested * five years, and lowered below that by more than a second's rounding |
| `BuybackVaultContract.PonsV2BuybackVault.Lock` | src/v2/PonsV2BuybackVault.sol:121-164 | schedules what arrived, touching no other launch, or reverts; from valid books it never underflows and lowers nothing that has vested |
| `BuybackVaultContract.PonsV2BuybackVault.Release` | src/v2/PonsV2BuybackVault.sol:178-198 | touching no other launch, from valid books succeeds exactly for the two beneficiaries and credits exactly VestedAmount less what was released before |
| `BuybackVaultContract.PonsV2BuybackVault.UpdateCreatorRecipient` | src/v2/PonsV2BuybackVault.sol:210-219 | redirects the creator's side of one launch, for the factory alone |
| `LaunchFactoryRuns.EscrowAlwaysCovered` | src/v2/PonsV2LaunchFactory.sol:1084-1147 | for every asset the factory holds exactly what its Swept launches are owed plus unasked deposits, over any number of launches sharing assets, so no seed or rescue is ever short |
| `LaunchFactoryRuns.PhasesOnlyAdvance` | src/v2/PonsV2LaunchFactory.sol:1084-1285 | phases only move NotGraduated, Swept, then PoolCreated or Rescued, and a record in an unchanged phase is unchanged |
| `LaunchFactoryRuns.ReservesLeaveOnce` | src/v2/PonsV2LaunchFactory.sol:1193-1307 | what a curve handed over is in escrow, or in the pool and the locker, or with the rescue recipient: always exactly one of them and in full |
| `LaunchFactoryRuns.ReadyLaunchHasExactlyOneExit` | src/v2/PonsV2LaunchFactory.sol:1084-1171 | in every ready state exactly one of graduate and forceSweptGraduation gets through, decided by the viability of the seed |
| `LaunchFactoryRuns.GraduatedLaunchStaysSeedable` | src/v2/PonsV2LaunchFactory.sol:1193-1211 | a launch swept by graduate out of an exactly delivering asset can be seeded at any later time until someone seeds or rescues it, with at least the tokens its launch terms implied |
| `LaunchFactoryRuns.LaunchTermsBoundTheSeed` | src/v2/PonsV2LaunchFactory.sol:1508-1519 | for any handed-over quote at or above the threshold the pool's token side is at least the launch-time figure, hence positive, and within one token unit of the terminal price |
| `LaunchFactoryRuns.PoolsOpenAtTheTerminalPrice` | src/v2/PonsV2LaunchFactory.sol:1288-1322 | when assets deliver exactly, every pool ever created holds all raised quote, at least the launch-time tokens, and the curve's last price to one token unit |
| `LaunchFactoryRuns.RescueOpensAfterTheDelay` | src/v2/PonsV2LaunchFactory.sol:1254-1285 | a Swept launch can be rescued exactly from the delay on, and its reserves are there in full |
| `LaunchFactoryExits.RescueWaitsForSevenDays` | src/v2/PonsV2LaunchFactory.sol:1254-1285 | after either sweep, in every later state of every run in which the launch still waits, a rescue succeeds exactly for the owner, to a recipient that takes it, from 604800 seconds after the sweeping block on |
| `LaunchFactoryExits.SweepStampsTheTime` | src/v2/PonsV2LaunchFactory.sol:1130-1147 | a sweep records its own block's time and exactly the quote that arrived |
| `LaunchFactoryExits.GuardDecidesTheExit` | src/v2/PonsV2LaunchFactory.sol:1084-1123 | the guard is asked about the pair, the spacing, all the quote raised and the floored token side; graduate goes through on yes, the owner's forced sweep on no |
| `LaunchFactoryExits.PoolTakesItsSeed` | src/v2/PonsV2LaunchFactory.sol:1193-1211 | a pool is created exactly when the executor is set, the guard accepts and Uniswap takes the position; the factory parts with exactly the two swept reserves |
| `LaunchFactoryExits.GuardDecidesTheLaunch` | src/v2/PonsV2LaunchFactory.sol:1508-1519 | a launch opens exactly for a fresh token and terms whose floored seed at the threshold is positive and seedable, on a fresh curve under those terms |
| `LaunchFactoryRuns.OtherLaunchesUntouched` | src/v2/PonsV2LaunchFactory.sol:1130-1147 | a transaction about one token leaves every other launch's record as it was |
| `LaunchFactoryContract.PonsV2LaunchFactory.Graduate` | src/v2/PonsV2LaunchFactory.sol:1084-1094 | preflights, then sweeps; keeps the escrow invariant |
| `LaunchFactoryContract.PonsV2LaunchFactory.ForceSweptGraduation` | src/v2/PonsV2LaunchFactory.sol:1109-1123 | sweeps only a refused seed; keeps the escrow invariant |
| `LaunchFactoryContract.PonsV2LaunchFactory.SweepCurve` | src/v2/PonsV2LaunchFactory.sol:1130-1147 | records what arrived, not what was sent |
| `LaunchFactoryContract.PonsV2LaunchFactory.CreateGraduatedPool` | src/v2/PonsV2LaunchFactory.sol:1193-1211 | locks the excess and funds the executor with the rest, or changes nothing |
| `LaunchFactoryContract.PonsV2LaunchFactory.RescueCurveFees` | src/v2/PonsV2LaunchFactory.sol:1222-1226 | clears one curve's pending fees and touches no escrow |
| `LaunchFactoryContract.PonsV2LaunchFactory.RescueSweptGraduation` | src/v2/PonsV2LaunchFactory.sol:1254-1285 | releases both reserves whole after the delay, or changes nothing |
| `CurvePoolModel.ReservesAlwaysCoverPayouts` | src/CurvePool.sol:91-161 | in no reachable state does the real-reserve check, a checked subtraction or a short balance stop a transaction: only deadline, size, slippage or an unowned token do |
| `CurvePoolModel.NoExtraction` | src/CurvePool.sol:91-138 | any stretch of trading that returns to the same token reserve leaves realUsdc no lower and traders poorer by at least the fees they paid |
| `CurvePoolModel.RunKeeps` | src/CurvePool.sol:91-161 | over any run the product never falls, balance is realUsdc plus both fee pots plus forced value, and graduation is not undone |
| `CurvePoolModel.SellNeverExceedsRealReserve` | src/CurvePool.sol:122-125 | the gross payout of circulating tokens never reaches into the virtual reserve |
| `CurvePoolModel.AccrueFee` | src/CurvePool.sol:182-187 | the creator gets its share of a fee rounded down and the protocol all the rest, so no unit of a fee is dropped |
| `CurvePoolModel.BuyPays` | src/CurvePool.sol:91-111 | a buy takes the floored fee at the pool's rate, pays the floored constant-product tokens for the rest, graduates exactly at the mark, and fails only by deadline, zero or the buyer's minimum |
| `CurvePoolModel.SellPays` | src/CurvePool.sol:114-138 | a sale pays the floored constant-product price less the floored fee, and succeeds exactly within deadline, circulation and the seller's minimum |
| `CurvePoolContract.CurvePool.Buy` | src/CurvePool.sol:91-111 | one buy, keeping the invariant, or no change |
| `CurvePoolContract.CurvePool.Sell` | src/CurvePool.sol:114-138 | one sale, keeping the invariant, or no change |
| `CurvePoolContract.CurvePool.ClaimCreatorFees` | src/CurvePool.sol:142-150 | pays the creator's pot and nothing else |
| `CurvePoolContract.CurvePool.ClaimProtocolFees` | src/CurvePool.sol:152-161 | pays the protocol's pot and nothing else |

## Left out

- SkippedExitLeavesAtMost: an upper bound, not the exact claim, once rewards have streamed since the last update; the exact condition is SkippedExitForfeitsItsShare's, for when none have.
- Deployment scripts, keepers, mocks, ownership, signatures, metadata, events and gas limits.
- The Uniswap position, its tick and price arithmetic and Permit2; PonsV2GraduationGuard is an arbitrary deterministic verdict on what it is asked.
- V3FeeLedger, RewardRoundManager, RewardPayoutVault and RewardAssetSchedule are not part of this model. The ledger credits exactly what it adds to the desks' bucket, a pool has one quote asset, a purchase entry exists once its stream is sealed, deliveries only grow from there, and a sealed stream is bought in one asset fixed when it is sealed.
- The mint and the surcharge it sends to the rewards are one transaction in `DeskRewardsModel`; in the classes they are two methods.
- DeskRewards' mappings from stream keys are gathered into one value per source and asset; key hashing is taken to be injective.
- Native value forced into DeskRewards without a call is not modelled; the royalty asset list is fixed at deployment, before any card exists.
- DeskNFT sales, approvals, nonces, sponsorship escrow, service queues and the eligibility controller appear only as conditions on mints, transfers and payouts; `batchDistributeDesk` repeats `pay`.
- A buy that triggers automatic graduation is two transactions here; refunds of unspent quote are part of what was not spent.
- PonsV2FeeEscrow and the buyback vault's side of a sweep are sinks of the curve's model; the vault's own rules are proved separately.
- Launch configuration, fees, whitelists, creator-recipient recovery and the launch digest of PonsV2LaunchFactory.
- Staking and quote assets deliver transfers exactly, except the quote asset of a graduating launch and the vault's deposits, which may deliver less.
- RadianStaking, RadianExecutor, RadianTreasury, SolonFeeRouter, the fee splitter and the remaining desk contracts: simpler copies or plain counters.
