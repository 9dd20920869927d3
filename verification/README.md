# Topic market verification

A Dafny model of the market demos and of the chain-reading and market-creation logic of the front
end, with proofs of what they promise.

## What is modelled

**The topic market** (`frontend/components/topicMarketDemoModel.ts`). A market opens on a Genesis
bonding curve R = kS², graduates into an LMSR market whose depth is the capital it graduated with,
is decided by Core stakers on YES, NO or INVALID, and is then claimed. About twenty actions share
one ledger. `Accounts` and `Ledger` hold the state and the runtime guard, `TopicMarket` the actions
as functions (`Guard` gives the first error, `Effect` the new state, `Apply` both and the final
ledger check), and `Actions` the same actions in the source's own form: copy the state, change the
copy in place, check, return. `Invariant` says what every reachable state satisfies; the `Keep…`
modules prove that each action keeps it; `Runs`, `Freeze`, `ClaimOrder`, `NonInterference`,
`FeeAttribution`, `SettledRuns` and `StockRouting` prove the theorems about whole runs.
`Accepted`, `Effects`, `Clock` and `CoreVerdict` say of every action when it is accepted and what it
does, in terms of what the accounts hold. Accounts are a sequence of any length. `BudgetQuote` is the
inverse of the Formal buy price.

Amounts are exact reals. The functions the model cannot compute are passed in with a few laws:
softplus sp(x) = log(1 + eˣ) (positive, increasing, sp(x) − sp(−x) = x, sp(0) < 1) and the square
root (`Maths`); the exponential and the logarithm (`ExpLog`: exp(x + y) = exp x · exp y,
exp x ≥ 1 + x, exp(ln x) = x).

**The lifecycle demo** (`frontend/components/marketLifecycleModel.ts`): `LifecycleCurve`,
`Lifecycle`, `LifecycleSafe`, `LifecycleRuns`, `LifecycleGate`, `LifecycleTerms` and, in place,
`LifecycleActions`. The centre is the claim that graduation never lowers what a seller gets, and
happens at the first point of an order at which it can.

**Creating a market from the admin page** (`frontend/admin.tsx`): `ChainBlocks`, `IntentProtocol`,
`IntentSafety`, `IntentConclusions`, `IntentClosing`. The page, the wallet, the chain and two lagging
RPC views take atomic steps in any order. Blocks form a tree, and a block stands for its own hash.
The assumptions are the events' enabling conditions: the wallet keeps the nonce and the call data it
is given, finalized blocks stay, and a view never takes back a block it has reported finalized.

**Chain reading**: `BlockSearch` (timestamp search), `CoreHistory` and `HistoryScan` (replaying and
caching Core logs), `Envelope` and `Text` (the reason envelope), `ShareQuote` (the smallest budget
for a number of shares).

## Where the code falls short of its documentation

- `frontend/admin.tsx:819-825` returns early while an earlier recovery is in flight, and
  `savePending(null)` and `setPendingCanClear(true)` act on whatever intent is stored by then. A
  recovery that was started for an intent since rejected can therefore clear the next intent, and
  two submissions of the same market can both land (`IntentClosing.StaleRecoveryLetsTwoLand`).
  Submitting is safe exactly when no recovery interferes
  (`IntentClosing.SafeExactlyWithoutInterference`). The page can see only whether one is in flight:
  submitting when none is always safe (`GuardSuffices`, `ClosedNeverLandsLate`), and that check
  refuses no safe submission except beside a recovery whose receipt is orphaned or whose block spends
  the new nonce too (`GuardIsExact`).
- `frontend/components/genesisShareQuote.ts:21` promises the smallest budget. It is right for every
  market with a given capital share exactly when that share is at most 9900 basis points
  (`ShareQuote.SoundExactlyTo9900`); the shares in use, 900 and 1500, are.

## Model

| member | source | states |
|---|---|---|
| `Runs.RunSafe` | frontend/components/topicMarketDemoModel.ts:402-425 | from any good state, every sequence of actions on any number of accounts ends in a good state: the ledger guard raises nothing, wallets plus all reserve buckets (pending, failed and refundable bonds included) are exactly the initial capital, the market's terms are unchanged and phases have only moved forward |
| `Runs.DemoRunSafe` | frontend/components/topicMarketDemoModel.ts:94-110 | the same from a freshly created demo market with any accepted configuration: after any requests the guard is silent, the money is exactly 30000, and the next request is never refused with a book error |
| `Runs.StepSafe` | frontend/components/topicMarketDemoModel.ts:52 | an action succeeds if and only if its own guards pass, so the ledger check at its end never decides; the errors LEDGER, CURVE, LP_LEDGER, OUTCOME_LEDGER, SOLVENCY, LMSR_LEDGER, NUMERIC, CASH, TINY and SETTLEMENT_INSOLVENT never occur |
| `Runs.DemoStarts` | frontend/components/topicMarketDemoModel.ts:94-114 | every accepted configuration creates a market that satisfies the invariant |
| `Invariant.GuardSilent` | frontend/components/topicMarketDemoModel.ts:410-425 | in every state of the invariant the runtime guard returns the state instead of raising |
| `Invariant.LmsrSolvent` | frontend/components/topicMarketDemoModel.ts:419-423 | LMSR cash exceeds the larger outcome supply by more than (1 - ln 2) times the depth |
| `Lmsr.DeltaIsCostDifference` | frontend/components/topicMarketDemoModel.ts:158-163 | the overflow-safe one-sided delta is the difference of the LMSR cost, in all three of its branches |
| `Lmsr.CostForm` | frontend/components/topicMarketDemoModel.ts:115-118 | the max-based cost is own-side softplus on top of the other supply, and symmetric in the sides |
| `KeepGenesis.BuyQuoteOnCurve` | frontend/components/topicMarketDemoModel.ts:127-136 | a Genesis buy is quoted a positive quantity that puts supply and reserve back on R = kS^2 |
| `KeepGenesis.SellQuoteOnCurve` | frontend/components/topicMarketDemoModel.ts:137-146 | a Genesis sale pays between nothing and the reserve and leaves supply and reserve on the curve |
| `KeepFormal.BuyQuoteExact` | frontend/components/topicMarketDemoModel.ts:165-174 | a Formal buy quote exists exactly up to the supply cap, and its net is the exact rise of the potential |
| `KeepFormal.SellQuoteExact` | frontend/components/topicMarketDemoModel.ts:175-186 | a Formal sale quote exists exactly up to the outstanding supply, pays the exact fall of the potential, and is always covered by cash |
| `KeepFormal.AccrualSums` | frontend/components/topicMarketDemoModel.ts:71-81 | a fee enters each of the three conditional ledgers in full, account shares plus official share, and touches no other amount of any account |
| `KeepFormal.FormalBuyKeeps` | frontend/components/topicMarketDemoModel.ts:187-192 | a Formal buy keeps the invariant |
| `KeepFormal.FormalSellKeeps` | frontend/components/topicMarketDemoModel.ts:213-220 | a Formal sale keeps the invariant |
| `KeepCore.RedemptionCovered` | frontend/components/topicMarketDemoModel.ts:235-247 | redeeming pairs never finds too little cash |
| `KeepCore.RedeemKeeps` | frontend/components/topicMarketDemoModel.ts:236-247 | redeeming pairs keeps the invariant, the LMSR equation included |
| `KeepCore.StakeKeeps` | frontend/components/topicMarketDemoModel.ts:261-269 | staking keeps the invariant |
| `KeepCore.PenaltyBounds` | frontend/components/topicMarketDemoModel.ts:272-273 | the exit penalty lies between nothing and the principal, is at least a tenth of it, and exceeds a tenth by less than 10^-18 |
| `KeepCore.ExitKeeps` | frontend/components/topicMarketDemoModel.ts:270-279 | an exit keeps the invariant: with the rewards it forfeits, all three fee ledgers stay balanced |
| `KeepCore.ProposeKeeps` | frontend/components/topicMarketDemoModel.ts:280-287 | a bonded early-settlement request keeps the invariant; its processing time lies before the Core deadline |
| `KeepClaims.ProcessAllowed` | frontend/components/topicMarketDemoModel.ts:288-296 | a due request can always be processed |
| `KeepSettlement.SettlementConserves` | frontend/components/topicMarketDemoModel.ts:319-330 | for every outcome, also with no stake or no eligible stake, Core payouts plus the official budget are exactly stakes, penalties, failed bonds and all fees |
| `KeepSettlement.PayoutFair` | frontend/components/topicMarketDemoModel.ts:319-327 | a winning stake is paid at least its principal, any other account exactly nothing; under INVALID every stake at least its principal |
| `KeepSettlement.InvalidStakeEarnsNoFees` | frontend/components/topicMarketDemoModel.ts:323-326 | under INVALID a stake on INVALID gets its share of the principal pot and no market fee |
| `SettledRuns.StakersProtected` | frontend/components/topicMarketDemoModel.ts:319-327 | in every settled state of every run, exits and side changes included: a winning stake holds a payout of at least its principal and any other stake exactly nothing; under INVALID every stake at least its principal, and stake on INVALID exactly its share of the stakes, penalties and failed bonds there were at settlement, so no market fee |
| `SettledRuns.RunRecords` | frontend/components/topicMarketDemoModel.ts:319-360 | a run that ends settled settled exactly once, by processing a request or by finalization, from good books with nothing pending, and its last state still shows the result, payouts, stakes and fees of those books |
| `CoreVerdict.ResultDecided` | frontend/components/topicMarketDemoModel.ts:307-310 | over every run, a market that settles has the result YES exactly when the YES stakes are more than half of all stakes, NO exactly when the NO stakes are, and INVALID otherwise |
| `CoreVerdict.SettlePays` | frontend/components/topicMarketDemoModel.ts:307-333 | settling good books sets the outcome budget to all YES tokens, all NO tokens or half of both, the LP budget to the rest of the pool, and every Core payout to the account's share of stakes, penalties and failed bonds by stake, its own rewards and its share of forfeited ones; creator and protocol get exactly the collected fees and what no payout takes |
| `CoreVerdict.EarlyRequestDecided` | frontend/components/topicMarketDemoModel.ts:288-296 | processing a request ends the market exactly when the requested side has more than half of all stake or the Core deadline has passed; the bond is then owed to the proposer, and otherwise joins the failed bonds |
| `CoreVerdict.FinalizationDecided` | frontend/components/topicMarketDemoModel.ts:356-360 | finalization settles the books as they are, after deciding a request that is still pending |
| `CoreVerdict.RunPayouts` | frontend/components/topicMarketDemoModel.ts:319-328 | in every settled state of every run each payout is the account's share of the books the run settled from, under the result those stakes decide |
| `Runs.FinalizeSucceeds` | frontend/components/topicMarketDemoModel.ts:356-360 | once the Core deadline has passed, finalization of a trading market always succeeds, settles it, and leaves no pending request |
| `Accepted.AcceptedExactly` | frontend/components/topicMarketDemoModel.ts:53-63 | in every reachable state, each of the 19 actions is accepted if and only if its requester has what it takes, the phase and the hours allow it and no due request blocks it; for trades no price, supply or cash condition remains but affordability and the supply cap |
| `Accepted.RefusalTrue` | frontend/components/topicMarketDemoModel.ts:53-63 | in every reachable state the error an action is refused with is true of the request: of its account, amount, side, holding, phase, hour or pending request |
| `Accepted.SupplyCap` | frontend/components/topicMarketDemoModel.ts:164 | the supply cap is 2^192 - 1 in units of 10^-18 |
| `Effects.ActionDoes` | frontend/components/topicMarketDemoModel.ts:227-395 | every accepted transfer, redemption, stake, exit, request, bond refund and claim moves exactly the money, tokens and stake it is about, between the right accounts and buckets, and nothing else; claiming pays the YES tokens under YES, the NO tokens under NO, half of both under INVALID |
| `Effects.ResultAddsUp` | frontend/components/topicMarketDemoModel.ts:403-425 | from any state, good books or not, an action returns only a state without debts whose money adds up bucket by bucket and whose tokens and cash fit the curve of the phase |
| `Clock.TimeExact` | frontend/components/topicMarketDemoModel.ts:348-355 | time moves to where it is asked; Genesis fails exactly from TG on, with the reserve as refund budget, Formal trading closes exactly from TF on, and no other phase changes |
| `Clock.MarketHours` | frontend/components/topicMarketDemoModel.ts:94-110 | from creation and over any run: a graduated market that is not settled is FORMAL exactly while now < TF = TC - 3600, Genesis ends by TG = TF - 3600, and a market ends before TC only by an early request |
| `Runs.SettledHasNoRequest` | frontend/components/topicMarketDemoModel.ts:280-300 | no failed or settled state of the invariant holds a pending bond |
| `Runs.HoldingSellable` | frontend/components/topicMarketDemoModel.ts:213-220 | while trading is open and no request is due, an account can always sell its whole holding |
| `Runs.GraduationByBuyOnly` | frontend/components/topicMarketDemoModel.ts:82-92 | a Genesis sale never graduates the market; a buy graduates it exactly when the reserve reaches the target |
| `Runs.PhaseForward` | frontend/components/topicMarketDemoModel.ts:334-360 | no action moves the phase backward, and terminal phases are final |
| `Runs.TermsKept` | frontend/components/topicMarketDemoModel.ts:39-44 | no action changes deadlines, curve, target, fee accounts, capital base, bond or number of accounts, and time never goes back |
| `Freeze.FrozenRun` | frontend/components/topicMarketDemoModel.ts:54-59 | from the moment a request is due until it is decided, no run of other actions changes a stake, a reward, an outcome supply, the pool or the request |
| `Freeze.VerdictFixed` | frontend/components/topicMarketDemoModel.ts:288-296 | whoever processes a due request and however late, a match settles with the same payouts and budgets and records termination at its processing time; a mismatch settles exactly if the Core deadline has passed |
| `ClaimOrder.RunEntitled` | frontend/components/topicMarketDemoModel.ts:340-395 | over any run from a settled or failed market, of claims, partial burns, LP transfers, refunds and time in any order, an account's entitlement changes by exactly the worth, at the one fixed rate, of the LP tokens it received less those it gave |
| `ClaimOrder.ClaimOrderIrrelevant` | frontend/components/topicMarketDemoModel.ts:340-395 | an account that ends such a run with nothing more to claim has its entitlement plus the worth of its net LP transfers; two runs with the same net transfers leave it with the same money, whatever the order and portions of everybody's claims and transfers |
| `ClaimOrder.StepEntitled` | frontend/components/topicMarketDemoModel.ts:361-395 | no claim, bond refund or passing time changes any account's entitlement |
| `ClaimOrder.TransferEntitled` | frontend/components/topicMarketDemoModel.ts:227-233 | an LP transfer moves entitlement at the fixed rate from sender to receiver and touches nobody else |
| `ClaimOrder.LpRateKept` | frontend/components/topicMarketDemoModel.ts:361-366 | at every moment after settlement the LP budget is the initial budget times outstanding over claim supply |
| `ClaimOrder.FailedRateKept` | frontend/components/topicMarketDemoModel.ts:340-346 | at every moment after failure the refund budget is the initial budget times outstanding Genesis tokens over their supply at failure |
| `ClaimOrder.BudgetsDrained` | frontend/components/topicMarketDemoModel.ts:361-380 | when everything is claimed every claim budget is exactly zero |
| `NonInterference.BystanderKeepsAll` | frontend/components/topicMarketDemoModel.ts:45-66 | whatever the others do, an account that does not act never loses money, tokens, stake, rewards or a bond it is owed |
| `NonInterference.TradeMovesMoney` | frontend/components/topicMarketDemoModel.ts:127-220 | in every trade, graduating or not, the gross amount divides into net, creator, protocol, LP and Core parts by the tariff of its phase; each of the three conditional ledgers takes the whole Core part; no other bucket, and nobody else's money, market tokens or stake, changes |
| `BudgetQuote.QuoteFormalBuyBudget` | frontend/components/topicMarketDemoModel.ts:193-207 | never costs more than the budget; no affordable quantity exceeds the result by more than 2^-70 of the initial bracket; SUPPLY_LIMIT exactly when closed or at the cap; otherwise it fails, with TINY, exactly when even 2^-70 of the bracket is too dear |
| `BudgetQuote.BracketAffordable` | frontend/components/topicMarketDemoModel.ts:196-199 | the initial upper bracket is unaffordable unless the supply cap cut it off |
| `BudgetQuote.FormalBuyBudget` | frontend/components/topicMarketDemoModel.ts:209-212 | spending a budget is the Formal buy of a nearly best quantity, takes no more than the budget, and keeps the invariant |
| `BudgetQuote.MaxFormalSellTokens` | frontend/components/topicMarketDemoModel.ts:248-260 | the offered sale is always accepted by the quote, and in a market with good books it is the whole holding |
| `Actions.Draft.AccrueCoreFee` | frontend/components/topicMarketDemoModel.ts:71-81 | the two nested loops over outcomes and accounts compute `AccrueCoreFee` |
| `Actions.Draft.Graduate` | frontend/components/topicMarketDemoModel.ts:82-92 | graduation in place, with its loop over accounts |
| `Actions.Draft.Settle` | frontend/components/topicMarketDemoModel.ts:307-333 | settlement in place: raises exactly when the pool is short, else builds the settled state |
| `Actions.Draft.PayoutsOf` | frontend/components/topicMarketDemoModel.ts:322-328 | the payouts are computed from the books before they are cleared |
| `Actions.Draft.DistributeOfficialFees` | frontend/components/topicMarketDemoModel.ts:301-306 | official fees in place, in the source's order |
| `Actions.Draft.Fail` | frontend/components/topicMarketDemoModel.ts:334-338 | failure in place |
| `Actions.Draft.Unstake` | frontend/components/topicMarketDemoModel.ts:270-279 | the exit in place: penalty, forfeited rewards per ledger, side totals, refund |
| `Actions.Draft.Burn` | frontend/components/topicMarketDemoModel.ts:361-366 | burning LP tokens in place at the fixed rate |
| `Actions.Open` | frontend/components/topicMarketDemoModel.ts:111-114 | opening the market done in place on a copy gives exactly the result of `Apply`: the same new state or the same error |
| `Actions.Buy` | frontend/components/topicMarketDemoModel.ts:147-151 | a Genesis buy done in place on a copy gives exactly the result of `Apply`: the same new state or the same error |
| `Actions.Sell` | frontend/components/topicMarketDemoModel.ts:152-157 | a Genesis sale done in place on a copy gives exactly the result of `Apply`: the same new state or the same error |
| `Actions.FormalBuy` | frontend/components/topicMarketDemoModel.ts:187-192 | a Formal buy done in place on a copy gives exactly the result of `Apply`: the same new state or the same error |
| `Actions.FormalSell` | frontend/components/topicMarketDemoModel.ts:213-220 | a Formal sale done in place on a copy gives exactly the result of `Apply`: the same new state or the same error |
| `Actions.TransferLP` | frontend/components/topicMarketDemoModel.ts:227-233 | an LP transfer done in place on a copy gives exactly the result of `Apply`: the same new state or the same error |
| `Actions.RedeemPairs` | frontend/components/topicMarketDemoModel.ts:236-247 | pair redemption done in place on a copy gives exactly the result of `Apply`: the same new state or the same error |
| `Actions.CoreStake` | frontend/components/topicMarketDemoModel.ts:261-269 | staking done in place on a copy gives exactly the result of `Apply`: the same new state or the same error |
| `Actions.CoreExit` | frontend/components/topicMarketDemoModel.ts:270-279 | an exit done in place on a copy gives exactly the result of `Apply`: the same new state or the same error |
| `Actions.ProposeEarly` | frontend/components/topicMarketDemoModel.ts:280-287 | an early-settlement request done in place on a copy gives exactly the result of `Apply`: the same new state or the same error |
| `Actions.ProcessEarly` | frontend/components/topicMarketDemoModel.ts:288-296 | processing a request done in place on a copy gives exactly the result of `Apply`: the same new state or the same error |
| `Actions.ClaimEarlyBond` | frontend/components/topicMarketDemoModel.ts:297-300 | a bond refund done in place on a copy gives exactly the result of `Apply`: the same new state or the same error |
| `Actions.AdvanceTime` | frontend/components/topicMarketDemoModel.ts:347-355 | passing time, which may fail or close the market, done in place on a copy gives exactly the result of `Apply`: the same new state or the same error |
| `Actions.Finalize` | frontend/components/topicMarketDemoModel.ts:356-360 | finalization done in place on a copy gives exactly the result of `Apply`: the same new state or the same error |
| `Actions.ClaimLP` | frontend/components/topicMarketDemoModel.ts:361-366 | an LP claim done in place on a copy gives exactly the result of `Apply`: the same new state or the same error |
| `Actions.Claim` | frontend/components/topicMarketDemoModel.ts:367-375 | a full claim, which runs the LP claim with its own ledger check first, done in place on a copy gives exactly the result of `Apply`: the same new state or the same error |
| `Actions.ClaimCore` | frontend/components/topicMarketDemoModel.ts:376-380 | a Core claim done in place on a copy gives exactly the result of `Apply`: the same new state or the same error |
| `Actions.ClaimCoreOfficial` | frontend/components/topicMarketDemoModel.ts:382-387 | the official Core claim done in place on a copy gives exactly the result of `Apply`: the same new state or the same error |
| `Actions.ClaimFees` | frontend/components/topicMarketDemoModel.ts:388-395 | a fee claim done in place on a copy gives exactly the result of `Apply`: the same new state or the same error |
| `StockRouting.RouteSafe` | frontend/components/stockDemoRouting.ts:20-38 | routing any ledger-preserving action succeeds exactly when the action does and the stable wallet covers what it spends; the stock wallet is unchanged, the invariant holds on the adjusted capital base, and price times market plus stable wallets is worth what it was |
| `StockRouting.RunKeepsWorth` | frontend/components/stockDemoRouting.ts:20-38 | the same over any sequence of routed and direct requests of any accounts |
| `StockRouting.RouteMeans` | frontend/components/stockDemoRouting.ts:20-38 | for any action: a direct request returns the action's result and the stable wallets unchanged; a routed one returns the result of the action on the topped-up wallet with the stock wallet put back, the capital base less what was moved, and that amount at the price through the one stable wallet |
| `StockRouting.RouteStockDemo` | frontend/components/stockDemoRouting.ts:20-38 | the source's steps (credit, act, restore, check) compute `Route` |
| `StockRouting.StockDemoStarts` | frontend/components/stockDemoRouting.ts:9-17 | a stock market of any positive price, size and depth starts with good books and passes its own check |
| `FeeAttribution.SettledValue` | frontend/testnet/coreProtocolFees.ts:2-9 | on the state settlement builds, the closed formula gives the official budget booked there, less the penalties that join it when there is no stake at all |
| `SettledRuns.AttributionFromCreation` | frontend/testnet/coreProtocolFees.ts:2-9 | from any accepted configuration, over any run: the value shown before settlement never exceeds the value at any later time, and in a settled state it is the official budget booked at settlement, less the penalties that join it when there is no stake at all |
| `BlockSearch.FindTimestampRange` | frontend/testnet/historyBlockSearch.ts:6-62 | for any provider: reports a bad head or request exactly for one, never reaches an iteration limit or a missing boundary, and brackets what it returns by real headers |
| `BlockSearch.RangeIsExact` | frontend/testnet/historyBlockSearch.ts:59-61 | on a chain with nondecreasing timestamps, bracketed bounds enclose exactly the blocks stamped at the requested time, and first > last exactly when there is none |
| `BlockSearch.FindOnChain` | frontend/testnet/historyBlockSearch.ts:3-11 | on such a chain the search succeeds with the exact range, or reports a head that is none or does not reach the request exactly then, or a request before block one exactly then |
| `BlockSearch.Search.Read` | frontend/testnet/historyBlockSearch.ts:13-17 | a header is validated and read once, later reads come from the cache |
| `BlockSearch.Search.LowerBound` | frontend/testnet/historyBlockSearch.ts:28-58 | prediction, galloping and bisection find a boundary or a bad header |
| `BlockSearch.Search.GallopDown` | frontend/testnet/historyBlockSearch.ts:33-41 | galloping down ends in a bracket or at a bad header; below 2^53 blocks it never reaches its limit of 64 steps |
| `BlockSearch.Search.GallopUp` | frontend/testnet/historyBlockSearch.ts:42-51 | the same for galloping up, whose missing-boundary error cannot occur either |
| `BlockSearch.Search.Bisect` | frontend/testnet/historyBlockSearch.ts:52-57 | bisection of a bracket ends at a boundary or a bad header and never reaches its limit of 64 steps |
| `ShareQuote.BudgetForGenesisShares` | frontend/components/genesisShareQuote.ts:22-42 | the budget buys the shares and one unit less does not; up to 9900 basis points no smaller positive budget does, `maximum` bounds every budget's output, and 0 means no budget suffices |
| `ShareQuote.BuysOutput` | frontend/components/genesisShareQuote.ts:25-32 | the output of a budget is the largest n with n * (virtual + real reserve + c) <= tokens * c, where c is 99% of the budget, at most the gap, less the floor of the capital share of everything retained, beyond what is locked |
| `ShareQuote.OutputMonotone` | frontend/components/genesisShareQuote.ts:25-32 | the output through fee, gap cap, capital share and curve floors never falls as the budget grows, up to 9900 basis points |
| `ShareQuote.SoundExactlyTo9900` | frontend/components/genesisShareQuote.ts:24-34 | `maximum` bounds every budget in all markets with a capital share exactly when the share is at most 9900 basis points |
| `ShareQuote.BreakingOutputs` | frontend/components/genesisShareQuote.ts:28-33 | for every larger share, a market in which one unit buys 3 shares while the largest budget looked at buys 2 |
| `CoreHistory.ReplaySame` | frontend/testnet/coreHistory.ts:13-40 | listings of the same logs of one canonical chain, in any order and with any repetitions, replay to the same history or error |
| `CoreHistory.ReplayShows` | frontend/testnet/coreHistory.ts:13-40 | the history lists the live logs of the chain in block and log order, each once: exactly the visible ones, each with its actor, amounts, side, time and place |
| `CoreHistory.ClaimsCountedOnce` | frontend/testnet/coreHistory.ts:20-36 | the claims shown to a user add up to the principal paid plus every fee log once, plus only those fee parts of withdrawals that have no log of their own |
| `CoreHistory.NothingUnlogged` | frontend/testnet/coreHistory.ts:20-28 | for a vault that logs each paying withdrawal's fee part immediately before it, nothing else remains |
| `CoreHistory.ReplayCoreHistory` | frontend/testnet/coreHistory.ts:13-40 | the map, the set and the loops compute `Replay` |
| `CoreHistory.Collect` | frontend/testnet/coreHistory.ts:14-19 | the map with insertion order drops removed and repeated logs and rejects foreign ones |
| `CoreHistory.IncludedFees` | frontend/testnet/coreHistory.ts:20-28 | the set holds exactly the fee logs that the next log's withdrawal counts |
| `HistoryScan.ReadIsFullScan` | frontend/testnet/coreHistory.ts:46-73 | with any truthfully written cache, also of a chain since reorganized, a read shows exactly what a full scan of the current chain shows, and leaves a truthful checkpoint |
| `HistoryScan.EveryVisitComplete` | frontend/testnet/coreHistory.ts:54-72 | over any number of visits, with reorganizations, a store that comes and goes and its rule for keeping the newer checkpoint, every visit shows the complete history of the chain it sees |
| `HistoryScan.NextReadContinues` | frontend/testnet/coreHistory.ts:55-62 | after a read, the next one scans only the blocks added since, as long as the chain still has the head that was read |
| `HistoryScan.ReadVouches` | frontend/testnet/coreHistory.ts:46-71 | a read succeeds only on the right chain, with the origin and the head still in it and every new log in the block shown at its height |
| `HistoryScan.NewerNeverLost` | frontend/testnet/coreHistoryCache.ts:19 | saving never replaces a checkpoint that covers more blocks, unless it is the very one this read found unusable |
| `HistoryScan.ReadCoreHistory` | frontend/testnet/coreHistory.ts:46-73 | prefix, start block and log list accumulated as in the source compute `Read` |
| `Envelope.RoundTrip` | frontend/testnet/chainClient.ts:37-59 | every reason that can be appended is read back normalized for every call data, given its hash in either letter case, and for no other hash |
| `Envelope.DecodesExactly` | frontend/testnet/chainClient.ts:47-59 | exactly the data that end in the envelope of a normalized text with the given hash decode, and they decode to it, whatever prefix and text contain |
| `Envelope.AppendInjective` | frontend/testnet/chainClient.ts:43-46 | the appended data determine call data and normalized reason |
| `Envelope.NormalizeTwice` | frontend/testnet/chainClient.ts:37-41 | normalizing twice is normalizing once |
| `Envelope.NormalExactly` | frontend/testnet/chainClient.ts:37-41 | a reason is accepted exactly when, without the white space at both ends, it has 1 to 1000 code units and at most 4000 bytes of UTF-8; and that is its normal form |
| `Envelope.AppendedParts` | frontend/testnet/chainClient.ts:42-46 | behind the call data stand magic, text, four bytes of length, magic, in this order |
| `Envelope.BigEndianValue` | frontend/testnet/chainClient.ts:45 | the length is written most significant byte first |
| `Text.TrimExact` | frontend/testnet/chainClient.ts:38 | trimming removes all white space at both ends and nothing else |
| `Envelope.BigEndianRoundTrip` | frontend/testnet/chainClient.ts:45-51 | four big-endian bytes and the length they stand for determine each other |
| `LifecycleCurve.ExitProtected` | frontend/components/marketLifecycleModel.ts:51-53 | while slope times weight is at most one, every reduction of holdings is worth at least as much on the LMSR curve as on the Genesis curves |
| `LifecycleCurve.CostIsLog` | frontend/components/marketLifecycleModel.ts:37-40 | the max-based cost is depth times the logarithm of the joint weight |
| `LifecycleCurve.QuantityExact` | frontend/components/marketLifecycleModel.ts:54-60 | a Formal buy always has a quantity, positive, that raises the cost by exactly what is paid in |
| `LifecycleCurve.BuyExact` | frontend/components/marketLifecycleModel.ts:114-118 | a Genesis buy raises its side's potential by exactly nine tenths of the payment |
| `LifecycleCurve.EligibleNeedsCapital` | frontend/components/marketLifecycleModel.ts:48-50 | a market that may graduate has contributed capital beyond what its curves hold |
| `LifecycleRuns.GraduatingSaleNeverPaysLess` | frontend/components/marketLifecycleModel.ts:158-176 | a sale that graduates midway pays at least what the Genesis curve alone would pay for it, any other sale exactly that |
| `LifecycleRuns.SellEligibleFurther` | frontend/components/marketLifecycleModel.ts:159 | once the graduation conditions hold at some point of a sale they hold at every later point |
| `LifecycleRuns.SaleStopsAtFirstGate` | frontend/components/marketLifecycleModel.ts:160-167 | a graduating sale leaves Genesis within 2^-60 of the order of the first point at which it could |
| `LifecycleGate.BuyEligibleFurther` | frontend/components/marketLifecycleModel.ts:119-130 | in a market that has not passed the gate, the conditions once met along a buy are met by every larger payment inside the protected range |
| `LifecycleGate.BuyStopsAtFirstGate` | frontend/components/marketLifecycleModel.ts:119-130 | if any payment within an order meets the conditions inside the range searched, the order graduates, and pays in Genesis at most 2^-60 of that range more than the smallest such payment |
| `LifecycleGate.NewMarketNotPassed` | frontend/components/marketLifecycleModel.ts:102-186 | no run leaves a market in Genesis that could have graduated, except within the last 10^-12 of the protected range that the search leaves out |
| `LifecycleRuns.SurplusKept` | frontend/components/marketLifecycleModel.ts:75-80 | over any run of a graduated market, until it is resolved, trading and waiting for the result alike: the surplus stays what it was at graduation, is never negative, and is exactly what the reserve holds beyond the cost of the position reached |
| `LifecycleRuns.NewMarketSafe` | frontend/components/marketLifecycleModel.ts:228-235 | from a new market of any depth, after any requests the ledger holds, the money is exactly 30000, and no request meets MODEL_STATE, GRADUATION or QUOTE_LIMIT |
| `LifecycleRuns.RunSafe` | frontend/components/marketLifecycleModel.ts:102-227 | every run keeps the invariant, for any number of traders |
| `LifecycleRuns.StepSafe` | frontend/components/marketLifecycleModel.ts:102-227 | one request keeps it or is refused for a reason of the caller's |
| `LifecycleRuns.SettledDue` | frontend/components/marketLifecycleModel.ts:187-199 | a resolved market hands out exactly the debt to shares and all the rest to contributors |
| `LifecycleTerms.ResultPays` | frontend/components/marketLifecycleModel.ts:187-217 | a published result pays each trader the YES shares under YES, the NO shares under NO, half of both under INVALID, the contributors the rest of the reserve in proportion, and everybody the rewards earned |
| `LifecycleTerms.TimePasses` | frontend/components/marketLifecycleModel.ts:200-211 | an open market stops exactly at its deadline: Genesis fails and refunds pool and contributions in proportion, Formal trading waits for the result |
| `LifecycleTerms.MarketHours` | frontend/components/marketLifecycleModel.ts:82-88 | whatever is requested of a new market, it is open before second 300 and closed from then on |
| `LifecycleTerms.CollectPays` | frontend/components/marketLifecycleModel.ts:218-227 | collecting pays a trader's three parts once, out of reserve and capital fees, and touches nobody else |
| `LifecycleTerms.BuyDivides` | frontend/components/marketLifecycleModel.ts:109-141 | a buy puts 99% into the reserve; in Genesis 9% of it is credited as capital and the fee is the protocol's, afterwards the fee is split 70:20:10 between Core, contributors by contribution, and the protocol |
| `LifecycleTerms.SellDivides` | frontend/components/marketLifecycleModel.ts:142-177 | a sale pays 99% of what leaves the reserve; of the fee the part sold in Genesis is the protocol's and the part sold after graduating midway is split 70:20:10 |
| `LifecycleTerms.BuyAtPrice` | frontend/components/marketLifecycleModel.ts:109-130 | nine tenths of a Genesis payment are 0.009 b (exp(q'/b) - exp(q/b)), 99% of a Formal one the rise of b ln(exp(yes/b) + exp(no/b)); a graduating order leaves the reserve at that cost or above and 0.009 times the weight at one or below |
| `LifecycleTerms.SaleAtPrice` | frontend/components/marketLifecycleModel.ts:142-177 | what leaves the reserve in a sale on one curve is exactly the fall of that curve, in the same explicit terms |
| `LifecycleTerms.ResultAddsUp` | frontend/components/marketLifecycleModel.ts:228-235 | from any market, good books or not, an order or a claim returns only one whose money is 30000 and whose reserve fits the curve of the phase |
| `LifecycleTerms.AcceptedExactly` | frontend/components/marketLifecycleModel.ts:102-227 | in every reachable state a request succeeds exactly when its requester has what it asks to spend, sell or collect, and phase and clock allow it |
| `LifecycleTerms.RefusalTrue` | frontend/components/marketLifecycleModel.ts:102-227 | in every reachable state the error a request is refused with is true of it |
| `LifecycleRuns.FailedDue` | frontend/components/marketLifecycleModel.ts:187-199 | a failed market hands out exactly its pool and its contributed capital |
| `LifecycleRuns.PaidOutCompletely` | frontend/components/marketLifecycleModel.ts:218-227 | once everybody has collected, reserve and capital fees are exactly empty |
| `LifecycleSafe.FormalCharge` | frontend/components/marketLifecycleModel.ts:68-74 | with contributed capital a Formal fee can always be charged, and exactly the fee is added to the books |
| `LifecycleActions.PlaceOrder` | frontend/components/marketLifecycleModel.ts:102-186 | the order in the source's steps is `Trade` |
| `LifecycleActions.FindGate` | frontend/components/marketLifecycleModel.ts:124-129 | the 60-step loop is `Gate` |
| `LifecycleActions.Buy` | frontend/components/marketLifecycleModel.ts:109-141 | the buy branch in place |
| `LifecycleActions.Sell` | frontend/components/marketLifecycleModel.ts:142-177 | the sell branch in place |
| `LifecycleActions.CollectPayout` | frontend/components/marketLifecycleModel.ts:218-227 | collecting in place |
| `LifecycleActions.Clone.Charge` | frontend/components/marketLifecycleModel.ts:68-74 | the fee in place, with its loop over contributors |
| `IntentConclusions.ConcludesByChain` | frontend/admin.tsx:924-1073 | on every run, with late broadcasts, timeouts, reloads, reorganizations and lagging views, a recovery concludes only when its intent's nonce is spent on the finalized chain, and by the transaction that spent it: a successful creation, its own or another, closes the intent; the failure of its own marks it reverted and clearable; anything else makes it clearable |
| `IntentConclusions.RevertedIsFinal` | frontend/admin.tsx:1057-1062 | on every run an intent is stored as reverted only if its own creation has failed on the finalized chain |
| `IntentConclusions.StageTellsHash` | frontend/admin.tsx:966-987 | on every run the stored intent awaits its signature exactly as long as no transaction of it is known |
| `IntentConclusions.CarefulConclusions` | frontend/admin.tsx:819-825 | if nothing is submitted while a recovery is in flight, recoveries are about the stored intent: a conclusion closes it if and only if its nonce created a market, and it is clearable only if its nonce is gone for good without one |
| `IntentConclusions.EitherViewSuffices` | frontend/admin.tsx:1029-1056 | on every run a conclusion rests on a block in the finalized chain of each view, so either alone suffices to vouch for it |
| `IntentConclusions.RetriesOnlyUntaken` | frontend/admin.tsx:832-851 | on every run a retry is offered and sent only while nothing has taken the nonce as far as both views can tell, and asks for the very nonce and call data of the submission |
| `IntentSafety.AtMostOneLands` | frontend/admin.tsx:1082-1165 | however often an intent is retried and however late its signatures are broadcast, a chain holds at most one of its transactions, at its nonce |
| `IntentSafety.CanonicalFinal` | frontend/admin.tsx:1029-1056 | a block both views have finalized and still show at its height is finalized |
| `IntentClosing.SafeExactlyWithoutInterference` | frontend/admin.tsx:819-1080 | submitting with an unspent nonce leaves every later disciplined run without a late landing of a closed intent if and only if no recovery in flight interferes: none that is still to locate its transaction, and none whose receipt can yet become final without the new nonce being spent |
| `IntentClosing.GuardIsExact` | frontend/admin.tsx:819-825 | so the check for a recovery in flight is exactly right, unless that recovery holds a receipt whose block is orphaned or spends the new nonce too |
| `IntentClosing.ClosedNeverLandsLate` | frontend/admin.tsx:1174-1246 | on a run that never submits while a recovery interferes, a transaction of an intent no longer stored is on a chain only if it is already finalized |
| `IntentClosing.OneSubmissionOpen` | frontend/admin.tsx:1174-1263 | on such runs at most one submission, the stored one, can still create a market |
| `IntentClosing.StaleRecoveryRun` | frontend/admin.tsx:819-825 | a run in which a recovery started for a rejected intent offers to clear the next one, whose nonce is free |
| `IntentClosing.StaleRecoveryLetsTwoLand` | frontend/admin.tsx:966-982 | and two submissions of the same market both land |
## Left out

- IEEE-754 rounding and overflow, the tolerance EPS, and errors that only rounding can cause: amounts are exact reals and EPS is 0.
- Not-a-number and infinite arguments: every amount is a real number, so finiteness checks have nothing to reject.
- Divisions by zero that JavaScript turns into infinities: they are guarded in the model (a Genesis buy with k = 0, a Core payout over an empty base); no reachable state meets them.
- Arguments of the wrong type, such as a fee kind or a trade mode that does not exist.
- The activity log and its 200-event limit, account names, prices, averages, claim previews and other display fields.
- The disabled entry points for adding and withdrawing liquidity, the preset scenarios, and the maximum-buy helpers.
- The optional fields that older saved states may lack (`early`, `initialCapital`, `bondRefund`): they are always present.
- `RouteStockDemo`: the routed action is any function from states to results; exceptions other than its own errors are not distinguished.
- `ProtocolFeeAttribution`: exact numbers instead of big integers; the formula only adds and subtracts.
- `FindTimestampRange`: the provider is a function of the block number, so a provider that fails or changes its answer between two reads of one block is left out; the cache reads each block once.
- `QuoteFormalBuyBudget`: the TINY branch inside the bisection is kept but cannot be taken with exact amounts.
- `BudgetForGenesisShares`: amounts are unsigned as on the chain; reading them by RPC and checking the contract's own quote are left out.
- `IntentProtocol`: one page in one tab; a second tab with the same storage, the text checks of the form, balances, gas, receipt fields beyond sender, nonce, call data and status, and index paging are left out; the page's checks of a created market are the possibility that a recovery stops instead of concluding. That a creation is eventually possible again is not proved.
- `HistoryScan.Read`: a reorganization that begins and ends within one read, the format checks of cached hashes, the check of the factory's origin record, request chunking and retries are left out.
- `CoreHistory.Replay`: events arrive decoded, and addresses are compared as numbers, not as text in mixed case.
- `Envelope.DecodeReason`: data are bytes, not hex text; UTF-8 is any encoding that decoding inverts exactly, and the text hash is opaque.
- `LifecycleActions.PlaceOrder`: the frozen snapshot for display and the event list are left out; deposits into the separate vault appear only as a constant amount of money.
- `frontend/components/homepageSimulationModel.ts`: a display simulation that puts a Core vault beside the lifecycle market; its stake, fee and majority rules are those of the topic market, without exits, requests or an official share.
- `frontend/testnet/exchangeQuote.ts`, the rest of `chainClient.ts` and the token approval flow: calls to quoters and contracts outside the front end, with checks of who answers.
- The paper server and the Solidity contracts: programs outside the front end, not part of this model. Charts and translations: display only.
