# SushiSwap MasterChefV2 farms: a Dafny model of the subgraph's farm accounting

The SimpleFi SushiSwap-farms subgraph indexes MasterChefV2 staking pools ("farms"). Its event
handlers keep an entity store up to date:

- a `UserInfo` per (account, pool): the staked LP amount and the reward debt;
- `FarmDeposit` and `FarmWithdrawal` audit rows;
- `SushiFarmSnapshot` rows, taken before each pool update;
- the farm's accrual index `accSushiPerShare`, fixed-point with scale 10^12;
- reward-token `Transfer`s, buffered per transaction until the `Withdraw` or `Harvest` of that
  transaction consumes them.

Each position change is handed to a market-accounting library. For that it reports the
claimable SUSHI, amount * accSushiPerShare / 10^12 rounded toward zero, less rewardDebt, together with the extra
reward tokens of the pool's rewarder.

The model has these modules:

- `Entities` (entities.dfy): entity and event records. Hex-string ids become tuples of abstract
  keys.
- `Ledger` (ledger.dfy): the position arithmetic.
  - Credit, Debit and Settle on a `UserInfo`.
  - Claimable SUSHI, using the BigInt division, which truncates toward zero. Dafny's `/` is
    Euclidean, so `TruncDiv` writes the truncation out.
  - Round trips, and how claimable SUSHI behaves under deposits, withdrawals and a rising index.
- `Correlator` (correlator.dfy): buffered reward transfers.
  - The Harvest gate `isThereUnprocessedRewardTransfer`.
  - The drain `getHarvestedRewards`: which transfers it consumes, which claims it reports, and in
    what order.
- `Rewards` (rewards.dfy): the reward-token list of a farm's market, registration of newly seen
  reward tokens, and the claimable balances reported for them.
- `Mappings` (mappings.dfy): the entity store as the class `Subgraph`, with one map field per
  entity type. Every handler and helper is a method that changes exactly the fields it names.
  - Each method's `ensures` gives the new store and the returned report in terms of the functions
    above, for every branch, including the aborting ones.
  - The invariant `Valid` is kept by every handler. It says that every market lists its
    MasterChef's SUSHI first, and that a reward-token data source is started at most once per
    token.
- `Scenarios` (scenarios.dfy): handlers run in sequence on one store.
- `Findings` (findings.dfy): the Harvest report discrepancy (see "## Findings").

Several things outside the handlers become plain values:

- Contract reads are parameters: `SUSHI()` is `sushi`, and the two `try_pendingTokens` calls are
  `discovered` and `pending`. A reverted call is `None`.
- The market library's `investInMarket`, `redeemFromMarket` and `updateMarket` calls are returned
  as `Report` values, not performed.
- Starting a `RewardToken` data source appends the token to `rewardTokenSources`.

A handler aborts where the code loads an entity, gets nothing back, and then reads one of its
fields. The indexer keeps none of that handler's writes. The model returns
`Failure(fault)` and leaves the store unchanged. It checks each fault in the order the code would
hit it.

The code makes none of the following checks, and the model follows the code:

- A `Withdraw` or `Harvest` with no `UserInfo` for the account creates a zero one, as
  getOrCreateUserInfo does. Such an event is not fatal. Only the EmergencyWithdraw report path
  aborts, and only when the withdrawing user has no `UserInfo` and is not the receiver.
- Nothing keeps a staked amount nonnegative. A withdrawal larger than the stake makes
  `UserInfo.amount` negative, which is why `Claimable` uses truncating division.
- A buffered reward transfer that no Withdraw or Harvest consumes simply stays in the store.

## Model

| member | source | states |
|---|---|---|
| `Ledger.TruncDiv` | simplefi-sushiswap-farms/src/mappings/mappings.ts:589-592 | BigInt division truncates toward zero: for a nonnegative dividend the quotient is the floor, for a negative one it is the ceiling |
| `Ledger.RewardShare` | simplefi-sushiswap-farms/src/mappings/mappings.ts:150-152 | the reward debt added for `delta` LP tokens at index `acc` is floor(delta·acc / 10^12), bracketed from both sides |
| `Ledger.Credit` | simplefi-sushiswap-farms/src/mappings/mappings.ts:149-152 | a deposit grows the stake by the amount and the reward debt by floor(amount·acc/10^12), characterised by its bounds |
| `Ledger.Debit` | simplefi-sushiswap-farms/src/mappings/mappings.ts:228-231 | a withdrawal shrinks the stake by the amount and the reward debt by floor(amount·acc/10^12), with no floor on the stake |
| `Ledger.Settle` | simplefi-sushiswap-farms/src/mappings/mappings.ts:381 | a harvest keeps the stake and lowers the claimable SUSHI by exactly the harvested amount, at every index |
| `Ledger.Claimable` | simplefi-sushiswap-farms/src/mappings/mappings.ts:589-592 | claimable SUSHI plus the debt is amount·acc/10^12 rounded down for a nonnegative stake and rounded toward zero (up) for a negative one |
| `Ledger.DebitUndoesCredit` | simplefi-sushiswap-farms/src/mappings/mappings.ts:147-153 | a withdrawal of what was just deposited, at the same index, restores both amount and reward debt exactly |
| `Ledger.CreditUndoesDebit` | simplefi-sushiswap-farms/src/mappings/mappings.ts:226-232 | a deposit of what was just withdrawn, at the same index, restores the position exactly |
| `Ledger.CreditKeepsClaimable` | simplefi-sushiswap-farms/src/mappings/mappings.ts:147-153 | for a nonnegative stake, a deposit changes the claimable SUSHI by at most one unit, and never lowers it |
| `Ledger.DebitKeepsClaimable` | simplefi-sushiswap-farms/src/mappings/mappings.ts:226-232 | a withdrawal the stake covers changes the claimable SUSHI by at most one unit, and never raises it |
| `Ledger.SettleClearsClaimable` | simplefi-sushiswap-farms/src/mappings/mappings.ts:379-382 | harvesting exactly the claimable SUSHI (rewardDebt += amount) leaves zero claimable |
| `Ledger.ClaimableGrowsWithIndex` | simplefi-sushiswap-farms/src/mappings/mappings.ts:441-445 | for a nonnegative stake, raising accSushiPerShare never lowers the claimable SUSHI |
| `Ledger.FloorOfSum` | simplefi-sushiswap-farms/src/mappings/mappings.ts:49 | with the precision 10^12: floor(x/P) + floor(y/P) ≤ floor((x+y)/P) ≤ floor(x/P) + floor(y/P) + 1 |
| `Ledger.ReplayIsSignedSum` | simplefi-sushiswap-farms/src/mappings/mappings.ts:125-276 | any sequence of deposits and withdrawals, each at the accrual index current when it happens, leaves the amount at the signed sum of the amounts and the debt at the signed sum of the shares, each floored at its own index |
| `Ledger.ReplayKeepsClaimable` | simplefi-sushiswap-farms/src/mappings/mappings.ts:147-232 | at a fixed index, a sequence of n stake changes that never overdraws keeps the stake nonnegative and the claimable SUSHI within n units of where it started |
| `Ledger.ReplayKeepsAccrued` | simplefi-sushiswap-farms/src/mappings/mappings.ts:441-445 | while the index only rises (pool updates between the changes), n deposits and withdrawals that never overdraw leave at least the claimable SUSHI there was at the start, less n units of rounding, at any later index |
| `Correlator.ExtraPendingFrom` | simplefi-sushiswap-farms/src/mappings/mappings.ts:677-688 | true exactly when some rewardTokens[j], j ≥ i, has a buffered extra transfer in the transaction (both directions) |
| `Correlator.IsThereUnprocessedRewardTransfer` | simplefi-sushiswap-farms/src/mappings/mappings.ts:669-691 | the Harvest gate holds exactly when a SUSHI transfer of the transaction is buffered or an extra transfer for a reward token at index ≥ 1 is (both directions) |
| `Correlator.FirstIndex` | simplefi-sushiswap-farms/src/mappings/mappings.ts:644-646 | the first position at or after i where a token occurs in the reward-token list |
| `Correlator.DrainExtras` | simplefi-sushiswap-farms/src/mappings/mappings.ts:642-659 | the extras loop deletes exactly the keys (tx, rewardTokens[j]) for j ≥ i and leaves every other buffered transfer |
| `Correlator.DrainExtrasClaims` | simplefi-sushiswap-farms/src/mappings/mappings.ts:642-659 | the extras loop claims exactly the buffered transfers of the transaction for the listed tokens (sound and complete), each under its own token and receiver |
| `Correlator.DrainExtrasInListOrder` | simplefi-sushiswap-farms/src/mappings/mappings.ts:644-658 | the claims come in reward-token list order (strictly increasing first positions), so a token listed twice is claimed once |
| `Correlator.Drain` | simplefi-sushiswap-farms/src/mappings/mappings.ts:622-660 | getHarvestedRewards removes the SUSHI transfer of the transaction and its extra transfers for rewardTokens[1..]; the SUSHI claim, under rewardTokens[0] with the transfer's receiver and value, comes first when there is one |
| `Correlator.DrainLeavesNothingPending` | simplefi-sushiswap-farms/src/mappings/mappings.ts:636-639 | after a drain the Harvest gate of the same transaction and market is false |
| `Correlator.DrainExtrasWithNothingPending` | simplefi-sushiswap-farms/src/mappings/mappings.ts:648-651 | with nothing buffered for the listed tokens, the extras loop changes nothing and claims nothing |
| `Correlator.DrainWithNothingPending` | simplefi-sushiswap-farms/src/mappings/mappings.ts:622-660 | when the gate is false a drain is the identity and reports no claims |
| `Correlator.DrainKeepsOtherTransactions` | simplefi-sushiswap-farms/src/mappings/mappings.ts:639-658 | a drain never touches buffered transfers of another transaction |
| `Rewards.Register` | simplefi-sushiswap-farms/src/mappings/mappings.ts:535-543 | a token becomes a Token; a data source is appended for it exactly when it was no Token yet, so no token gets two |
| `Rewards.RegisterAll` | simplefi-sushiswap-farms/src/mappings/mappings.ts:533-545 | old data sources are kept as a prefix, with at most as many new ones as there are listed tokens (the full facts are `Rewards.RegisterAllFacts`) |
| `Rewards.RegisterAllFacts` | simplefi-sushiswap-farms/src/mappings/mappings.ts:533-545 | after registering the extra tokens all are Tokens; the data sources started are exactly the listed tokens that were not Tokens yet, appended to the old ones; no token gets two data sources |
| `Rewards.RewardTokenBalances` | simplefi-sushiswap-farms/src/mappings/mappings.ts:585-611 | the claimable balances: SUSHI first under rewardTokens[0] with the claimable amount, then one per (token, amount) the rewarder reports (none on a revert), all under the account |
| `Mappings.NewFarm` | simplefi-sushiswap-farms/src/mappings/mappings.ts:85-97 | the new farm belongs to the emitting MasterChef, has the event's LP token, rewarder and allocation, starts at the event's block with zero supply, and a first deposit into it carries no reward debt |
| `Mappings.Subgraph.GetOrCreateUserInfo` | simplefi-sushiswap-farms/src/mappings/mappings.ts:556-570 | returns the stored UserInfo of (user, pid), or stores and returns a zero one; no other UserInfo changes |
| `Mappings.Subgraph.GetHarvestedRewards` | simplefi-sushiswap-farms/src/mappings/mappings.ts:622-660 | the loop leaves the buffers and the claims exactly as `Correlator.Drain` describes |
| `Mappings.Subgraph.CollectRewardTokenBalances` | simplefi-sushiswap-farms/src/mappings/mappings.ts:579-612 | aborts when the account has no UserInfo; otherwise SUSHI first, under rewardTokens[0], with the truncated claimable amount, then one balance per (token, amount) the rewarder reports, none when its call reverts |
| `Mappings.Subgraph.GetRewardTokens` | simplefi-sushiswap-farms/src/mappings/mappings.ts:519-548 | the list is the MasterChef's SUSHI followed by the rewarder's extra tokens in order (none when the call reverts); tokens and data sources are updated as `Rewards.RegisterAll` computes them, whose properties `Rewards.RegisterAllFacts` proves |
| `Mappings.Subgraph.HandleLogPoolAddition` | simplefi-sushiswap-farms/src/mappings/mappings.ts:55-117 | the MasterChef is created with its SUSHI only on its first pool; the rewarder is recorded; the farm under pid is a new one with zero supply and index; the Market is created with a SUSHI-first list only if absent; the store invariant is kept |
| `Mappings.Subgraph.HandleDeposit` | simplefi-sushiswap-farms/src/mappings/mappings.ts:125-196 | aborts without a farm; a zero amount writes only the audit row; otherwise the receiver's UserInfo gets amount + delta and debt + floor(delta·acc/10^12), and the investment report carries the new LP balance and claimable balances; nothing else changes |
| `Mappings.Subgraph.HandleWithdraw` | simplefi-sushiswap-farms/src/mappings/mappings.ts:204-276 | aborts without a farm; a zero amount writes only the audit row; otherwise the user's UserInfo is debited, the transaction's buffered reward transfers are drained into the report's claimed amounts, and the LP amounts go to the receiver |
| `Mappings.Subgraph.HandleEmergencyWithdraw` | simplefi-sushiswap-farms/src/mappings/mappings.ts:284-353 | a zero amount writes only the audit row; otherwise the receiver's UserInfo is reset to zero and no rewards are claimed; the report's claimable balances are the user's, so a user other than the receiver without a UserInfo aborts the handler |
| `Mappings.Subgraph.HandleHarvest` | simplefi-sushiswap-farms/src/mappings/mappings.ts:361-419 | gate false or amount zero (checked in that order) changes nothing; otherwise the harvester's reward debt grows by the amount, the buffered transfers are drained into the claims, and the LP balance is reported under the harvester (corrected; see ## Findings) |
| `Mappings.Subgraph.HandleLogUpdatePool` | simplefi-sushiswap-farms/src/mappings/mappings.ts:425-456 | a snapshot of the allocation and supply as they were is stored under (tx, logIndex); then lastRewardBlock, totalSupply and accSushiPerShare take the event's values; the market update reports the MasterChef's LP holding as the new supply |
| `Mappings.Subgraph.HandleLogSetPool` | simplefi-sushiswap-farms/src/mappings/mappings.ts:462-471 | the allocation point is set; the rewarder changes only when `overwrite` is set; every other farm field and farm stays |
| `Mappings.Subgraph.HandleRewardTokenTransfer` | simplefi-sushiswap-farms/src/mappings/mappings.ts:477-510 | a MasterChef's own SUSHI sent by that MasterChef is buffered under the transaction (taking precedence); otherwise a transfer from a known rewarder is buffered under (transaction, token); anything else changes nothing |
| `Scenarios.DepositThenWithdraw` | simplefi-sushiswap-farms/src/mappings/mappings.ts:147-232 | a deposit followed by the receiver withdrawing the same amount at the same index leaves every position as it was, and reports the original LP balance |
| `Scenarios.WithdrawThenHarvest` | simplefi-sushiswap-farms/src/mappings/mappings.ts:366-372 | a Harvest right after the Withdraw of the same transaction and market reports nothing and changes nothing: the Withdraw's reward claims are not reported a second time |
| `Findings.AsWrittenHarvestHolderIsNoAccount` | simplefi-sushiswap-farms/src/mappings/mappings.ts:401 | as written, the Harvest LP entry is credited to the UserInfo id, which is no account and never the entry's own account |
| `Findings.HarvestCreditsTheHarvester` | simplefi-sushiswap-farms/src/mappings/mappings.ts:399-401 | the corrected Harvest report's LP entry has the farm's LP token and the harvester's stake, as the as-written one, but is credited to the harvester |

## Left out

- Accounts (`getOrCreateAccount`) are not modelled: they only create an Account entity per address. The model uses the address itself.
- Hex-string ids, and the string concatenations that build them, are not modelled. They are replaced by tuples of keys, which are injective by construction.
- The market-accounting library (`investInMarket`, `redeemFromMarket`, `updateMarket`, the Market's fields other than its reward-token list, Positions) is not part of this model. Its calls are returned as `Report` values.
- `getOrCreateMarketWithId` is modelled only as inserting the reward-token list if no Market with that id exists.
- `getOrCreateERC20Token` is modelled only as adding the token to `tokens`. Token metadata reads (name, symbol, decimals) are left out.
- Contract calls (`SUSHI()`, `try_pendingTokens`) are inputs. Because of that, the model does not relate what a rewarder reports at different times.
- Mappings.Subgraph.CollectRewardTokenBalances: the rewarder's answer is taken as (token, amount) pairs. The case where the amounts array is shorter than the tokens array is not modelled (the code would then index past the end).
- Mappings.Subgraph.HandleLogUpdatePool: what `updateMarket` does when the Market is missing belongs to the library and is not modelled. The handler's report is returned either way.
- The data-source template mechanism is modelled as the ordered list `rewardTokenSources`. The Transfer events a data source then delivers are inputs to `HandleRewardTokenTransfer`.
- A failing handler is modelled as atomic (no writes kept). Partial writes before the abort are not observable in the indexer, so they are not modelled.
- Scenarios.WithdrawThenHarvest: on the Withdraw-then-Harvest path, handleHarvest returns at mappings.ts:370-372 before the reward-debt increment at line 381, and handleWithdraw (lines 228-231) adds nothing in its place. The SUSHI paid out therefore never enters `rewardDebt`, and every later claimable-SUSHI balance stays overstated by the harvested amount. The model reproduces this as written and does not correct it.
- The aave-v2 and compound subgraphs in the same repository are not part of this model.
- Entity fields that only point back to their owner (`UserInfo.user`, `UserInfo.farm`) are implied by the keys and not stored.

## Findings

| source | as written | input that shows it | evidently intended | confidence | as-written member | corrected member |
|---|---|---|---|---|---|---|
| simplefi-sushiswap-farms/src/mappings/mappings.ts:401 | handleHarvest reports the LP balance as `TokenBalance(lpToken, userInfo.id, amount)`, where `userInfo.id` is `"<account>-<pid>"` | any Harvest with a nonzero amount and a buffered reward transfer of its transaction | the harvester's account id, as Deposit, Withdraw and EmergencyWithdraw use for the same entry | medium, not executed | `Findings.AsWrittenHarvestHolderIsNoAccount` | `Mappings.Subgraph.HandleHarvest` |
