# Five on-chain ledgers, modelled and proved

This project models five CosmWasm contracts of the repository and proves what they promise over every
run: the constant-product pool (`fanfuryswap`), the staking contract with its clubs, bonds and reward
rounds (`clubstaking`), the bonding contract with its daily cap (`fanfurybonding`), the gaming pool
(`gamingpool`), and the token behind the pool's shares (`cw20-base`).

Every contract is there twice. A *specification* is a function from a storage and a message to a new
storage or an error (`Exec`), with `Run` for a list of messages; an error leaves the storage as it was,
as the host's rollback does. A *class* has the contract's storage items as fields, updates them step by
step in the order and with the loops of the source, and every one of its entry points is proved to do
exactly what the specification says (`Commits`). The laws are then lemmas about `Exec` and `Run`, for
all storages, messages and runs. Beside the laws of whole runs there are the terms of single messages
(`Cw20Accounts`, `SwapTerms`, `BondingTerms`, `GamingCourse`, `GamingAwards`, `ClubPayments`, `ClubTerms`): what
an accepted message does to each field, with both bounds of every rounding, and exactly when it is accepted.
They speak of the storage before and after a message and not of the functions the specification is made of.

| contract | specification and class | laws |
|---|---|---|
| cw20-base | `Cw20Token` | `Cw20Laws`, `Cw20Accounts` |
| fanfuryswap | `SwapPool` | `SwapLaws`, `SwapTerms` |
| fanfurybonding | `BondingVault` | `BondingLaws`, `BondingTerms` |
| gamingpool | `GamingPool` | `GamingLaws`, `GamingClaims`, `GamingCourse`, `GamingAwards`, `GamingTurns` |
| clubstaking | `ClubStaking`, `ClubContract` | `ClubWinners`, `ClubBonds`, `ClubOwners`, `ClubDistribution`, `ClubLedger`, `ClubSchedule`, `ClubRewards`, `ClubWeights`, `ClubRounds`, `ClubOutcome`, `ClubFairRounds`, `ClubRepeats`, `ClubPot`, `ClubPayments`, `ClubTerms` |

`Chain` holds what all contracts take from the chain, `Sums` the laws of sums over maps and sequences,
`KeyOrder` the ascending key order of storage iteration and the decimal pool names, `Nonlinear` two facts
about products.

Conventions: `Uint128` is a `nat` whose `+ - *` abort outside 128 bits, while `checked_*` with
`unwrap_or_default` yields 0; the `u64` and `i128` operations are taken to abort on overflow as well (the
release profile in contracts/fanfuryswap/Cargo.toml asks for overflow checks). Casts from `u128` to `i128` wrap. Time is a `nat` that comes with each
message. What a contract learns from outside while it handles a message is part of the message: whether
the attached coins pass the fee check, the answers of price queries, and whether the messages it sends to
other contracts all succeed (`delivered`, and `received` for the tokens a Send hands over). Addresses are values that can only be compared.

## What the code does not promise

Where a natural property fails, the code is modelled as it is, a lemma gives an input on which the
property fails, and another lemma says under which condition it holds.

- **Stranded reserves.** Burning the last LP tokens at the token contract instead of redeeming them at the
  pool leaves reserves that nobody owns (`SwapLaws.BurningTheLastSharesStrandsReserves`). A message keeps
  "no shares, no reserves" exactly when it is neither a burn of as many tokens as there are shares nor a
  donation to a pool without shares (`SwapLaws.BackedExactlyUnlessStranded`).
- **Overspent rounds.** A top-up that switches auto-stake on adds the pending reward to the stake but not to
  the club's total. After one such top-up a round of one batch gives 9506 out of a reward of 100
  (`ClubFairRounds.CompoundingCanOverspend`). What a complete round gives is the reward times
  (78 staked/total + 19 winners' stakes/(winners x largest) + 3)/100, short of it by rounding at most
  (`ClubOutcome.CompleteRoundGivesItsShare`): so it overspends whenever that exceeds the reward by more than
  rounding (`ClubOutcome.CompleteRoundOverspends`), and no round does when the first two terms stay within
  97 (`ClubOutcome.RoundNeverOverspends`), as they do when stakes are within the totals
  (`ClubOutcome.RoundStaysWithinWeights`).
- **Smaller winners.** In the winner loop the largest stake is assigned before it is compared, so the branch
  that would drop earlier, smaller winners never runs: a storage in which a club with 11 wins beside one
  with 21 is in `ClubWinners.ATieCanLeaveASmallerWinner`. All winners hold the winning stake exactly when no
  club that grew most holds more than the first of them
  (`ClubWinners.WinnersAreEqualExactlyWhenTheFirstIsLargest`). Smaller winners leave their part of the 19%
  undistributed (`ClubOutcome.SmallerWinnersLeaveTheirPart`).
- **Stakes that vanish.** A run in which a second listing within one window takes a stake and its pending
  reward away is in `ClubRepeats.ASecondListingCanLoseAStake`. A batch drops nothing exactly when every
  stake it lists is due and it comes, if it lists somebody again, in the moment of the reward time or a
  whole period after it (`ClubRepeats.MessageDropsNothingExactlyWhen`); a run loses nothing exactly when
  each of its batches is such (`ClubRepeats.RunLosesNothingExactlyWhen`). Listing nobody twice between final
  batches is enough (`ClubSchedule.NoDueStakeIsLost`).
- **The carry-over is not spent.** A run in which three bonds take six daily amounts in four active days, and
  leave the carry-over at one, is in `BondingLaws.CarryOverIsNotSpent`. The carry-over is the unspent budget
  exactly when no earlier day took more than the daily amount
  (`BondingLaws.CarryOverIsTheUnspentBudgetExactlyWhen`).
- **Blocked refunds.** A run after which the query shows a gamer a refund that is refused for good is in
  `GamingClaims.ARefundCanBeShownAndBlocked`. A shown refund is refused exactly when a team of the gamer in a
  refundable pool was refunded before (`GamingLaws.RefundsShownAreClaimableUnlessBlocked`), and once the game
  is cancelled this never changes (`GamingClaims.BlockedRefundsAreRefusedForGood`).
- **Completed games.** A game that is completed cannot be cancelled until another distribution is accepted
  (`GamingCourse.CompletedGamesAreNotCancelled`), but a distribution that is not final, of another pool, opens
  the way: a run that ends with a cancelled game in which a pool with rewards is refundable is in
  `GamingTurns.ACompletedGameCanBeCancelled`. A message undoes completion exactly when it is such a
  distribution (`GamingTurns.CompletionIsUndoneExactlyBy`).
- **Retyped pools.** A bid stores the type it names as the type of its pool, so a gamer may end up with more
  teams than the pool's type allows: a run is in `GamingTurns.ABidCanRetypeAPool`. After a bid all gamers are
  within the limit exactly when all others were within that of the named type before
  (`GamingTurns.BidsKeepTheGamerLimitExactlyWhen`); bids that name the type their pool has keep everybody
  within it (`GamingTurns.GamersStayWithinTheirLimits`).
- **Claims of staking rewards** write back the list they have read: no claim, on any input, changes the
  ledger (`ClubLedger.ClaimsChangeNothing`).

## Model

| member | source | states |
|---|---|---|
| Cw20Token.Token.Instantiate | contracts/cw20-base/src/contract.rs:95-157 | An accepted instantiation opens exactly the listed balances with their sum as the supply; duplicates, an overflow or a supply above the cap leave the token unset |
| Cw20Token.Token.MoveBalance | contracts/cw20-base/src/contract.rs:252-263 | The sender loses and the recipient gains the amount, one after the other, so that a self-transfer changes nothing; otherwise nothing but an error |
| Cw20Token.Token.DestroyBalance | contracts/cw20-base/src/contract.rs:284-295 | Balance and supply fall together by the amount |
| Cw20Token.Token.ExecuteMint | contracts/cw20-base/src/contract.rs:304-351 | Only the minter mints, a non-zero amount, within the cap; supply and balance rise together |
| Cw20Token.Token.ExecuteIncreaseAllowance | contracts/cw20-base/src/allowances.rs:10-41 | Both allowance indexes are raised for the pair and nothing else |
| Cw20Token.Token.ExecuteDecreaseAllowance | contracts/cw20-base/src/allowances.rs:43-88 | Both indexes are lowered, or both entries removed when the decrease reaches the allowance; by how much, Cw20Accounts.ChangedAllowance says |
| Cw20Token.Token.DeductAllowance | contracts/cw20-base/src/allowances.rs:90-116 | Both indexes lose the amount, if there is a live allowance that covers it |
| Cw20Token.Token.Execute | contracts/cw20-base/src/contract.rs:188-237 | Every message commits what the specification says or leaves the token as it was |
| Cw20Laws.ExecSound | contracts/cw20-base/src/contract.rs:239-433 | Each message keeps: balances add up to the supply, the supply fits and is within a set cap, and the two allowance indexes mirror each other |
| Cw20Laws.MoveSound | contracts/cw20-base/src/contract.rs:239-271 | A movement conserves the sum of balances, self-transfers included, and the recipient's addition cannot overflow |
| Cw20Laws.MoveFromSound | contracts/cw20-base/src/allowances.rs:118-153 | The same for movements by allowance, which also keep the indexes mirrored |
| Cw20Laws.GenesisSound | contracts/cw20-base/src/contract.rs:159-186 | An accepted list of accounts opens a sound ledger |
| Cw20Laws.EveryReachableLedgerIsSound | contracts/cw20-base/src/contract.rs:95-433 | From every accepted instantiation, after any calls in any order, the ledger is sound |
| Cw20Laws.MovementsSucceedExactlyWhen | contracts/cw20-base/src/allowances.rs:90-238 | In a sound ledger a movement succeeds if and only if the amount is not zero (where that is asked), the balance covers it, a live allowance covers it, and the contract that a send reaches accepts it |
| Cw20Laws.OutsidersNeverMint | contracts/cw20-base/src/contract.rs:304-433 | A call by anybody but the minter neither raises the supply nor changes the minter |
| Cw20Laws.TheCapNeverChanges | contracts/cw20-base/src/contract.rs:397-433 | The minting right is handed on and never created: over every run, whoever mints at the end mints under the cap the run began with, and the supply is within it |
| Cw20Laws.MintStep | contracts/cw20-base/src/contract.rs:239-433 | The supply rises only by a mint of the minter, the minter changes only by the minter's own message, and a new minter has the old cap |
| Cw20Laws.SpendersStayWithinTheirGrants | contracts/cw20-base/src/allowances.rs:10-116 | Over any run: what a spender took, may still take and lost to decreases is what the spender might take at the start and was granted since |
| Cw20Laws.OthersCannotLowerABalance | contracts/cw20-base/src/allowances.rs:118-238 | A balance falls only by its holder's own call or by an allowance of the holder that covers the fall |
| Cw20Accounts.BalanceStep | contracts/cw20-base/src/contract.rs:239-395 | One accepted call, whatever it is: every balance changes by what the call names as credit and debit for that account, and the supply by what it mints or burns |
| Cw20Accounts.BalancesAreAccounted | contracts/cw20-base/src/contract.rs:239-395 | Over every run a balance is what it was, with all that accepted calls brought and without all that they took |
| Cw20Accounts.SupplyIsAccounted | contracts/cw20-base/src/contract.rs:273-351 | Over every run the supply is what it was, with all that was minted and without all that was burned |
| Cw20Accounts.ChangedAllowance | contracts/cw20-base/src/allowances.rs:10-88 | After an increase the allowance is more by exactly the amount; after a decrease less by exactly the amount, or gone from both indexes when the amount reaches it; a given expiry is stored and otherwise the old one stays |
| Cw20Accounts.OthersKeepAnAllowance | contracts/cw20-base/src/allowances.rs:10-116 | A call that is not the owner's change or the spender's use of an allowance leaves it as it was, expiry included, in both indexes |
| Cw20Accounts.ChangesSucceedExactlyWhen | contracts/cw20-base/src/contract.rs:273-433 | In a sound ledger, when burning, minting, changing an allowance or naming a minter is accepted, if and only if |
| Cw20Accounts.AllowancesEndAtTheirExpiry | contracts/cw20-base/src/allowances.rs:90-116 | A covered use of an allowance is accepted exactly before its height or time, and once refused for that it is refused at every later block |
| Cw20Accounts.GenesisOpensTheList | contracts/cw20-base/src/contract.rs:95-186 | An instantiation is accepted if and only if no address is listed twice and the sum fits and is within the cap; then every listed address has its amount and every other one nothing |
| SwapPool.LiquidityPool.ExecuteAddLiquidity | contracts/fanfuryswap/src/contract.rs:251-376 | Reserves grow by the two amounts and the owner is minted the shares, in one step, or nothing happens |
| SwapPool.LiquidityPool.ExecuteRemoveLiquidity | contracts/fanfuryswap/src/contract.rs:476-565 | Reserves shrink by the redeemed parts and the shares are burned from the holder, in one step, or nothing happens |
| SwapPool.LiquidityPool.ExecuteSwap | contracts/fanfuryswap/src/contract.rs:651-759 | The input reserve grows by the input, the other falls by the price, under the minimum and the fee check |
| SwapPool.LiquidityPool.Execute | contracts/fanfuryswap/src/contract.rs:97-163 | Every message, to the pool or to its LP token, commits what the specification says or leaves both as they were |
| SwapLaws.PriceIsAmountOut | contracts/fanfuryswap/src/contract.rs:612-636 | Whenever the price is given at all, both reserves are positive and the price is the one without width checks |
| SwapLaws.AmountOutIsTheMost | contracts/fanfuryswap/src/contract.rs:612-636 | The price is the largest whole amount that keeps the pool on or above the fee-adjusted curve, and never the whole reserve |
| SwapLaws.SplittingNeverHelps | contracts/fanfuryswap/src/contract.rs:612-636 | However an amount is cut into successive swaps, together they buy at most what one swap of the sum buys, all roundings included |
| SwapLaws.SplitRunPaysNoMore | contracts/fanfuryswap/src/contract.rs:651-759 | On the contract: any run of swaps in one direction, aborted ones included, pays out at most the price of the sum of the accepted inputs |
| SwapLaws.SwapKeepsProduct | contracts/fanfuryswap/src/contract.rs:612-636 | A swap never lowers the product of the reserves |
| SwapLaws.SwapRunsKeepProduct | contracts/fanfuryswap/src/contract.rs:729-750 | Over any run of swaps in both directions the product never falls, no reserve is emptied and the LP token is untouched |
| SwapLaws.SwappersCannotGain | contracts/fanfuryswap/src/contract.rs:651-758 | If such a run brings one reserve back to where it was or below, the other has not gone down |
| SwapLaws.SwapThereAndBack | contracts/fanfuryswap/src/contract.rs:612-636 | Swapping an amount and swapping the proceeds straight back returns at most the amount |
| SwapLaws.RunSane | contracts/fanfuryswap/src/contract.rs:385-400 | Over any run the LP token is a sound ledger whose only minter is the pool, without a cap |
| SwapLaws.GenesisSane | contracts/fanfuryswap/src/contract.rs:33-93 | Instantiation starts there |
| SwapLaws.RedemptionsAreCovered | contracts/fanfuryswap/src/contract.rs:500-538 | What a holder may redeem is within the reserves, so the subtractions never fail |
| SwapLaws.StepKeepsValue | contracts/fanfuryswap/src/contract.rs:327-338 | No message lowers the value of a share; all but swaps lower neither reserve per share |
| SwapLaws.ShareValueNeverFalls | contracts/fanfuryswap/src/contract.rs:215-249 | Over any run with shares outstanding, reserve1 times reserve2 per squared supply never falls |
| SwapLaws.DonationsGoToTheHolders | contracts/fanfuryswap/src/contract.rs:761-815 | Only the owner donates; no share moves, what any number of shares redeems does not fall, and all shares together redeem more by exactly the donation |
| SwapLaws.OwnersAreAppointed | contracts/fanfuryswap/src/contract.rs:165-198 | Over every run the owner is the first one or was appointed by the owner of that moment and has been the owner ever since |
| SwapLaws.LiquidityRoundTrip | contracts/fanfuryswap/src/contract.rs:215-249 | Adding to a live pool and at once redeeming the minted shares takes out at most what was put in, of each token |
| SwapTerms.AdditionsAreFair | contracts/fanfuryswap/src/contract.rs:215-249 | What an addition mints is the depositor's share of the pool rounded down, and the token 2 it takes is the share rounded up to the next whole unit: both bounds of both |
| SwapTerms.AdditionsKeepTheLimits | contracts/fanfuryswap/src/contract.rs:286-346 | An accepted addition mints at least the minimum, takes at most the maximum of token 2, and pays a fee of at least twice the exact share, less one unit |
| SwapTerms.SharesGoToTheOwner | contracts/fanfuryswap/src/contract.rs:338-339 | All that an addition mints goes to the pool's owner, and no other LP balance moves |
| SwapTerms.AdditionsAreAcceptedExactlyWhen | contracts/fanfuryswap/src/contract.rs:251-376 | An addition is accepted if and only if it is in time, comes with the right coins, is within the limits in terms of the fair share, pays the fee, and nothing overflows |
| SwapTerms.RedemptionsAreFair | contracts/fanfuryswap/src/contract.rs:476-538 | A redemption pays the exact part of each reserve rounded down, at least the minimums, and takes exactly the redeemed shares from the sender and from nobody else |
| SwapTerms.RedemptionsAreAcceptedExactlyWhen | contracts/fanfuryswap/src/contract.rs:476-565 | A redemption is accepted if and only if it is in time, the holder has the shares, has given the pool a live allowance for them, and the exact parts reach the minimums; the reserves never refuse it |
| SwapTerms.SwapsAreFair | contracts/fanfuryswap/src/contract.rs:651-759 | An accepted swap pays the most that the curve allows, at least the agreed minimum, for a fee of at least the exact share of the token 1 side, less one unit |
| SwapTerms.SwapsAreAcceptedExactlyWhen | contracts/fanfuryswap/src/contract.rs:651-759 | A swap is accepted if and only if it is in time, the most that the curve allows reaches the minimum, coins and fee are right, and nothing overflows |
| SwapTerms.LiquidityRoundTripLosesOnlyRounding | contracts/fanfuryswap/src/contract.rs:215-538 | Adding to a live pool and at once redeeming the minted shares gives everything back, of each token, short of it by less than the value of one share and one unit, and of token 2 the unit it was charged more |
| SwapLaws.RedeemingEverythingEmptiesThePool | contracts/fanfuryswap/src/contract.rs:500-538 | Redeeming the whole supply pays out both reserves to the last unit |
| SwapLaws.BackedExactlyUnlessStranded | contracts/fanfuryswap/src/contract.rs:761-808 | A message keeps "no shares, no reserves; shares, and some token 1" if and only if it is neither a donation to a pool without shares nor a burn at the token of as many tokens as there are shares |
| SwapLaws.RunBacked | contracts/fanfuryswap/src/contract.rs:476-538 | So does every run without those two |
| SwapLaws.BurningTheLastSharesStrandsReserves | contracts/cw20-base/src/contract.rs:273-302 | A concrete run that ends with no shares and reserves of 100 and 400 |
| BondingVault.BondingContract.ExecuteCheckDailyVesting | contracts/fanfurybonding/src/contract.rs:179-203 | The three fields of the cap change as the day rule says, or the amount is refused and none changes |
| BondingVault.BondingContract.ExecuteBond | contracts/fanfurybonding/src/contract.rs:205-263 | An accepted bond passes the cap and appends one record that is due after the lock time |
| BondingVault.BondingContract.ExecuteLpBond | contracts/fanfurybonding/src/contract.rs:265-308 | The same for bonds that come from the pool |
| BondingVault.BondingContract.GetBondState | contracts/fanfurybonding/src/contract.rs:432-460 | The loop sums exactly the due records and derives the fee from the sum |
| BondingVault.BondingContract.RetainList | contracts/fanfurybonding/src/contract.rs:335-341 | The retention loop keeps exactly the records that are not due, in order |
| BondingVault.BondingContract.ExecuteUnbond | contracts/fanfurybonding/src/contract.rs:310-367 | An accepted unbond leaves exactly the records that are not due |
| BondingVault.BondingContract.Execute | contracts/fanfurybonding/src/contract.rs:59-74 | Every message commits what the specification says or leaves the storage as it was |
| BondingLaws.CheckRefines | contracts/fanfurybonding/src/contract.rs:179-203 | One accepted amount keeps the three fields equal to what the history of active days amounts to |
| BondingLaws.CapRefinesHistory | contracts/fanfurybonding/src/contract.rs:179-203 | Over every run with a fixed daily amount: the current amount is the latest active day's total, the carry-over is the unused amounts of the earlier ones, and every day was within its allowance |
| BondingLaws.HistoryIsComplete | contracts/fanfurybonding/src/contract.rs:239-251 | The totals of that history are what was really bonded on those days, and on no other day was anything bonded |
| BondingLaws.NthDayIsBounded | contracts/fanfurybonding/src/contract.rs:186-198 | The n-th active day takes at most n daily amounts |
| BondingLaws.CarryOverIsTheUnspentBudgetExactlyWhen | contracts/fanfurybonding/src/contract.rs:186-198 | Over every run the stored carry-over is the unspent budget of the earlier active days plus what they overspent; so it is the unspent budget if and only if none of them took more than the daily amount |
| BondingLaws.CarryOverIsNotSpent | contracts/fanfurybonding/src/contract.rs:265-308 | Whenever the contract starts, three accepted bonds of twice the daily amount on the next three days take six daily amounts in four active days and leave the carry-over at one |
| BondingLaws.LoopsPartition | contracts/fanfurybonding/src/contract.rs:443-448 | The summing loop and the retention loop split every list exactly in two |
| BondingLaws.RecordsAreConserved | contracts/fanfurybonding/src/contract.rs:321-341 | Over every run, per address, every record ever bonded is either still listed or was paid, and none twice |
| BondingLaws.AmountsAreConserved | contracts/fanfurybonding/src/contract.rs:294-299 | So the amounts bonded are the amounts paid and the amounts listed |
| BondingLaws.UnbondPaysExactlyTheDue | contracts/fanfurybonding/src/contract.rs:310-367 | An unbond transfers the total of the records it removes; all of them are due, none it keeps is, and nobody else's list changes |
| BondingTerms.BondsAreDiscounted | contracts/fanfurybonding/src/contract.rs:229-308 | An accepted bond appends one record to the bonder's list, and to no other: of an amount whose (1000 - discount) thousandths are what was paid, rounded down, and due exactly the lock time from now |
| BondingTerms.DiscountsNeverCost | contracts/fanfurybonding/src/contract.rs:239-239 | Nobody bonds for less than was paid, and without a discount for exactly as much |
| BondingTerms.CapAdmitsExactly | contracts/fanfurybonding/src/contract.rs:179-203 | The cap admits an amount if and only if the day's total with it is within the daily amount and what earlier active days left unused |
| BondingTerms.CapAdmitsByHistory | contracts/fanfurybonding/src/contract.rs:179-203 | The same after every run, with the history of what was really bonded |
| BondingTerms.BondsAreAcceptedExactlyWhen | contracts/fanfurybonding/src/contract.rs:205-308 | When a bond is accepted, if and only if, for both kinds: the kind is offered, the coins cover amount and fee to within a unit, and the discounted amount passes the cap |
| BondingTerms.UnbondsAreAcceptedExactlyWhen | contracts/fanfurybonding/src/contract.rs:310-367 | An unbond is accepted if and only if something is due, the contract holds it, and the coins cover the fee on what it is worth, to within a unit |
| GamingPool.GamingContract.FlagForRefund | contracts/gamingpool/src/execute.rs:102-257 | The walk flags all pools (cancel) or the underfilled ones (lock) for refund |
| GamingPool.GamingContract.ExecuteCreatePool | contracts/gamingpool/src/execute.rs:259-327 | An accepted creation adds one empty pool under the next decimal name |
| GamingPool.GamingContract.ExecuteBid | contracts/gamingpool/src/execute.rs:344-597 | An accepted bid counts one team in the pool and appends it to the gamer's list, within both limits |
| GamingPool.GamingContract.AwardWinners | contracts/gamingpool/src/execute.rs:1030-1064 | The triple loop equals one pass over the pool's lists, also when a gamer is visited again, and adds up every match of every visit |
| GamingPool.GamingContract.ExecuteDistribute | contracts/gamingpool/src/execute.rs:914-1116 | A distribution writes the awards, sets the pool's flags and moves the status to completed or back to closed, unless what is listed or what the loops add up is too wide or the running total refuses it |
| GamingPool.GamingContract.ExecuteClaimReward | contracts/gamingpool/src/execute.rs:646-764 | A claim pays the unclaimed rewards of all rewarded pools and marks every team of theirs |
| GamingPool.GamingContract.ExecuteClaimRefund | contracts/gamingpool/src/execute.rs:766-912 | A claim settles a pool fee for every team in refundable pools, marks them and sends the fee coins, or fails on a team refunded before |
| GamingPool.GamingContract.QueryGamerReward | contracts/gamingpool/src/query.rs:77-101 | The nested loops sum the gamer's unclaimed rewards over all pools |
| GamingPool.GamingContract.QueryGamerRefund | contracts/gamingpool/src/query.rs:103-138 | The nested loops count the gamer's teams that were not refunded in refundable pools, times the fee |
| GamingPool.GamingContract.Execute | contracts/gamingpool/src/execute.rs:102-1116 | Every message commits what the specification says or leaves the storage as it was |
| GamingLaws.EveryReachableStateIsCoherent | contracts/gamingpool/src/execute.rs:476-507 | In every reachable state each pool's team count is the sum of the lengths of its gamers' lists, every team is filed under its gamer, a reward other than 0 implies the pool's reward flag, and an open game has none |
| GamingLaws.ClosedGamesAreFrozen | contracts/gamingpool/src/execute.rs:947-979 | Once a game has left the open state it never returns to it, and pools, counts and entries are frozen |
| GamingLaws.ClaimsAreNeverTakenBack | contracts/gamingpool/src/execute.rs:660-706 | Over any run no claim flag goes back and no entry is lost |
| GamingLaws.RewardClaimsMatchTheQuery | contracts/gamingpool/src/execute.rs:646-764 | A reward claim succeeds if and only if the query shows an amount and the fees are right; it pays exactly that, and the query then shows 0 |
| GamingLaws.RefundClaimsMatchTheQuery | contracts/gamingpool/src/execute.rs:786-907 | A refund claim settles exactly what the query showed, and the query then shows 0; the coins sent to the gamer are the two fee percentages of it, less than two units below the exact share |
| GamingLaws.RefundsShownAreClaimableUnlessBlocked | contracts/gamingpool/src/execute.rs:786-835 | A shown refund can be claimed if and only if no team of the gamer in a refundable pool was refunded before |
| GamingLaws.LastMatchIsLast | contracts/gamingpool/src/execute.rs:1030-1064 | Of several matching entries the last one decides, and without a match the reward stays |
| GamingLaws.DistributionIsOnePass | contracts/gamingpool/src/execute.rs:1030-1064 | A distribution gives every team of its pool the amount of its last matching entry, also when gamers repeat, and changes no other team |
| GamingAwards.AwardsGoToTheNamed | contracts/gamingpool/src/execute.rs:1030-1064 | A distribution writes into a team of its pool the amount of the last entry that names gamer and team, and leaves every team that no entry names, and every other pool's, as it was |
| GamingAwards.DistributionsAreAcceptedExactlyWhen | contracts/gamingpool/src/execute.rs:914-1080 | A distribution is accepted if and only if it comes from the admin, in a closed or completed game, for a pool of a known type without its final batch, and the sum of its entries and the sum of all they match fit |
| GamingAwards.ClaimsMarkTheirTeams | contracts/gamingpool/src/execute.rs:646-850 | A claim marks exactly the gamer's teams in the pools with that status, leaves a paid reward written, writes a refund as the fee of the pool's type, and changes nothing else |
| GamingCourse.StatusStep | contracts/gamingpool/src/execute.rs:102-979 | Which messages are accepted in which status, and which status follows |
| GamingCourse.DistributionSettlesThePool | contracts/gamingpool/src/execute.rs:947-1000 | An accepted distribution completes the game exactly when it is final, and then its pool is done; the pool has rewards and no refund from then on; every other pool stays |
| GamingCourse.LockAndCancelFlag | contracts/gamingpool/src/execute.rs:102-257 | A lock makes exactly the pools refundable that have fewer teams than the least of their type, a cancellation all, and neither changes anything else about a pool |
| GamingCourse.TypesAreSetOnce | contracts/gamingpool/src/execute.rs:56-100 | Over every run a pool type, once set, never changes |
| GamingCourse.BidsSucceedExactlyWhen | contracts/gamingpool/src/execute.rs:344-507 | A bid is accepted if and only if the game is open, the amount is not short of 99.9% of the converted fee by a whole unit, and pool and gamer have room under the type that the bid names |
| GamingCourse.FeesAreThePercentages | contracts/gamingpool/src/execute.rs:329-342 | The fee for an amount is both percentages of it, two roundings short at most |
| GamingCourse.EveryReachableStateIsInCourse | contracts/gamingpool/src/execute.rs:102-1000 | In every reachable state: no pool has more teams than its type allows; in an open game nothing is decided about a pool; in a closed or completed one a pool is refundable if and only if it has no rewards and fewer teams than the least of its type; in a cancelled one every pool is |
| GamingCourse.CompletedGamesAreNotCancelled | contracts/gamingpool/src/execute.rs:122-131 | A completed game stays completed and refuses every cancellation until another distribution is accepted |
| GamingCourse.PoolsAreDistributedOnce | contracts/gamingpool/src/execute.rs:981-987 | Over every run a pool that has had its final distribution refuses every later one |
| GamingTurns.CompletionIsUndoneExactlyBy | contracts/gamingpool/src/execute.rs:954-979 | A message takes a game out of the completed state if and only if it is a distribution that is not final |
| GamingTurns.ACompletedGameCanBeCancelled | contracts/gamingpool/src/execute.rs:102-979 | A run of eight messages: one pool gets its final distribution, another a first batch, the game is cancelled, and the pool with rewards is refundable |
| GamingTurns.BidsKeepTheGamerLimitExactlyWhen | contracts/gamingpool/src/execute.rs:445-491 | After a bid no gamer is over the limit of the pool's type if and only if no other gamer was over that of the type the bid names |
| GamingTurns.GamersStayWithinTheirLimits | contracts/gamingpool/src/execute.rs:445-491 | Over every run whose bids name the type their pool has, no gamer is over the limit in any pool |
| GamingTurns.ABidCanRetypeAPool | contracts/gamingpool/src/execute.rs:478-491 | A run of six messages after which a pool allows one team to a gamer and a gamer has two in it |
| GamingClaims.EntriesArePaidOnce | contracts/gamingpool/src/execute.rs:660-706 | Over every run each team entry is paid by at most one accepted reward claim |
| GamingClaims.BlockedRefundsAreRefusedForGood | contracts/gamingpool/src/execute.rs:786-835 | In a cancelled game a gamer with a refunded team in a refundable pool is refused every refund claim, whatever is called in between |
| GamingClaims.ARefundCanBeShownAndBlocked | contracts/gamingpool/src/execute.rs:102-257 | A run of nine messages after which the query shows a refund of 10 and every claim of it is refused, now and after any further messages |
| ClubContract.StakingContract.UpdateList | contracts/clubstaking/src/contract.rs:1316-1341 | The loop raises or lowers the staker's entries, compounding when auto-stake is switched on, and stops at the first failure |
| ClubContract.StakingContract.ExecuteSaveStaking | contracts/clubstaking/src/contract.rs:1296-1382 | List and club total change together, the total by the amount only |
| ClubContract.StakingContract.ExecuteStake | contracts/clubstaking/src/contract.rs:787-897 | An accepted stake is the staker's own, on a club that exists |
| ClubContract.StakingContract.AssignEach | contracts/clubstaking/src/contract.rs:940-957 | The loop saves one stake after another and stops at the first failure |
| ClubContract.StakingContract.CheckOwnsNone | contracts/clubstaking/src/contract.rs:423-436 | The walk over all clubs finds out exactly whether the buyer owns one |
| ClubContract.StakingContract.ExecuteHandOver | contracts/clubstaking/src/contract.rs:423-540 | A club changes hands under the checks of buying, keeps its total, and its new owner gets an entry |
| ClubContract.StakingContract.ExecuteBuy | contracts/clubstaking/src/contract.rs:347-567 | Buying is the buyer's own call, with fees |
| ClubContract.StakingContract.ExecuteAssignClub | contracts/clubstaking/src/contract.rs:569-724 | Assigning is the admin's call, under the same checks |
| ClubContract.StakingContract.ExecuteRelease | contracts/clubstaking/src/contract.rs:732-785 | Only the owner releases, and the release records its time |
| ClubContract.StakingContract.DrainBonds | contracts/clubstaking/src/contract.rs:1106-1138 | The withdrawal loop over the sorted bonds is the drain |
| ClubContract.StakingContract.ExecuteEncash | contracts/clubstaking/src/contract.rs:1082-1188 | An immediate withdrawal writes back what the drain has kept |
| ClubContract.StakingContract.ExecuteUnstake | contracts/clubstaking/src/contract.rs:1189-1241 | Unstaking lowers stake and total and adds one bond, within the limit of bonds |
| ClubContract.StakingContract.ScanClubs | contracts/clubstaking/src/contract.rs:1797-1855 | The one-pass loop, with the comparison in the order the code has it, ends with the winners and the winning stake of the scan |
| ClubContract.StakingContract.ExecuteFindWinners | contracts/clubstaking/src/contract.rs:1782-1866 | Snapshot and winners are stored for all clubs in key order |
| ClubContract.StakingContract.RewardOneStaker | contracts/clubstaking/src/contract.rs:1693-1742 | The inner loop pays the due stakes of one list and leaves out the others |
| ClubContract.StakingContract.RewardBatch | contracts/clubstaking/src/contract.rs:1682-1745 | The outer loop writes back one list after another and keeps the two running totals |
| ClubContract.StakingContract.ExecuteDistribute | contracts/clubstaking/src/contract.rs:1536-1780 | A batch pays its stakers, adds to the given-so-far total, and a final one settles the reward and moves the next reward time |
| ClubContract.StakingContract.ExecuteClaimRewards | contracts/clubstaking/src/contract.rs:1438-1534 | A claim needs a pending reward and writes back the list it has read |
| ClubContract.StakingContract.Execute | contracts/clubstaking/src/contract.rs:96-177 | Every message commits what the specification says or leaves the storage as it was |
| ClubWinners.WinnersAreExact | contracts/clubstaking/src/contract.rs:1782-1866 | The winners are exactly the clubs whose stake grew most and that no earlier club which grew as much tops |
| ClubWinners.StoredWinnersAreExact | contracts/clubstaking/src/contract.rs:1782-1866 | For every storage: a club wins if and only if its stake grew most since the snapshot and no club that grew as much and comes before it in key order holds more |
| ClubWinners.NoWinnersExactlyWhenAllCollapsed | contracts/clubstaking/src/contract.rs:1782-1856 | There is no winner if and only if every club lost more than the token's whole count |
| ClubWinners.WinningStakeIsTheLargest | contracts/clubstaking/src/contract.rs:1808-1850 | The winning stake is the largest among the clubs that grew most |
| ClubWinners.StoredStakeIsTheLargest | contracts/clubstaking/src/contract.rs:1808-1850 | The stored winning stake is the largest among the clubs that grew most |
| ClubRounds.WinnersAreFoundExactlyWhen | contracts/clubstaking/src/contract.rs:1782-1866 | The walk over the clubs is accepted if and only if the totals add up to 128 bits and every difference to the snapshot fits in 128 bits with a sign |
| ClubWinners.TokenBoundedStakesFit | contracts/clubstaking/src/contract.rs:1801-1812 | Stakes within the token's whole count never overflow and always have a winner |
| ClubWinners.ATieCanLeaveASmallerWinner | contracts/clubstaking/src/contract.rs:1825-1846 | From a storage of two clubs that grew alike, the earlier with 11 and the later with 21, both win and the winning stake is 21 |
| ClubWinners.WinnersAreEqualExactlyWhenTheFirstIsLargest | contracts/clubstaking/src/contract.rs:1825-1846 | All winners hold the winning stake if and only if no club that grew most holds more than the first of them |
| ClubWinners.FoundWinners | contracts/clubstaking/src/contract.rs:1782-1866 | The stored snapshot is the current totals; the winners are distinct clubs, none with more than the winning stake; nothing else changes |
| ClubBonds.SortKeepsAll | contracts/clubstaking/src/contract.rs:1097-1100 | The sort loses and invents no bond |
| ClubBonds.SortSorts | contracts/clubstaking/src/contract.rs:1097-1100 | It puts newer seconds first |
| ClubBonds.SortIsStable | contracts/clubstaking/src/contract.rs:1097-1100 | It keeps the order within every second |
| ClubBonds.TheSortIsTheOnlyOne | contracts/clubstaking/src/contract.rs:1097-1100 | A list is the sorted one if and only if newer seconds come first and the bonds of every second are the given ones in their order |
| ClubBonds.DrainIsAccounted | contracts/clubstaking/src/contract.rs:1106-1138 | What the drain takes out of the bonds is the amount less what it still looks for |
| ClubBonds.DrainIsGreedy | contracts/clubstaking/src/contract.rs:1106-1138 | It uses matured bonds from the front, whole ones first, with at most one left partial, and stops only when done or when none is left |
| ClubBonds.ImmediateWithdrawal | contracts/clubstaking/src/contract.rs:1082-1184 | An immediate withdrawal succeeds if and only if the matured bonds add up to the amount; bonds fall by exactly the amount, unmatured ones, stakes, clubs and everybody else are untouched, matured ones go newest second first |
| ClubBonds.BondsFollowUnstaking | contracts/clubstaking/src/contract.rs:1196-1225 | Over every run, for every point in time far enough back: paid out plus still bonded from before it is what was unstaked before it |
| ClubBonds.PayoutsWereBondedLongEnough | contracts/clubstaking/src/contract.rs:1113-1127 | Whatever has been paid out by now was unstaked more than the bonding duration ago |
| ClubBonds.OutstandingBonds | contracts/clubstaking/src/contract.rs:1384-1410 | The outstanding bonds are what was unstaked and not paid out, and never more of them than the limit |
| ClubOwners.OthersKeepOwnership | contracts/clubstaking/src/contract.rs:787-978 | All other messages leave owner, release and its time of every club as they were |
| ClubOwners.TakingOver | contracts/clubstaking/src/contract.rs:500-513 | After a hand-over the club is the buyer's, with the total it had, and every other club is as it was |
| ClubOwners.NobodyOwnsTwoClubs | contracts/clubstaking/src/contract.rs:423-497 | In every reachable state no address owns two clubs and every club has an owner and the configured locking period |
| ClubOwners.ReleaseHasAWitness | contracts/clubstaking/src/contract.rs:761-782 | A club that is marked released was released in the run, by its present owner, at the time it records |
| ClubOwners.OwnersChangeOnlyAfterRelease | contracts/clubstaking/src/contract.rs:603-693 | Whenever an owned club changes hands, its owner has released it, has owned it ever since, is the seller named, did so no longer ago than the locking period, and the total is carried over |
| ClubDistribution.Distributed | contracts/clubstaking/src/contract.rs:1554-1586 | An accepted distribution comes in time and is either a mere move of the next reward time or one paid batch on the known winners |
| ClubDistribution.BatchIsPaid | contracts/clubstaking/src/contract.rs:1682-1769 | After a paid batch the lists, the club's total and the given-so-far total are what the reward loops make of the lists before, by the shares of the round |
| ClubDistribution.BatchSettles | contracts/clubstaking/src/contract.rs:1570-1576 | Only a final batch settles the reward and moves the reward time; only a first one changes the winners |
| ClubLedger.SaveDeposits | contracts/clubstaking/src/contract.rs:1296-1382 | A deposit raises what is staked by the amount and the compounded reward, lowers what is pending by the latter, and raises the total by the amount only |
| ClubLedger.SaveUnstakes | contracts/clubstaking/src/contract.rs:1330-1365 | A withdrawal lowers stake and total alike |
| ClubLedger.BatchMoves | contracts/clubstaking/src/contract.rs:1682-1761 | A batch raises what the stakers of its club hold by what it gives, less what it drops, and no other club's |
| ClubLedger.ClaimsChangeNothing | contracts/clubstaking/src/contract.rs:1485-1497 | A claim leaves the whole storage as it was |
| ClubLedger.StakeLedger | contracts/clubstaking/src/contract.rs:1296-1382 | Over every run, per club: staked and pending are deposited and given less unstaked and dropped; staked is the total and what was compounded, less what was dropped; every list has at most one entry, the staker's own, with nothing pending if auto-staked |
| ClubSchedule.DueBatchDropsNothing | contracts/clubstaking/src/contract.rs:1693-1744 | A batch of due stakes without repeats drops nothing, keeps the length of every list and restarts exactly the listed ones |
| ClubSchedule.NoDueStakeIsLost | contracts/clubstaking/src/contract.rs:1554-1576 | In every run with ordered times that lists nobody twice between final batches, no distribution drops a stake, and every stake starts in time for its next batch |
| ClubSchedule.NoBatchShortensAList | contracts/clubstaking/src/contract.rs:1696-1705 | No batch of such a run shortens any list |
| ClubSchedule.FairLedger | contracts/clubstaking/src/contract.rs:1325-1365 | The ledger law of such runs, without losses |
| ClubRepeats.AfterBatch | contracts/clubstaking/src/contract.rs:1693-1744 | Exactly when a staker's list survives a batch: its stake was due, and if the batch lists the staker again, the start the batch sets has come |
| ClubRepeats.BatchDropsNothingExactlyWhen | contracts/clubstaking/src/contract.rs:1693-1744 | A batch, whoever it lists and however often, drops nothing if and only if every entry finds its stake due |
| ClubRepeats.MessageDropsNothingExactlyWhen | contracts/clubstaking/src/contract.rs:1554-1744 | An accepted batch drops nothing if and only if the stakes it lists have started and, where it lists somebody again, it comes at the reward time or a whole period after it |
| ClubRepeats.RunLosesNothingExactlyWhen | contracts/clubstaking/src/contract.rs:1554-1744 | Over every run, fair or not, no stake is lost if and only if every batch is such |
| ClubRepeats.ASecondListingCanLoseAStake | contracts/clubstaking/src/contract.rs:1696-1744 | A run of five messages whose last one takes away a stake of 1 and a pending reward of 97 |
| ClubWeights.PortionsAreTheirShare | contracts/clubstaking/src/contract.rs:1709-1725 | Rounded portions by stake add up to at most the pot's share of the amounts, and to at most one less per stake |
| ClubRewards.PortionsNearlyFill | contracts/clubstaking/src/contract.rs:1709-1725 | Portions of all the stakes miss the pot by less than one per stake |
| ClubWeights.PercentIsItsPart | contracts/clubstaking/src/contract.rs:1632-1680 | A nested percentage, over all the clubs that get it, is at most the exact percentage and less than one per club below it |
| ClubRewards.PercentagesNearlyFill | contracts/clubstaking/src/contract.rs:1632-1680 | The nested percentages miss the reward by at most two per winner and one per other club |
| ClubRewards.OwnerIsPaidOnce | contracts/clubstaking/src/contract.rs:1727-1730 | In a club whose stakers are listed once, the owner is paid the owner's reward once if listed, else not at all |
| ClubWeights.GivenIsAtMostIdeal | contracts/clubstaking/src/contract.rs:1629-1740 | Whatever stakes are paid, once each, the payments are at most the reward times (78 staked/total + 19 winners' stakes/(winners x largest) + 3)/100 |
| ClubWeights.GivenIsNearlyIdeal | contracts/clubstaking/src/contract.rs:1629-1740 | With every owner among those paid and without overflow they are that, less rounding |
| ClubRewards.OnlyDustIsLeft | contracts/clubstaking/src/contract.rs:1629-1740 | When every stake is paid, the rest is less than one per stake, one more per stake in a winning club, and one per club |
| ClubRounds.BatchGives | contracts/clubstaking/src/contract.rs:1732-1761 | What a batch adds to the given-so-far total is exactly what its due stakes are paid |
| ClubRounds.FindingJudges | contracts/clubstaking/src/contract.rs:1795-1866 | The total the walk stores is the sum of the club totals, and its winners and winning stake are those of the clubs and the snapshot |
| ClubRounds.RoundSoFar | contracts/clubstaking/src/contract.rs:1588-1778 | After any number of batches the given-so-far total is the sum of the payments to the stakes listed so far, each for its amount at the start of the round, and unlisted stakes are untouched |
| ClubRounds.LinesAreTheStakes | contracts/clubstaking/src/contract.rs:1693-1744 | A round that lists everybody pays every stake there is, each once |
| ClubOutcome.RoundGivesAtMostItsShare | contracts/clubstaking/src/contract.rs:1588-1778 | A round gives at most the ideal share of the stakes it pays, whoever it lists and whatever the totals say |
| ClubOutcome.RoundNeverOverspends | contracts/clubstaking/src/contract.rs:1629-1778 | A round whose stakes weigh no more than the percentages reckon with never gives more than the reward; after the final batch the reward is less by exactly what was given, before it is untouched |
| ClubOutcome.RoundStaysWithinWeights | contracts/clubstaking/src/contract.rs:1682-1778 | If what is staked is within the totals, so is the weight of every round, whoever is listed |
| ClubOutcome.CompleteRoundGivesItsShare | contracts/clubstaking/src/contract.rs:1588-1778 | A round that lists everybody gives the fair share of all stakes, short of it by rounding at most, whatever the totals say and whatever the winners hold |
| ClubOutcome.CompleteRoundOverspends | contracts/clubstaking/src/contract.rs:1763-1778 | Whenever that share exceeds the reward by more than rounding, the round gives more than the reward and leaves none |
| ClubOutcome.SmallerWinnersLeaveTheirPart | contracts/clubstaking/src/contract.rs:1717-1725 | When the totals are the stakes, what is left is at least the part of the 19% that winners smaller than the largest do not reach |
| ClubOutcome.CompleteRoundLeavesDust | contracts/clubstaking/src/contract.rs:1632-1778 | When the totals are the stakes and every winner holds the largest stake of the leaders, a complete round leaves less than the number of stakes, of stakes in winning clubs, and of clubs together |
| ClubFairRounds.OwnersAlwaysHoldStakes | contracts/clubstaking/src/contract.rs:529-540 | In every fair run each owner holds an entry in the own club |
| ClubFairRounds.FairTotalsAreStakes | contracts/clubstaking/src/contract.rs:1359-1382 | After a fair run in which nothing was compounded, every club's total is what is staked on it |
| ClubFairRounds.FairRoundsGiveTheirShare | contracts/clubstaking/src/contract.rs:1588-1778 | After every fair run, compounding or not, a round that lists everybody gives the fair share of all stakes, short of it by rounding at most, if no product overflows |
| ClubFairRounds.FairRoundsPayOut | contracts/clubstaking/src/contract.rs:1588-1778 | After a fair run in which nothing was compounded every round stays within the reward and settles it exactly; one that lists everybody, with winners that all hold the largest stake and no overflow, leaves only dust |
| ClubFairRounds.CompoundingCanOverspend | contracts/clubstaking/src/contract.rs:1325-1365 | For any configuration and names: a fair run with one compounding top-up, after which a round of one batch gives 9506 out of a reward of 100 |
| ClubPot.RewardIsRaisedLessTakenOut | contracts/clubstaking/src/contract.rs:1412-1436 | Over every run the reward is what was raised less what final batches took out, each of them all that stakes were paid since the last raise, as far as there was any; and the given-so-far total is exactly what stakes were paid since then |
| ClubPayments.OwnersGetTheirPercentage | contracts/clubstaking/src/contract.rs:1632-1671 | The owner's part of a round, from both sides: of 1% of the reward over the winners, of 3% when every club has won, and of 2% over the others |
| ClubPayments.ListedStakesArePaid | contracts/clubstaking/src/contract.rs:1693-1744 | On the contract: a due stake that an accepted batch lists once is paid its share of 78%, in a winning club its share of the club's part of 19%, and for the owner the owner's part, each to the unit; it is compounded with all that was pending if auto-staked, else pending, and due again at the reward time or a period later |
| ClubPayments.OwnersGainTheirPart | contracts/clubstaking/src/contract.rs:1632-1730 | So an owner's due entry of 0, not auto-staked and listed once, gains exactly that percentage's part |
| ClubPayments.DistributionsKeepTheTimetable | contracts/clubstaking/src/contract.rs:1554-1576 | Only the admin distributes, not before the reward time; a final batch after it moves it by one period, and no other distribution does |
| ClubTerms.StakesAreToppedUp | contracts/clubstaking/src/contract.rs:1296-1382 | An accepted deposit: the staker's one entry has the amount more, the pending reward moves into it exactly when auto-stake is on, an old entry keeps its start, the club's total has the amount more, and nothing else changes |
| ClubTerms.StakesAreAcceptedExactlyWhen | contracts/clubstaking/src/contract.rs:787-897 | A deposit is accepted if and only if it is the staker's own, with the fees, on a club that exists, and entry and total fit |
| ClubTerms.AssigningIsStakingOneByOne | contracts/clubstaking/src/contract.rs:899-978 | An assignment is its deposits made by the stakers themselves one after another: accepted if and only if the admin sends it, all entries are for its club, and each deposit would be accepted; and it leaves what they would leave |
| ClubTerms.TakeOversAreAcceptedExactlyWhen | contracts/clubstaking/src/contract.rs:347-724 | A club changes hands if and only if the buyer, who owns no club, asks with the fees or the admin assigns, and a club that exists is released, not for too long, with its owner as the seller |
| ClubTerms.TakeOversLeaveStakes | contracts/clubstaking/src/contract.rs:529-540 | A take-over gives the buyer an entry of 0 in the club unless there is one, and leaves every stake, the bonds and the reward as they were |
| ClubTerms.UnstakingBonds | contracts/clubstaking/src/contract.rs:1189-1241 | Unstaking is accepted if and only if stake and total cover it and a bond is free; then both fall by it and one bond of it starts now, with the configured duration, at the end of the list |
| ClubTerms.ClaimsAreAcceptedExactlyWhen | contracts/clubstaking/src/contract.rs:1438-1534 | A claim of staking rewards is accepted if and only if the staker asks, with the fees, and has something pending |

## Left out

- Encoding of messages, response attributes, events, schemas, versions, migration and reply handlers: plumbing around the state changes.
- Address validation: every address is valid, except that the buyer of a club must have a non-empty one.
- Queries other than the two sums of the gaming pool and the bond state, and their pagination.
- The marketing and logo messages of the token, which do not touch balances.
- Checks of duplicate accounts sort and compare lengths in the source; the model asks for pairwise distinct addresses.
- The coins attached to a message are one amount of the fee coin; the rule that at most one kind of coin is attached is not modelled.
- The refund of a native token 2 in AddLiquidity: token 1 is always native and token 2 always a cw20 in the instances the contract creates.
- The tokens that back the pool's recorded reserves: for a cw20 input the attached fee is not compared with the funds in the source, so the laws are about the recorded reserves.
- The price and fee oracles, and the list of names exempt from fees: their answers come with the message.
- Owner rewards, previous owners, the price paid and the club price of the staking contract: no reachable state has an owner reward other than 0.
- The scheduled refund of matured stakes (periodically_refund_stakeouts), which the contract no longer does.
- UpdateOwner of the bonding contract checks the sender and stores nothing in the source; the model does the same.
- The stored running total of a pool's rewards, the rake transfers, the exchange rates and the swap of the gaming pool: two of the storage maps share one prefix, which a typed model would not match; whether the total takes an addition comes with the message.
- GamingLaws.RefundClaimsMatchTheQuery: the swap that a refund orders pays its proceeds to the contract, and these are not modelled; the amount settled and the coins sent to the gamer are.
- ClubOutcome.RoundNeverOverspends: the weights are sufficient; whether a round whose share exceeds the reward by less than rounding overspends depends on the rounding, and beyond that ClubOutcome.CompleteRoundOverspends holds.
- ClubOutcome.CompleteRoundLeavesDust: the sharp bound is for winners that all hold the largest stake and for products that do not overflow (a product that does is paid as 0); ClubOutcome.CompleteRoundGivesItsShare has no condition on the winners.
- That time never goes back is asked for where it matters (the cap's history and the reward schedule); the other laws hold for times in any order.
