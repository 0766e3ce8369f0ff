# stock-rebalancer, modelled in Dafny

This project models the planning and execution core of `stock-rebalancer`. That program rebalances a Korean brokerage account (KIS) towards target weights. It reads the account's holdings and cash from the broker's balance reply, plans SELL and BUY orders, cuts the plan to the cash the account has, nets the orders per instrument and sends them to the broker. It also holds the broker API table per account product and the choice of credentials per environment.

One Dafny module corresponds to one source file:

| module | source |
|---|---|
| `Models` | `src/core/models.py`: orders, the Side enum, Python dicts with key order, cash arithmetic, Python's stable `sorted` |
| `Rounding` | `src/core/rounding.py` |
| `Rebalance`, `RebalanceDeficit` | `src/core/rebalance.py`: the normal path and the D+2 deficit path of `plan_rebalance` |
| `BackupAllocation`, `BackupBand`, `BackupDeficit` | `src/core/rebalance_backup.py`: `calculate_virtual_cash`, the integer allocator, `plan_rebalance_with_band` and `plan_rebalance_with_deficit` |
| `BackupPlan` | `src/core/rebalance_backup.py`: the older `plan_rebalance`, which sends a negative balance to the deficit planner and any other to the band planner |
| `CashGuard` | `src/core/cash_guard.py` |
| `OrderOptimizer` | `src/core/order_optimizer.py` |
| `RebalanceExecutor` | `src/services/rebalance_executor.py` |
| `DailyOrders` | `src/services/daily_orders.py` |
| `Portfolio` | `src/services/portfolio.py` |
| `TransactionProtection` | `src/services/transaction_protection.py` |
| `ApiConfig` | `src/adapters/kis/api_config.py` |
| `Config` | `src/config.py` |

How the source is modelled:

- Money, prices and weights are `real`; quantities are `int`. Python's `int(x)` on a float truncates toward zero and is written out. So is `x // p`.
- A Python dict whose iteration order matters is a `Dict` (its keys in insertion order plus the map).
- Each loop of the source is a `method` with a `for` or `while` loop. Its `ensures` equates the result with a specification function, defined by recursion on the last element. The properties the source promises are lemmas about those functions.
- A loop with a `break` has a lemma showing that running on after the stop condition changes nothing.
- The broker, and any reply that comes from outside, is a function parameter: `broker(order, i)` is the answer to the `i`-th call. Iteration over a Python `set` is a parameter too: `tickers` lists the codes in whatever order the set yields them.
- The classes `TransactionProtectionManager`, `ConservativeExecutionManager` and `ApiConfigManager` are Dafny classes with the fields the source updates.

## Model

| member | source | states |
|---|---|---|
| Rounding.RoundLot | src/core/rounding.py:1-2 | a negative quantity gives 0; otherwise the result is the whole part: `n <= q < n + 1` |
| Rounding.LotsBounds | src/core/rounding.py:1-2 | `round_lot(amount / price)` shares cost at most `amount`, and one share more costs more than it |
| Rounding.LotsIsRoundLot | src/core/rounding.py:1-2 | counting shares by repeated subtraction gives `round_lot(amount / price)` |
| Rounding.LotsMonotone | src/core/rounding.py:1-2 | a larger amount never buys fewer shares |
| Rounding.ClampOrderValue | src/core/rounding.py:4-9 | the quantity is unchanged with no cap or when its notional fits; otherwise it is cut to `max(int(cap // price), 0)`; the result lies between 0 and the quantity |
| Rounding.ClampIsLargestUnderCap | src/core/rounding.py:7-9 | the cut quantity is the largest one whose notional fits under the cap |
| Rounding.ClampIdempotent | src/core/rounding.py:4-9 | clamping twice is clamping once |
| Models.Put | src/core/order_optimizer.py:47-49 | `d[k] = v` keeps an existing key's place and puts a new key last |
| Models.CostIsProduct | src/core/cash_guard.py:35 | the notional `qty * price` used throughout is the product |
| Models.OfSidePartition | src/core/cash_guard.py:28-29 | splitting a plan into its SELLs and BUYs neither loses nor adds an order |
| Models.SortByKeyCorrect | src/core/rebalance.py:69 | `sorted(xs, key=...)` returns an ordered permutation of its input and keeps distinct elements distinct |
| Models.SortByKeyStable | src/core/rebalance.py:69 | the sort is stable: input already in key order comes back unchanged |
| Models.SortByKeyMembers | src/core/rebalance.py:109 | sorting neither adds nor drops an element |
| Models.FilterMultiset | src/services/daily_orders.py:111 | a list comprehension keeps every wanted element as often as it occurs, and nothing else |
| Rebalance.Deltas | src/core/rebalance.py:58-59 | there is one delta per target, and no other |
| Rebalance.ToSellExact | src/core/rebalance.py:60 | `to_sell` lists every target whose delta is below `-band`, as often as it occurs among the targets, and no other code |
| Rebalance.ToBuyExact | src/core/rebalance.py:61 | `to_buy` lists every target whose delta is above `band`, as often as it occurs among the targets, and no other code |
| Rebalance.SellBase | src/core/rebalance.py:75-80 | with negative cash the SELL quantity is the whole holding; otherwise it is `max(1, round_lot(need_val / price))`: at least one share, never more than the excess value affords beyond that one share, and one share short of exceeding it |
| Rebalance.SellFor | src/core/rebalance.py:69-87 | an unpriced target gives no SELL; otherwise there is exactly one SELL, of that target at market, iff the clamped base quantity is positive; its quantity is the base quantity when no cap applies or the base fits the cap, never exceeds the base, and its notional fits a set cap |
| Rebalance.PlanSells | src/core/rebalance.py:66-87 | the SELL loop returns the SELL pass, and its running total is the notional of those SELLs |
| Rebalance.TryBudgetSound | src/core/rebalance.py:102-142 | a budget trial holds only market BUYs of positive quantity; the cash it records is their notional; a non-empty trial fits the budget |
| Rebalance.TryBudgetStopsOnFailure | src/core/rebalance.py:136-142 | after a failure the trial stays failed, so the `break` gives the same trial as running on |
| Rebalance.TryReserve | src/core/rebalance.py:109-142 | the inner BUY loop computes the budget trial |
| Rebalance.SearchFindsFirst | src/core/rebalance.py:100-152 | the reserve search keeps the first ratio whose trial is feasible and non-empty; it yields no BUYs when no ratio succeeds |
| Rebalance.SearchReserve | src/core/rebalance.py:93-152 | the ratio loop computes the search over the ratios 0% to 5% |
| Rebalance.SearchSound | src/core/rebalance.py:100-150 | the chosen BUYs are positive market orders and cost at most the budget of the chosen ratio |
| Rebalance.PlanNormal | src/core/rebalance.py:50-163 | the normal path of `plan_rebalance` computes `NormalPlan` |
| Rebalance.NormalPlanCorrect | src/core/rebalance.py:50-163 | SELLs come first; every order is positive and at market; a portfolio worth nothing gives no orders |
| Rebalance.NormalPlanWithinBand | src/core/rebalance.py:57-61 | every order of the normal plan names a target; a SELL only a target whose delta lies below `-band`, a BUY only one whose delta lies above `band` |
| Rebalance.BalancedPortfolioNoOrders | src/core/rebalance.py:50-163 | `{a: 10, b: 5}` at 100 and 200 with targets 0.5 each, no cash and a 1% band gets an empty plan |
| Rebalance.CashOnlyBuysTarget | src/core/rebalance.py:50-163 | `{c: 0}` at 100 with target 1.0, 1000 in cash and a 1% band gets exactly `[BUY c 10]` at market |
| RebalanceDeficit.SaleOrderCorrect | src/core/rebalance.py:215-216 | the walk visits exactly the sellable holdings, by descending price, each once |
| RebalanceDeficit.WalkStopsWhenCovered | src/core/rebalance.py:222-224 | once the proceeds cover the deficit the walk changes nothing more, so the `break` is harmless |
| RebalanceDeficit.WalkSellsSound | src/core/rebalance.py:222-239 | each SELL is of a walked code, positive, at most the holding and at market; each was placed while the proceeds still fell short; the proceeds are their notional |
| RebalanceDeficit.SellUntilCovered | src/core/rebalance.py:211-239 | the SELL loop computes the walk |
| RebalanceDeficit.ExpectedPositionsCorrect | src/core/rebalance.py:251-253 | each code is expected at its holding less what is sold of it; selling held codes keeps the key order |
| RebalanceDeficit.ExpectPositions | src/core/rebalance.py:251-253 | the expected-positions loop computes `ExpectedPositions` |
| RebalanceDeficit.DeficitTrySound | src/core/rebalance.py:267-302 | a deficit trial holds positive market BUYs within the budget, except that its last BUY may be a single share (the `max(1, ...)`) placed while budget was left |
| RebalanceDeficit.DeficitTryStopsOnFailure | src/core/rebalance.py:299-302 | a failed trial stays failed, so the `break` is harmless |
| RebalanceDeficit.DeficitSearch | src/core/rebalance.py:260-312 | the ratio loop of the deficit path computes the search |
| RebalanceDeficit.DeficitSellsCorrect | src/core/rebalance.py:207-239 | deficit SELLs are positive market SELLs of held, priced codes, at most the holding, each code once; each was placed while the deficit was still uncovered |
| RebalanceDeficit.DeficitNoBuyWhenShort | src/core/rebalance.py:243-326 | when the proceeds do not exceed the deficit the plan is the SELLs alone |
| RebalanceDeficit.DeficitBuysBudget | src/core/rebalance.py:247-320 | the BUYs cost at most the chosen budget, except for one trailing single share placed while budget was left |
| RebalanceDeficit.DeficitExpectedNotNegative | src/core/rebalance.py:251-253 | the deficit SELLs never take an expected position below zero |
| RebalanceDeficit.DeficitExample | src/core/rebalance.py:166-328 | 100 shares at 1000 with D+2 at -30000: exactly 30 shares are sold and nothing is bought |
| RebalanceDeficit.PlanDeficit | src/core/rebalance.py:166-328 | `_plan_deficit_resolution` computes `DeficitPlan` |
| RebalanceDeficit.PlanRebalance | src/core/rebalance.py:6-163 | `plan_rebalance` computes `RebalancePlan` |
| RebalanceDeficit.RebalancePlanCorrect | src/core/rebalance.py:45-163 | on either path SELLs come first and orders are positive and at market; a negative `d2_cash` gives the deficit plan, anything else the normal plan |
| BackupAllocation.CalculateVirtualCash | src/core/rebalance_backup.py:7-51 | the available cash is the D+2 cash; the total is that plus the value of every holding |
| BackupAllocation.Usable | src/core/rebalance_backup.py:689 | `usable` is exactly the tickers with a positive price |
| BackupAllocation.FloorSharesFit | src/core/rebalance_backup.py:714-718 | the floor share is the largest count whose value fits its part of the budget, and 0 for a negative part |
| BackupAllocation.FirstPassSpent | src/core/rebalance_backup.py:714-721 | the floor pass spends at most the budget times the weights it allocates |
| BackupAllocation.TopupsBalance | src/core/rebalance_backup.py:724-729 | the top-up loop moves value from the leftover into shares without loss, and the leftover never goes negative |
| BackupAllocation.AllocationShares | src/core/rebalance_backup.py:711-729 | every usable code gets its floor share or one share more |
| BackupAllocation.AllocationWithinBudget | src/core/rebalance_backup.py:711-729 | with non-negative weights summing to at most 1, the allocation costs at most the budget |
| BackupAllocation.Allocate | src/core/rebalance_backup.py:711-729 | the two loops compute `Allocation` |
| BackupBand.Classify | src/core/rebalance_backup.py:752-768 | one pass sorts each usable code into the band violators or the compliant codes |
| BackupBand.AdjustedAt | src/core/rebalance_backup.py:774-779 | after step 4-2 a code outside the band holds its target and any other code its holding |
| BackupBand.NudgesStop | src/core/rebalance_backup.py:814-830 | once the amount is used up the loop changes nothing, so the `break` is harmless |
| BackupBand.NudgesBalance | src/core/rebalance_backup.py:814-830 | the amount the cash loops use is exactly the value of the shares they add or remove, and it stays non-negative |
| BackupBand.NudgesAtMostOne | src/core/rebalance_backup.py:814-830 | each code moves by at most one share, in the loop's direction |
| BackupBand.NudgeLoop | src/core/rebalance_backup.py:814-830 | the cash loops compute `Nudges`, for the surplus loop, the shortfall loop as written, or the shortfall loop corrected to skip codes with no share left |
| BackupBand.FixCash | src/core/rebalance_backup.py:795-831 | step 4-4 computes `CashFixed` with the given shortfall loop |
| BackupBand.BandBuyStepAllowed | src/core/rebalance_backup.py:871-894 | each BUY of step 6-2 is a step the cash guard would also allow |
| BackupBand.PlaceOrders | src/core/rebalance_backup.py:848-894 | the SELL and BUY loops compute the two passes over the running cash |
| BackupBand.AssembleSound | src/core/rebalance_backup.py:848-894 | the plan lists SELLs first and each code once; orders are positive and at market; no SELL exceeds its negative delta and no BUY its positive one; the running cash is never negative after a BUY |
| BackupBand.PlanRebalanceWithBand | src/core/rebalance_backup.py:654-913 | the planner computes `BandPlanWith`: with the shortfall loop as written this is `plan_rebalance_with_band`, with it corrected `BandPlan` |
| BackupBand.BandPlanCorrect | src/core/rebalance_backup.py:687-894 | no usable code gives no plan; otherwise the plan is sound for the net deltas |
| BackupBand.BandSellsWithinHoldings | src/core/rebalance_backup.py:811-820 | with the corrected shortfall loop, no SELL exceeds the holding |
| BackupBand.ShortfallSellsUnheldShare | src/core/rebalance_backup.py:811-820 | as written, the shortfall loop plans a SELL of an unheld code; the corrected loop does not |
| BackupDeficit.DeficitTotal | src/core/rebalance_backup.py:484-497 | `V_total` counts the usable holdings twice: once directly and once inside the virtual total |
| BackupDeficit.FilterDeltas | src/core/rebalance_backup.py:525-544 | the band filter loop computes `FilteredDeltas` |
| BackupDeficit.FilteredDeltaOf | src/core/rebalance_backup.py:528-544 | a code keeps a non-zero delta only when the filter lets it trade, and then keeps exactly its delta |
| BackupDeficit.ExtraWalkStops | src/core/rebalance_backup.py:572-574 | once the remaining deficit is covered the walk adds nothing, so the `break` is harmless |
| BackupDeficit.ExtraWalkSound | src/core/rebalance_backup.py:572-587 | each extra entry is a held code not sold by the first pass, listed once, with at least one share and at most its holding |
| BackupDeficit.WalkHoldings | src/core/rebalance_backup.py:568-587 | the extra-SELL loop computes the walk |
| BackupDeficit.DeficitSellsAreBandSells | src/core/rebalance_backup.py:590-609 | the first SELL pass is the band planner's SELL pass |
| BackupDeficit.DeficitBuysNoneWhenShort | src/core/rebalance_backup.py:621-646 | with no positive cash to start from, the BUY pass buys nothing |
| BackupDeficit.PlanRebalanceWithDeficit | src/core/rebalance_backup.py:455-651 | the planner computes `DeficitPlanAsWritten`, which covers `abs(cash)`; for a negative balance that is the corrected `DeficitPlan` |
| BackupDeficit.DeficitPlanSound | src/core/rebalance_backup.py:551-651 | for any amount to cover: SELLs come before BUYs and orders are positive and at market; no SELL exceeds the holding; no BUY takes a holding past its target; replaying the BUYs from the caller's cash never goes below zero; with no positive cash there is no BUY and no code twice |
| BackupDeficit.DeficitBuysCovered | src/core/rebalance_backup.py:620-646 | each BUY is paid from `buy_cash`, so the caller's cash less the BUYs so far stays non-negative |
| BackupDeficit.DeficitBuysWithinTargets | src/core/rebalance_backup.py:620-646 | no BUY takes a holding past its target |
| BackupDeficit.DeficitPlanAgreesWhenShort | src/core/rebalance_backup.py:552 | for a negative balance the as-written and corrected plans agree |
| BackupDeficit.DeficitPlanCodesUnique | src/core/rebalance_backup.py:551-651 | the corrected plan never names a code twice |
| BackupDeficit.SurplusSellsAndBuysOneCode | src/core/rebalance_backup.py:552 | as written, a positive balance makes the plan sell and buy the same code; corrected, it only buys |
| BackupPlan.DeficitBranchRaises | src/core/rebalance_backup.py:71-87 | as written, `plan_rebalance` raises on the undeclared deficit settings exactly when the cash or the D+2 balance is negative |
| BackupPlan.MissingD2Raises | src/core/rebalance_backup.py:71-78 | a negative cash with no D+2 balance raises in the log line, whatever the settings |
| BackupPlan.DeficitBranchCorrected | src/core/rebalance_backup.py:71-87 | with the settings declared and a D+2 balance, a deficit is passed on as a negative amount (the D+2 balance when that is negative), the caller's cap wins when set, and the plan is the corrected deficit plan |
| BackupPlan.BandBranch | src/core/rebalance_backup.py:115-143 | otherwise the settings are not read; a portfolio worth nothing gets no orders, any other the band plan over the virtual cash (its own cash) with a 1% reserve |
| CashGuard.CashDeltaOrderIndependent | src/core/cash_guard.py:68-90 | the net cash effect of a plan does not depend on its order |
| CashGuard.CalculateFinalCash | src/core/cash_guard.py:68-90 | the final cash is the initial cash plus every priced SELL's notional minus every priced BUY's |
| CashGuard.CreditSells | src/core/cash_guard.py:32-37 | the SELL loop keeps the priced SELLs in order and credits them |
| CashGuard.ValidateCashSufficiency | src/core/cash_guard.py:10-65 | the guard computes `CashSufficiency` |
| CashGuard.GuardStepAllowed | src/core/cash_guard.py:40-63 | a BUY step either leaves the state alone or appends the order, or a smaller positive cut of it, paid from cash that covers it |
| CashGuard.GuardBuysFromInput | src/core/cash_guard.py:40-63 | each added order comes from an input BUY with the same code, side and limit and no larger quantity |
| CashGuard.GuardKeepsSellsFirst | src/core/cash_guard.py:28-37 | the priced SELLs come first, unchanged and in plan order; no unpriced order is kept |
| CashGuard.GuardSellsBeforeBuys | src/core/cash_guard.py:10-65 | the adjusted plan lists its SELLs before its BUYs |
| CashGuard.GuardCashIsFinalCash | src/core/cash_guard.py:10-90 | the cash the guard returns is what `calculate_final_cash` gives for the adjusted plan |
| CashGuard.GuardNeverOverdraws | src/core/cash_guard.py:10-65 | replaying the adjusted plan never leaves the cash negative after one of its BUYs |
| CashGuard.GetCashInsufficientOrders | src/core/cash_guard.py:93-126 | the checker computes `InsufficientOrders` |
| CashGuard.StepsAgree | src/core/cash_guard.py:45-48 | on a BUY the checker does not report, the guard keeps the order and debits the same cash |
| CashGuard.ValidateUnchangedWhenNothingInsufficient | src/core/cash_guard.py:93-126 | when the checker reports nothing, the guard keeps every priced BUY as it is |
| OrderOptimizer.NetPositionsTrack | src/core/order_optimizer.py:42-49 | `net_positions` holds, per instrument in first-seen order, the plan's net signed quantity |
| OrderOptimizer.NetOrder | src/core/order_optimizer.py:53-60 | a positive net gives one BUY and a negative net one SELL of its size; zero gives nothing; the order's signed quantity is the net |
| OrderOptimizer.NetOrdersCorrect | src/core/order_optimizer.py:38-62 | netting keeps every instrument's net quantity and emits exactly one order per non-zero net; orders are positive and at market |
| OrderOptimizer.NetOrdersUnique | src/core/order_optimizer.py:38-62 | after netting each instrument appears at most once |
| OrderOptimizer.CalculateNetOrders | src/core/order_optimizer.py:38-62 | the two loops compute `NetOrders`, with unique codes and the same nets |
| OrderOptimizer.OptimizeCashFlow | src/core/order_optimizer.py:65-83 | the reordering loop computes the SELLs, then the BUYs |
| OrderOptimizer.CashFlowOrderCorrect | src/core/order_optimizer.py:65-83 | every SELL precedes every BUY, and the result is a permutation of the input |
| OrderOptimizer.CashFlowOrderKeepsSides | src/core/order_optimizer.py:69-81 | the relative order of the SELLs and of the BUYs is kept |
| OrderOptimizer.OptimizeOrderSequence | src/core/order_optimizer.py:9-35 | the optimiser computes `OptimizedPlan` |
| OrderOptimizer.OptimizedPlanCorrect | src/core/order_optimizer.py:9-35 | SELLs come first and each instrument appears once; nets are kept, and zero nets are dropped |
| OrderOptimizer.CommissionSavings | src/core/order_optimizer.py:86-106 | counts both plans; saved = original - optimized; percentage is saved/original*100, or 0 for an empty original |
| OrderOptimizer.SavingsNotNegative | src/core/order_optimizer.py:86-106 | optimising never adds orders |
| OrderOptimizer.CommissionIsRateTimesValue | src/core/order_optimizer.py:109-131 | the commission is the rate times the value of the priced orders |
| OrderOptimizer.EstimateCommissionCost | src/core/order_optimizer.py:109-131 | the loop computes the commission |
| RebalanceExecutor.BuildPlan | src/services/rebalance_executor.py:12-64 | `build_plan` computes `BuiltPlan` |
| RebalanceExecutor.BuiltPlanCorrect | src/services/rebalance_executor.py:43-64 | SELLs come first; orders are positive and at market. With cash on hand: one order per instrument, same nets as the guarded plan. In deficit: the planner's plan |
| RebalanceExecutor.SameNetsSameCash | src/services/rebalance_executor.py:44-58 | two plans with the same nets move the same cash, so netting keeps the guard's final cash |
| RebalanceExecutor.BuiltPlanNeverOverdraws | src/services/rebalance_executor.py:44-58 | with cash on hand the built plan ends with non-negative cash, and no BUY leaves the running cash below zero |
| RebalanceExecutor.ExtractOrderId | src/services/rebalance_executor.py:116-120 | the order number is the first non-empty of `output.ODNO`, `odno`, `order_id` |
| RebalanceExecutor.ReplyRecord | src/services/rebalance_executor.py:111-127 | a reply is recorded with its extracted order number, overridden by the reply's own `order_id`; an exception gives a FAILED record with its message |
| RebalanceExecutor.IdemKeyOf | src/services/rebalance_executor.py:100 | the idempotency key keeps side, code and quantity; a zero or missing limit reads as market |
| RebalanceExecutor.LegacyRunCorrect | src/services/rebalance_executor.py:87-129 | one record per entry: a repeated key gives a skip record, a new key the reply of its own call; the broker is called once per distinct key, in plan order |
| RebalanceExecutor.ExecutePlanLegacy | src/services/rebalance_executor.py:87-129 | the loop computes `LegacyRun` |
| RebalanceExecutor.DryIdsDistinct | src/services/rebalance_executor.py:76 | dry-run order numbers `DRY_i` are pairwise distinct |
| RebalanceExecutor.ExecutePlan | src/services/rebalance_executor.py:67-85 | a dry run gives one `DRY_i` record per entry and calls nothing; an empty plan gives nothing; otherwise the legacy loop runs |
| DailyOrders.Strip | src/services/daily_orders.py:43-53 | `strip()` leaves no blank at either end and returns a slice of its input |
| DailyOrders.SideOf | src/services/daily_orders.py:56-61 | a name saying BUY gives BUY; else one saying SELL gives SELL; else nothing |
| DailyOrders.KoreanBuyName | src/services/daily_orders.py:56-57 | 매수 names a BUY |
| DailyOrders.KoreanSellName | src/services/daily_orders.py:58-59 | 매도 names a SELL |
| DailyOrders.EnglishSideNames | src/services/daily_orders.py:56-59 | the English name is matched after upper-casing, so "buy" names a BUY |
| DailyOrders.UnknownSideName | src/services/daily_orders.py:60-61 | a name saying neither side is skipped |
| DailyOrders.ParseItem | src/services/daily_orders.py:41-92 | an entry parses only when it is a dict with integer quantities, a side, a code and a positive ordered quantity; the order keeps those fields |
| DailyOrders.ParseDailyOrders | src/services/daily_orders.py:24-98 | the parsing loop computes `ParsedResponse`; a missing or non-list `output1` gives nothing |
| DailyOrders.ParsedItemsSound | src/services/daily_orders.py:41-92 | every parsed order has a code and a positive quantity, and there is at most one per entry |
| DailyOrders.MalformedItemSkipped | src/services/daily_orders.py:90-92 | an unparsable entry is passed over without affecting its neighbours |
| DailyOrders.PendingOrdersExact | src/services/daily_orders.py:101-111 | the pending filter keeps exactly the orders with an open quantity, in order |
| DailyOrders.GetPendingPositions | src/services/daily_orders.py:114-133 | the loop computes `PendingMap` |
| DailyOrders.PendingMapMeaning | src/services/daily_orders.py:114-133 | each instrument with an open order has a key holding its open BUYs minus open SELLs; other instruments net zero |
| DailyOrders.GetExecutedPositions | src/services/daily_orders.py:136-156 | the loop computes `ExecutedMap` |
| DailyOrders.ExecutedMapMeaning | src/services/daily_orders.py:136-156 | each instrument with a fill has a key holding its net filled quantity; others have none |
| DailyOrders.GetCashImpact | src/services/daily_orders.py:159-182 | the loop computes `CashImpact` |
| DailyOrders.CashImpactMatchesExecuted | src/services/daily_orders.py:136-182 | the cash impact is minus the value, at the same prices, of the executed position changes |
| DailyOrders.FilterDuplicateOrders | src/services/daily_orders.py:185-229 | the filter computes `NonDuplicates` |
| DailyOrders.NonDuplicatesExact | src/services/daily_orders.py:185-229 | kept, in order: exactly the new orders no open order of the same instrument and side repeats within the tolerance |
| DailyOrders.GetOrderSummary | src/services/daily_orders.py:232-258 | the summary loop computes `Summary` |
| DailyOrders.SummaryConsistent | src/services/daily_orders.py:232-258 | counts all and open orders; per instrument BUY minus SELL equals the net open position, both sides non-negative |
| Portfolio.PickMeaning | src/services/portfolio.py:26-35 | `_pick` answers with the first key whose exact entry is usable; failing that, the first whose case-insensitive entry is; else None; the answer is usable |
| Portfolio.PickPrefersExactMatch | src/services/portfolio.py:27-34 | an exact match on a later key beats a case-insensitive match on an earlier one |
| Portfolio.ExtractPositions | src/services/portfolio.py:13-23 | the holdings loop computes `BalancePositions` |
| Portfolio.PositionsMeaning | src/services/portfolio.py:15-23 | the list fails exactly when an entry is not a dict; else each coded entry gives a key, and a repeated code keeps its last quantity |
| Portfolio.CashChoiceOrder | src/services/portfolio.py:76-97 | cash comes from the first truthy of orderable cash, D+2, D+1 and total deposit; failing all, from the total deposit as is; unreadable gives 0.0 |
| Portfolio.BalanceOfMeaning | src/services/portfolio.py:8-124 | cash, D+2 and net asset come from one summary dict; reading fails exactly on a malformed holdings list or, with no orderable cash, on an unreadable D+2 value (`float(d2_excc)` at line 83 is outside any `try`); when D+2 names the cash source it is also the D+2 balance returned |
| Portfolio.MergeMeaning | src/services/portfolio.py:156-160 | the merged positions are well formed and keep the held codes first; the keys are the held codes plus the open-order codes; each holding gains its net open quantity |
| Portfolio.MergePendingPositions | src/services/portfolio.py:156-160 | the merge loop computes `MergePending` |
| Portfolio.MergePendingMeaning | src/services/portfolio.py:151-160 | each instrument is expected at its holding plus its net open quantity; held instruments keep their place |
| Portfolio.GetExpectedPositions | src/services/portfolio.py:143-172 | the expected positions are `ExpectedPositions` |
| Portfolio.ExpectedPositionsMeaning | src/services/portfolio.py:146-172 | a failed daily inquiry keeps the current positions; otherwise the parsed open orders are added |
| TransactionProtection.CheckpointRunShape | src/services/transaction_protection.py:42-97 | one checkpoint per order, in order, with the broker answer's status; each order counts once; the successes are the executed orders |
| TransactionProtection.PartialIff | src/services/transaction_protection.py:77-90 | partial execution is flagged exactly when an accepted order is followed by a rejected one |
| TransactionProtection.ShouldRollbackThreshold | src/services/transaction_protection.py:110-124 | a rollback is called for exactly below 70% success, `10 * successful < 7 * total` |
| TransactionProtection.CheckpointReportMeaning | src/services/transaction_protection.py:29-108 | every order counts once; rollback only after partial execution, and then exactly below 70%; an empty list raises |
| TransactionProtection.TransactionProtectionManager.ExecuteWithCheckpoints | src/services/transaction_protection.py:29-108 | the result is `CheckpointReport`, and the manager's checkpoints grow by this run's |
| TransactionProtection.Reversal | src/services/transaction_protection.py:135-142 | the reversal keeps code, quantity and limit, and flips the side |
| TransactionProtection.RollbackPlanShape | src/services/transaction_protection.py:126-150 | one entry per successful checkpoint, in order, reversing its order and marked ROLLBACK |
| TransactionProtection.RollbackUndoes | src/services/transaction_protection.py:126-150 | per instrument the rollback's net quantity is minus that of the executed orders |
| TransactionProtection.RollbackOfRun | src/services/transaction_protection.py:29-150 | the rollback of a run undoes exactly the orders the broker accepted |
| TransactionProtection.TransactionProtectionManager.GenerateRollbackPlan | src/services/transaction_protection.py:126-150 | the loop computes `RollbackPlan` |
| TransactionProtection.BatchResultOf | src/services/transaction_protection.py:217-226 | acceptance gives success with the order id; rejection `API_ERROR`; an exception its message |
| TransactionProtection.SideCountsMeaning | src/services/transaction_protection.py:174-190 | a batch's counts add up, and it has no failure exactly when the broker accepts every order |
| TransactionProtection.NoBuyAfterFailedSell | src/services/transaction_protection.py:180-183 | a failed SELL stops the run before any BUY reaches the broker |
| TransactionProtection.ConservativeMeaning | src/services/transaction_protection.py:159-200 | overall success exactly when the list is non-empty and every SELL, then every BUY, is accepted; an empty list raises |
| TransactionProtection.ConservativeExecutionManager.ExecuteBatch | src/services/transaction_protection.py:202-232 | the batch loop computes `Batch` |
| TransactionProtection.ConservativeExecutionManager.ExecuteConservatively | src/services/transaction_protection.py:159-200 | the method computes `Conservative` |
| ApiConfig.ApiOf | src/adapters/kis/api_config.py:126-128 | an API type is found exactly when it is one of the five |
| ApiConfig.LookupMeaning | src/adapters/kis/api_config.py:106-130 | found exactly for a registered code and one of the five types; an unknown code raises first |
| ApiConfig.LookupAfterPut | src/adapters/kis/api_config.py:140-148 | registering a code replaces all its lookups and leaves other codes alone |
| ApiConfig.InitialCodes | src/adapters/kis/api_config.py:44-104 | initially exactly "01" and "22" are supported, in that order |
| ApiConfig.InitialPathsMatchSupport | src/adapters/kis/api_config.py:44-104 | an API has a path exactly when `is_order_api_supported` allows it, and a path exactly when it has a TR-id key |
| ApiConfig.PensionOrdersUnsupported | src/adapters/kis/api_config.py:79-103 | pension order and cancel have no path and no key; its inquiries use the regular paths and keys |
| ApiConfig.AccountTypeNameInjective | src/adapters/kis/api_config.py:150-156 | different product codes get different names |
| ApiConfig.UnsupportedApiMessageNames | src/adapters/kis/api_config.py:225-243 | every message starts with the account type's name; any other API is named right after it |
| ApiConfig.UnsupportedApiMessagesDiffer | src/adapters/kis/api_config.py:225-243 | the order and cancel messages differ |
| ApiConfig.ApiConfigManager.constructor | src/adapters/kis/api_config.py:40-42 | a new manager holds the initial table |
| ApiConfig.ApiConfigManager.AddAccountType | src/adapters/kis/api_config.py:140-148 | the table becomes the old one with the code registered |
| Config.TokenCachePathShape | src/config.py:73-78 | the cache file is the path minus a trailing ".json", plus `_{env}.json` |
| Config.TokenCachePathPerEnv | src/config.py:73-78 | two environments never share a cache file |
| Config.DefaultTokenCachePath | src/config.py:38 | the default prod cache file is "token/kis_prod.json" |
| Config.OrText | src/config.py:95-103 | `a or b` on text yields `a` when it is not empty, otherwise `b`; it is empty only when both are |
| Config.ResolveKisFallback | src/config.py:80-103 | a prod env gets the prod credentials, others the dev ones; each of base, app key, app secret, account number and product code is its own value unless that is empty, then the legacy value |
| Config.NoEnvIsDev | src/config.py:84-86 | a missing or empty env selects dev |
| Config.PaddingIgnored | src/config.py:85-86 | blanks around an env name do not change the choice |
| Config.DevIsNotProd | src/config.py:87-94 | "dev" is not a prod name |
| Config.LiveIsProd | src/config.py:87-94 | "live" is a prod name |
| Config.DefaultAccountProduct | src/config.py:11-30 | with the default settings every env resolves to product "01" |

## Left out

- Broker I/O, logging, `asyncio.sleep` pauses and timestamps are left out. Every broker reply is a function parameter. The broker step that cancels pending orders before planning (`src/core/rebalance.py:25-43` and `189-204`) is left out. Planning goes on whatever it returns, so the plan does not depend on it.
- The iteration order of Python sets (`set(positions) | set(targets)` and the `tickers` of the older planners) is a parameter, not a fixed order.
- Floating point is modelled as exact reals, with no rounding error. `int()` on a float is truncation, and `//` is floor division.
- RebalanceExecutor.BuildPlan: `build_plan` passes `safety_margin_pct`, `total_asset_value`, `is_mock` and `orderable_cash` to `plan_rebalance` (`src/core/rebalance.py:6-11`), which accepts none of them, so as written the call raises `TypeError` and `build_plan` never returns a plan. `BuildPlan` calls it with the arguments it does accept. Its `final_cash` is computed in the source but never used.
- The final weight check of `plan_rebalance_with_band` (`src/core/rebalance_backup.py:896-911`) only logs, so it is not modelled.
- The older `plan_rebalance` (`src/core/rebalance_backup.py:53-143`) is `BackupPlan.BackupPlanWith`. Its step that cancels pending orders through a broker (lines 89-108) only logs failures, so it is left out. Its second check of a negative D+2 balance (lines 111-113) cannot be reached, and it calls `_plan_deficit_resolution`, which that file does not define.
- The two earlier drafts of `plan_rebalance_with_deficit` (`src/core/rebalance_backup.py:146-452`) are shadowed by the last definition and are not modelled.
- BackupPlan.DeficitBranchCorrected: requires a D+2 balance, because without one the log line at `src/core/rebalance_backup.py:78` raises (stated by `BackupPlan.MissingD2Raises`).
- `upper` and `lower` are modelled on ASCII letters only. Python's full Unicode case tables are not modelled. `strip` removes the full set of characters `str.isspace` accepts.
- Python's `int()`/`float()` parsing of text is an input to the model: an entry carries what `float` reads, or None where it raises.
- `Portfolio.HoldingCode`: a truthy code that is not text is skipped. In Python it would become a key.
- A broker reply whose `output` is None makes `res.get("output", {}).get(...)` raise, and the source catches that. `ExtractOrderId` takes the nested field as absent instead.
- The full broker reply dict is reduced to the order-number fields the records use.
- Rejections are error kinds (`UnsupportedCode`, `UnsupportedApiType`, a division by zero), not the source's message texts.
- An `Order` side is BUY or SELL. Sides of any other text cannot occur, so the source's handling of them is not modelled.
- `ConservativeReport` adds an `attempted` field, which lists the orders that reached the broker so the stop after a failed SELL can be stated.
- `get_tr_id`, `get_api_path` and the `os.getenv` path overrides of `src/adapters/kis/api_config.py` are not modelled; the default paths are used.
- ApiConfig.ApiOf / LookupMeaning: an API type is one of the five names. The source tests it with `hasattr` (`src/adapters/kis/api_config.py:126`), so a name of any other attribute of the config object, such as `__class__` or `__init__`, also passes and returns that attribute. The model treats such names as unknown.
- The environment name is compared after `strip().lower()`, with `lower` on ASCII letters. Of the names, only "dev" and "live" have a lemma of their own.
- RebalanceDeficit.DeficitTrySound / DeficitBuysBudget: the budget bound allows one trailing single share over the budget, because the source's `max(1, ...)` places it.

## Findings

| source | as written | input that shows it | evidently intended | confidence | as-written member | corrected member |
|---|---|---|---|---|---|---|
| src/core/rebalance_backup.py:811-820 | the cash-shortfall loop takes one share off each band-compliant code whose price fits, whether or not a share is held | A and C: 10 shares at 100.0, target 0.4; B: none at 50.0, target 0.0; no cash; 15% band. The plan SELLs 1 B though B is not held | skip codes with no share left, so no SELL exceeds a holding | not executed; medium | BackupBand.ShortfallSellsUnheldShare | BackupBand.BandSellsWithinHoldings |
| src/core/rebalance_backup.py:71-87 | the deficit branch reads `settings.deficit_max_order_value` and `settings.deficit_reserve_ratio`, which the `Settings` class of `src/config.py` does not declare, so it raises | cash -100.0 and D+2 -100.0, with any positions | declare both settings, so a deficit reaches the deficit planner | not executed; medium | BackupPlan.DeficitBranchRaises | BackupPlan.DeficitBranchCorrected |
| src/core/rebalance_backup.py:552 | the extra-SELL walk covers `abs(cash)`, so a positive balance also triggers forced SELLs | A: 1 share at 100.0, target 1.0; cash 1000.0; 1% band. The plan is SELL 1 A, then BUY 10 A | cover only a negative balance, `max(-cash, 0)`, so no code is both sold and bought | not executed; medium | BackupDeficit.SurplusSellsAndBuysOneCode | BackupDeficit.DeficitPlanCodesUnique |
