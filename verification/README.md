# perp-trade hedge engine, modelled in Dafny

This project models the core of perp-trade, a bot that trades the same
perpetual contract on two venues, Paradex and Lighter. Each round it opens
two opposite market orders of the same size, one per venue, so the net
position stays near zero. It holds them for a while and then closes both.
It records each round's profit and loss, and it watches the net position.

The model covers these parts:

- **Hedge engine** (`hedge_rules.dfy`, `hedge_strategy.dfy`):
  - the round loop of `HedgeStrategy.run`;
  - the retry loops of `openPositions` and `closePositions`;
  - the fill poll, the one-sided fill recovery and the net-position correction;
  - the emergency close and the rebalance check.
- **Venue I/O as data**: every venue read is a snapshot supplied by the environment (a script).
  - Every submitted order is appended to the engine's `orders` log.
  - Each submission's acceptance is a supplied flag.
- **Lighter connector** (`lighter_client.dfy`):
  - the order-history accounting behind `getLastRoundPnL`: grouping the newest round, group totals and the sign rule;
  - position lookup;
  - price selection and order-size quantisation for market orders;
  - the case-insensitive market lookup.
- **PnL ledger** (`pnl_tracker.dfy`): the running totals kept equal to the sums over the recorded rounds, plus the average and running-time renderings.
- **Position monitor** (`position_monitor.dfy`): an observe-only loop.
- **Configuration** (`config.dfy`): start-up validation and the default thresholds.
- **Numeric helpers** (`math_helper.dfy`).

The modules are:

- `Types`: shared records.
- `MathHelper`.
- `Config`.
- `PnL`.
- `LighterConnector`.
- `Monitors`.
- `HedgeRules`: pure decisions.
- `Strategy`: the stateful engine, class `HedgeStrategy`.

Each stateful method of the engine is proved against a specification function of its inputs. Examples: `Attempt`, `OpenFrom`, `CloseFrom`, `RoundEffect`, `RunEffect`. Lemmas state what those functions guarantee:

- retry budgets;
- hedged legs;
- close orders that cancel the positions;
- exactly one PnL record per closed round.

Three behaviours of the source worth knowing:

- The PnL grouping of `groupOrdersBySide` compares no sizes: the open and close groups may hold different amounts, and the round's PnL is computed from them as they are.
- Only the Lighter close order is reduce-only (`hedge-strategy.ts:377-390`, the flag at line 389). The Paradex close is a plain market order.
- `calculatePrice` is documented as a weighted average price (`lighter-client.ts:365-367`), but it returns the total filled quote amount of a group. The model keeps that figure (`GroupValue`).

## Model

| member | source | states |
|---|---|---|
| MathHelper.RandomInt | src/utils/math-helper.ts:8-10 | for min <= max and a draw in [0, 1), the result is an integer in [min, max] |
| MathHelper.Percentage | src/utils/math-helper.ts:43-46 | 0 when total is 0; otherwise the result times total equals value times 100 |
| MathHelper.IsWithinTolerance | src/utils/math-helper.ts:51-57 | true exactly when value lies in [target - tolerance, target + tolerance], both bounds included |
| MathHelper.ToleranceSymmetricReflexive | src/utils/math-helper.ts:51-57 | the tolerance test is symmetric in value and target, and reflexive for a non-negative tolerance |
| Config.DefaultRisk | src/config/constants.ts:29-31 | the default risk thresholds are exactly 0.1 (net-position limit), 0.05 (deviation warning) and 0.002 (slippage tolerance); the warning is below the limit, and the tolerance is positive and below both |
| Config.SelectConfig | src/config/index.ts:15 | the mainnet configuration exactly when ENV is "mainnet", the testnet one otherwise |
| Config.CollectedExactly | src/config/index.ts:18-55 | after the first k checks, the list holds each failed check exactly once, in check order, and no passed one |
| Config.EmptyIffAllPass | src/config/index.ts:57-59 | a list holding exactly the failed checks is empty exactly when every check passes |
| Config.ValidateConfig | src/config/index.ts:18-60 | throws exactly when some check fails; the error lists every failed check once, in source order, and nothing else |
| Config.CheckParadex | src/config/index.ts:22-31 | appends the Paradex key and address failures, in order |
| Config.CheckLighter | src/config/index.ts:34-42 | appends the Lighter key and account-index failures, in order |
| Config.CheckStrategy | src/config/index.ts:45-50 | appends the order-size and order-type failures, in order |
| Config.CheckRisk | src/config/index.ts:53-55 | appends the max-net-position failure |
| Config.ThrowIfAny | src/config/index.ts:57-59 | Failure with the collected list exactly when it is non-empty, i.e. when some check failed |
| Config.PublicKeyOptional | src/config/index.ts:28 | changing only the Starknet public key changes no check's verdict |
| PnL.SumTotalSplits | src/utils/pnl-tracker.ts:30-43 | when every record's total is the sum of its venue figures, the sum of totals is the Paradex sum plus the Lighter sum |
| PnL.PnLTracker.constructor | src/utils/pnl-tracker.ts:17-28 | an empty ledger with zero totals, started at the given time |
| PnL.PnLTracker.RecordRound | src/utils/pnl-tracker.ts:30-43 | appends exactly one record whose total is the sum of its venue figures; the running totals stay equal to the sums over the list |
| PnL.PnLTracker.PrintRoundPnL | src/utils/pnl-tracker.ts:48-72 | records exactly one round per call and keeps the ledger invariant |
| PnL.PnLTracker.AveragePerRound | src/utils/pnl-tracker.ts:92-95 | reported exactly when at least one round was recorded; times the round count it gives the sum of the per-round totals |
| PnL.PnLTracker.GetStats | src/utils/pnl-tracker.ts:178-186 | the round count, each venue's sum and an overall PnL equal to the sum of per-round totals, with the elapsed time |
| PnL.FormatPnL | src/utils/pnl-tracker.ts:153-156 | a leading "+" exactly for a non-negative figure, then "$" and the fixed-point digits |
| PnL.FormatRunningTime | src/utils/pnl-tracker.ts:161-173 | hours shown exactly from one hour on, minutes exactly from one minute on; minutes and seconds below 60; the parts add up to the duration truncated to whole seconds |
| LighterConnector.CloseRunLength | src/connectors/lighter-client.ts:339-346 | the length of the maximal leading run of orders whose reduce_only is exactly true |
| LighterConnector.FalsyRunLength | src/connectors/lighter-client.ts:347-361 | the length of the maximal leading run of orders whose reduce_only is falsy |
| LighterConnector.GroupOrdersBySide | src/connectors/lighter-client.ts:332-364 | the close group is the leading run of reduce_only === true orders; the open group is the next order plus the falsy run after it |
| LighterConnector.GroupsFormPrefix | src/connectors/lighter-client.ts:332-364 | close group then open group form a prefix of the newest-first history; the close group is all reduce-only; the open group is empty exactly when every order is reduce-only, and is falsy after its first order |
| LighterConnector.OpenGroupMaximal | src/connectors/lighter-client.ts:351-358 | when the scan stops inside the history, it stops at a truthy reduce_only order (an older round's close) |
| LighterConnector.CloseRunIgnoresOlder | src/connectors/lighter-client.ts:339-346 | once the close run ends inside the history, older orders appended behind it do not change it |
| LighterConnector.FalsyRunIgnoresOlder | src/connectors/lighter-client.ts:347-361 | once the falsy run ends inside the history, older orders do not change it |
| LighterConnector.RunLengthsIgnoreOlder | src/connectors/lighter-client.ts:332-364 | both group lengths are unaffected by older orders once the scan stops inside the history |
| LighterConnector.GroupsIgnoreOlderHistory | src/connectors/lighter-client.ts:332-364 | only the most recent pair counts: older orders behind the scan's stop leave both groups unchanged |
| LighterConnector.GroupBounds | src/connectors/lighter-client.ts:332-364 | the two groups are adjacent slices of the history, within its length |
| LighterConnector.CalculatePrice | src/connectors/lighter-client.ts:369-379 | the total filled quote amount of the group, and 0 unless some base amount was filled |
| LighterConnector.SumQuoteAppend | src/connectors/lighter-client.ts:369-379 | the quote total of a concatenation is the sum of the parts' totals |
| LighterConnector.LastRoundPnL | src/connectors/lighter-client.ts:295-303 | 0 for fewer than two orders and when either group is empty |
| LighterConnector.LastRoundPnLSign | src/connectors/lighter-client.ts:308-312 | a round that opened with a buy earns close minus open; one that opened with a sell earns open minus close |
| LighterConnector.LastRoundPnLIgnoresOlderHistory | src/connectors/lighter-client.ts:291-324 | the round PnL depends only on the newest round: older orders do not change it |
| LighterConnector.OpenBuyExample | src/connectors/lighter-client.ts:291-324 | a reduce-only sell of 105 after an opening buy of 100 yields +5 |
| LighterConnector.GetLastRoundPnL | src/connectors/lighter-client.ts:291-324 | 0 when the history query fails; otherwise the round PnL of the fetched history |
| LighterConnector.FindPosition | src/connectors/lighter-client.ts:430-435 | the index of the first position record of the market, or None when no record has that market |
| LighterConnector.GetPosition | src/connectors/lighter-client.ts:412-451 | 0 on a failed query, no account or no record; otherwise the size signed by the sign field (missing sign means long) |
| LighterConnector.PositionDirection | src/connectors/lighter-client.ts:421-450 | with a non-negative size, sign -1 reports a non-positive position and sign >= 0 a non-negative one |
| LighterConnector.SelectPrice | src/connectors/lighter-client.ts:264-283 | a buy takes the ask and a sell the bid when positive, else the last trade price; a result that is not positive is an error |
| LighterConnector.RoundHalfUp | src/connectors/lighter-client.ts:154 | Math.round: the nearest integer, halves rounded up |
| LighterConnector.SizeGuard | src/connectors/lighter-client.ts:154-161 | the size guard passes exactly when the scaled size is at least one half |
| LighterConnector.CreateMarketOrder | src/connectors/lighter-client.ts:138-198 | missing market info and a size below one unit are rejected first; succeeds exactly when info exists, the size rounds to >= 1, a price exists and the signer accepts; the request carries the rounded size, price x 10000, slippage 0.05 and the caller's flags |
| LighterConnector.Upper | src/connectors/lighter-client.ts:90-91 | toUpperCase character by character, length kept |
| LighterConnector.UpperIdempotent | src/connectors/lighter-client.ts:90-91 | upper-casing twice equals upper-casing once |
| LighterConnector.FindMarket | src/connectors/lighter-client.ts:89-92 | the first order book whose upper-cased symbol equals the upper-cased base symbol, or None when none matches |
| LighterConnector.FindMarketCaseInsensitive | src/connectors/lighter-client.ts:89-92 | symbols that upper-case alike find the same market |
| LighterConnector.MarketInfoOf | src/connectors/lighter-client.ts:109-113 | falsy size decimals become 4, price decimals 2, and the minimum "0.001"; present values are kept |
| LighterConnector.LighterClient.constructor | src/connectors/lighter-client.ts:14-43 | no market index and no market info yet |
| LighterConnector.LighterClient.FindMarketIndex | src/connectors/lighter-client.ts:81-125 | an unknown symbol throws and changes nothing; a market without an id stores the missing id and throws; otherwise stores the id and the defaulted market info |
| Monitors.CheckPositions | src/monitors/position-monitor.ts:55-96 | a failed read is swallowed; otherwise net = paradex + lighter, an alert exactly when abs(net) > maxNetPosition, and a warning exactly when abs(net) > maxPositionDeviation |
| Monitors.DefaultThresholds | src/monitors/position-monitor.ts:71-92 | with the default thresholds every alert also warns, a net position exactly at the limit does not alert, and one between the thresholds warns without alerting |
| Monitors.TicksRun | src/monitors/position-monitor.ts:41-49 | the ticks run up to and including the first after which stop was requested, or all of them |
| Monitors.Reports | src/monitors/position-monitor.ts:55-96 | one report per tick, each the check of that tick's observation |
| Monitors.PositionMonitor.constructor | src/monitors/position-monitor.ts:24-32 | takes the risk thresholds of the configuration; not running |
| Monitors.PositionMonitor.Start | src/monitors/position-monitor.ts:37-50 | checks exactly the ticks up to the first stop request; the run flag ends cleared exactly when a stop was requested |
| Monitors.PositionMonitor.Stop | src/monitors/position-monitor.ts:101-104 | clears the run flag |
| HedgeRules.LighterIsAsk | src/strategies/hedge-strategy.ts:131-132 | the Lighter leg sells exactly when the Paradex leg buys |
| HedgeRules.OpeningOrders | src/strategies/hedge-strategy.ts:151-154 | two orders of the same size, neither reduce-only: Paradex in the chosen direction, Lighter in the opposite one |
| HedgeRules.OpeningLegsHedge | src/strategies/hedge-strategy.ts:131-154 | the two opening legs, filled completely, cancel in the net position |
| HedgeRules.FillOf | src/strategies/hedge-strategy.ts:243-258 | a leg counts as filled when its position moved by at least 95% of the order size; both filled exactly when each leg did |
| HedgeRules.PollOutcome | src/strategies/hedge-strategy.ts:222-284 | both filled exactly when some poll before the timeout, or the final observation, shows both; otherwise the final observation's status |
| HedgeRules.PartialFillRecovery | src/strategies/hedge-strategy.ts:291-318 | a one-sided fill gets exactly one compensating order that repeats the unfilled venue's leg; neither filled fails without an order |
| HedgeRules.RecoveryCompletesPair | src/strategies/hedge-strategy.ts:302-317 | the compensating order goes to the unfilled venue, is not reduce-only and cancels the filled leg |
| HedgeRules.CorrectionOrder | src/strategies/hedge-strategy.ts:323-345 | an order exactly when abs(net) > 0.01: one Paradex order of size abs(net), selling a positive net and buying a negative one |
| HedgeRules.CorrectionRestoresHedge | src/strategies/hedge-strategy.ts:326-338 | filled completely, the correction brings the net position to zero |
| HedgeRules.ParadexClose | src/strategies/hedge-strategy.ts:377-390 | one Paradex close order exactly when abs(position) >= 0.001 |
| HedgeRules.LighterClose | src/strategies/hedge-strategy.ts:377-390 | one Lighter close order exactly when abs(position) >= 0.001 |
| HedgeRules.ClosePlanCancels | src/strategies/hedge-strategy.ts:366-390 | no order when both venues are flat; otherwise one order per open venue, sized to its position and bringing it to zero; only the Lighter order is reduce-only |
| HedgeRules.CloseDirection | src/strategies/hedge-strategy.ts:377-390 | a long position is sold and a short one bought |
| HedgeRules.EmergencyBoundary | src/strategies/hedge-strategy.ts:442-450 | the emergency close is strict: a net of exactly 0.1 does not trigger it with the default limit, and 0.1000001 does |
| Strategy.WaitForOrdersFilled | src/strategies/hedge-strategy.ts:222-284 | the poll loop yields the outcome PollOutcome specifies |
| Strategy.AttemptCases | src/strategies/hedge-strategy.ts:125-203 | both legs are always submitted; a rejection or no fill fails with nothing more; a one-sided fill adds exactly the missing leg, and when that order is rejected the attempt fails with exactly those three orders; a successful attempt ends with a correction exactly when the net is outside 0.01; success exactly under those conditions |
| Strategy.OpenFromStep | src/strategies/hedge-strategy.ts:125-217 | one step of the open loop: a passing attempt ends it, a failed last attempt exhausts it, and any other failure continues with the next attempt |
| Strategy.OpenLoopStep | src/strategies/hedge-strategy.ts:125-217 | with the earlier attempts' orders accounted for, attempt k either ends the run or leaves the rest to attempt k + 1 |
| Strategy.OpenRetryBudget | src/strategies/hedge-strategy.ts:122-217 | at most maxRetries attempts; "opened" only on an attempt that got through after failed ones; gives up only after exactly maxRetries failed attempts; at most 4 orders per attempt |
| Strategy.CloseFromStep | src/strategies/hedge-strategy.ts:354-422 | one step of the close loop: flat-before ends it without orders, flat-after ends it closed, a failed last attempt leaves a residual, anything else continues |
| Strategy.CloseRetryBudget | src/strategies/hedge-strategy.ts:350-433 | at most maxRetries attempts; "closed" only after positions were seen flat after an attempt's orders; a residual only after exactly maxRetries attempts; only Lighter close orders are reduce-only |
| Strategy.RoundsRun | src/strategies/hedge-strategy.ts:77-110 | rounds run up to and including the first during which stop was called, or all of them |
| Strategy.RoundsRunPast | src/strategies/hedge-strategy.ts:77-110 | after n rounds without a stop request, another round runs when one exists, and the loop ends after it when that round asks to stop |
| Strategy.HedgeStrategy.constructor | src/strategies/hedge-strategy.ts:39-48 | a fresh empty PnL ledger, no orders, not running |
| Strategy.HedgeStrategy.Submit | src/strategies/hedge-strategy.ts:151-154 | appends the order to the submission log |
| Strategy.HedgeStrategy.HandlePartialFill | src/strategies/hedge-strategy.ts:291-318 | submits exactly the compensating order that PartialFillRecovery chooses, and fails when neither leg filled or the order is rejected |
| Strategy.HedgeStrategy.CorrectNetPosition | src/strategies/hedge-strategy.ts:323-345 | submits exactly the correction order, if any, and fails only when it is rejected |
| Strategy.HedgeStrategy.OpenAttempt | src/strategies/hedge-strategy.ts:125-203 | the orders and verdict of one attempt are those Attempt specifies |
| Strategy.HedgeStrategy.OpenRetryLoop | src/strategies/hedge-strategy.ts:122-217 | submits the orders of the open run, and reports exhaustion exactly when the last allowed attempt failed |
| Strategy.HedgeStrategy.OpenPositions | src/strategies/hedge-strategy.ts:121-217 | throws exactly when every allowed attempt failed, after the emergency close; orders and records are those OpenEffect specifies |
| Strategy.HedgeStrategy.SubmitClosePlan | src/strategies/hedge-strategy.ts:377-390 | submits exactly the close plan of the observed positions |
| Strategy.HedgeStrategy.CalculateAndPrintPnL | src/strategies/hedge-strategy.ts:488-505 | records exactly one round: (0, 0) when the Paradex call throws, else Paradex's figure and the Lighter round PnL |
| Strategy.HedgeStrategy.CloseRetryLoop | src/strategies/hedge-strategy.ts:354-422 | submits the orders of the close run, and reports success exactly when an attempt saw both positions flat after its orders |
| Strategy.HedgeStrategy.ClosePositions | src/strategies/hedge-strategy.ts:350-433 | the orders and the single PnL record (only when closed) are those CloseEffect specifies |
| Strategy.HedgeStrategy.EmergencyClose | src/strategies/hedge-strategy.ts:474-481 | a close with round number 0 |
| Strategy.HedgeStrategy.CheckAndRebalance | src/strategies/hedge-strategy.ts:438-451 | an emergency close exactly when abs(net) strictly exceeds maxNetPosition, nothing otherwise |
| Strategy.HedgeStrategy.RunRound | src/strategies/hedge-strategy.ts:78-109 | rebalance check, then opening, then (unless the opening threw) the close of this round; effects as RoundEffect specifies |
| Strategy.HedgeStrategy.Run | src/strategies/hedge-strategy.ts:68-111 | an initialisation failure propagates with the flag set and nothing done; otherwise rounds 1, 2, ... run up to the first stop request, with effects as RunEffect specifies, and the flag ends cleared exactly when stop was called |
| Strategy.HedgeStrategy.Stop | src/strategies/hedge-strategy.ts:517-519 | clears the run flag and submits nothing |

## Left out

- Network, signing and SDK calls are left out because they are not logic of the bot. This covers the Paradex client, the Lighter signer, order-book and account queries, and `initialize`. Each call is replaced by the value it returns or by an acceptance flag.
  - The Paradex client is not part of this model.
  - `paradex.getLastRoundPnL` is a supplied figure, or None when it throws.
- Time and randomness are inputs:
  - Sleeps, hold and interval times, and `Date.now()` are left out or passed as parameters.
  - The fill-timeout clock of `waitForOrdersFilled` becomes the sequence of polls taken before the timeout plus one final observation.
  - The coin flip that picks the Paradex direction is a script field.
  - `randomInt`'s `Math.random()` is the parameter `draw`.
- Logging, Telegram alerts and console summaries are output only and are not modelled. This covers `printCumulativePnL`, `printFinalSummary`, and the alerts in `checkPositions` and `emergencyClose`.
  - `printRoundPnL` is not awaited, and its record is added before its first await, so each round is still recorded.
- Strategy.HedgeStrategy.Run: the model assumes the two alert functions `alertRoundPnL` and `alertSystemStart` exist. `telegram-alert.ts` exports neither, and the program as written stops early because of it:
  - `index.ts:84-85` awaits the undefined `alertSystemStart` inside `main`'s `try`. The call throws a TypeError, and `main` exits the process at `index.ts:93` before `strategy.run()` is ever called.
  - Were that call fixed, the first round that reaches `calculateAndPrintPnL` would still end the program. `pnl-tracker.ts:70-71` awaits the undefined `alertRoundPnL`, so `printRoundPnL` rejects with a TypeError. The callers at `hedge-strategy.ts:498` and `:503` do not await it, so the rejection goes unhandled, and `index.ts:139-142` exits the process. The first round is recorded before that happens.
  - `Run`, `RoundsRun` and `RunEffect` model the loop as if both alerts succeed: rounds 2, 3, ... carry on until stop is requested.
- Strategy.RoundsRun: the main loop runs over a finite supplied sequence of rounds. The source loops until `stop()`; the model does not cover an unbounded run. Monitors.TicksRun does the same for the monitor's ticks.
- Strategy.HedgeStrategy.ClosePositions: the `catch` branch of `closePositions` (`hedge-strategy.ts:423-431`) is not modelled. Both position reads return 0 on error, close submissions go through `Promise.allSettled`, and `calculateAndPrintPnL` catches its own errors, so nothing in the try block throws.
- The source's control flow is restructured, with the same orders and outcome:
  - Strategy.HedgeStrategy.OpenRetryLoop: the `openPositions` loop sits in a helper method and ends through flags rather than through `return` or `throw` inside the loop.
  - Strategy.HedgeStrategy.CloseRetryLoop: likewise for the `closePositions` loop.
- `getCurrentPositions` (`hedge-strategy.ts:456-469`) reads both venues at once. It is a `Positions` snapshot in each script, not a separate member.
- `getAccountOrders` (`lighter-client.ts:386-407`) fetches the 10 newest inactive orders. The model takes the fetched history as given, and a failed query as None, which reads as the empty list.
- The Lighter connector's `createLimitOrder`, `getPositionDetails` and `close` are not used by the hedge loop and are not modelled.
- math-helper's `sleep`, `toFixed`, `safeAdd` and `safeSubtract` are left out. They are a timer and string/float rounding, and floats are modelled as exact reals.
- PnL.FormatPnL: the digits of `toFixed(4)` are an input string. Number-to-string rendering is not modelled.
- LighterConnector.Upper: `toUpperCase` is modelled on the ASCII letters only. Other Unicode case mappings are not covered.
- Floating point is exact `real` arithmetic throughout. `parseFloat`, NaN and rounding error are not modelled. The one exception is Lighter's `accountIndex`, where NaN from `parseInt` is modelled as None.
- The health monitor, the scripts under `scripts/`, environment loading (`load-env.ts`) and process-level handlers in `index.ts` are outside the modelled core.
- The unused `roundStartPnL` field of `HedgeStrategy` is not modelled.
