# Verified model of the HFT service

This project models the decision-making core of the trading service and proves what it is relied on for. It has three
parts.

1. **Strategies** (`Trading`, `Arithmetic`, `Indicators`, `Oscillators`, `Feeds`, `RiskExits`, `Books`, `SymbolStates`,
   `Runs`, `Ledgers`, `CapitalGuard`, `Krobot01`, `Krobot03`, `SupertrendBands`, `Supertrend`, `AiLadder`, `MicroGrid`): the
   per-symbol records that candles and price updates change in place, and the incremental indicators that feed them.
   Every class is proved against a function on values; run theorems are about that function.
2. **The runner** (`CandleGate`, `StrategyModel`, `Runner`, `Deployments`): at-least-once delivery, compute, publish,
   save, acknowledge, crash, restart, pair removal between messages and position-closed events, as a state machine that
   is generic in the strategy.
3. **The order engine and the data loops** (`OrderEngine`, `OrderSync`, `Backfill`, `PriceReference`): exchange, database
   and bus are oracles that answer, refuse or fail at every call.

Prices, quantities and percentages are exact reals; close times and counters are unbounded integers. Python's `x or d`
falls back on zero as well as on a missing value, and the model does so too (`Trading.OrElse`).

How the pieces fit together:

- An indicator object keeps, as a ghost, the inputs it has seen; its `Update` is proved equal to a recomputation from
  them. A strategy holds its indicator objects in a `Panel`, whose `Update` is proved to report what a recomputation from
  all candles fed says; the step functions therefore work on the candles alone.
- The shared risk section is written once, for both sides (`RiskExits.RiskStep`, `Books.RiskOnBook`). The four
  hand-written copies in capital_guard, krobot01 (intrabar and closed candle) and krobot03 are four groups of methods that
  all have this one function as their postcondition.
- `Books` says what one step may do to a record (`Obeys`): which order fits the position, what the counters become, when
  an entry is possible, what the lock allows. `Runs` proves the whole-run theorems for any strategy whose steps obey;
  `ModelIsGuarded` in each strategy module shows that its steps do.
- Beside the theorems about runs, the lemmas named `...Exactly` write each decision out from its raw inputs, without the
  functions that compute it: which condition wins, on which side, at what price, and when nothing happens.
- `Runner` needs two facts about a strategy: it holds at most one position (`SinglePosition`) and it gates closed candles
  by close time (`GatedByCloseTime`). `GuardedIsSinglePosition`, `ModelIsSinglePosition` and `ModelIsGated` supply them.

Assumptions that carry weight, each visible as a precondition or in the definition of a run:

- Entry ids are fresh; handlings of one message do not overlap; any exception of the runner's handler is a crash.
- A pair is removed between messages, or between the save and the acknowledgement of one.
- The bound on the number of handlings of a place-order message asks that all verdicts reach the queue.

Properties that the code has only under a condition, with the condition:

- The trailing level of a LONG never loosens exactly when the trail is at most 100 percent (`LongTrailRatchetsExactly`,
  `WideTrailLoosens`). The code does not check this.
- The supertrend line may rise on the second bar of a down run, because the bar that flips the trend may close above the
  upper band (`FirstDownBarCanRise`), and may fall in an up run after a bar with equal bands, because the code then takes
  the up line for the down line (`EqualBandsLetLineFall`). `LineLoosensExactly` says when, bar by bar.
- Price deliveries converge exactly when the events with a market's greatest event time agree in price
  (`ConvergesExactly`).
- A place-order message is submitted at most once as long as every handling that the exchange accepted but that left no
  row is settled, by an acknowledgement that arrives or by its last attempt (`SubmissionsDistinct`); without that, and
  only then, a run can go on to submit it again (`ResubmissionExactly`).
- A filled manual close is announced exactly if some handling found its row, or was told that it had been inserted, and
  the bus took the event (`CloseAnnouncedExactly`). An insert that happened but was reported as failed loses it for good
  (`ReportedFailureLosesClose`), and so does a bus that refuses until the retries are exhausted
  (`ExhaustedRetriesLoseClose`, `LossIsFinal`).
- An acknowledged candle has taken effect unless it arrived while its pair was removed: then it is acknowledged unseen
  (`DroppedOnlyWhileRemoved`, `RemovalLosesMessage`).
- An AI order that closes a position is tagged as an exit unless the same candle rolled the take-profit target before
  the language model asked to leave (`MistaggedExactly`): it then carries HOLD, and the runner, which takes neither an
  entry nor an exit from that tag, keeps the entry id of the closed position.

## Model

| member | source | states |
|---|---|---|
| Indicators.EMA.Update | strategy/core/indicators.py:13-19 | the incremental value equals the EMA recomputed from all prices seen |
| Indicators.EmaInRange | strategy/core/indicators.py:5-19 | over every history the EMA lies between any bounds of its inputs |
| Indicators.EmaMoves | strategy/core/indicators.py:13-19 | the EMA starts at the first price and moves alpha of the way towards each further one |
| Indicators.RMA.Update | strategy/core/indicators.py:31-43 | the incremental value equals the Wilder average recomputed from all inputs, and is missing exactly while unseeded |
| Indicators.RmaInRange | strategy/core/indicators.py:22-43 | over every history a seeded RMA lies between any bounds of its inputs |
| Indicators.RmaMoves | strategy/core/indicators.py:31-43 | the RMA starts at the mean of its first n inputs and moves the n-th part of the way towards each further one |
| Indicators.RollingVWAP.Update | strategy/core/indicators.py:55-70 | running sums and buffer agree with the last `window` trades; the result is the recomputed ratio |
| Indicators.VwapWithinTradedPrices | strategy/core/indicators.py:46-70 | the VWAP exists exactly when the window holds volume, and then lies between the least and greatest price with positive volume |
| Indicators.RollingMean.Update | strategy/capital_guard.py:27-37 | the running total agrees with the last `window` values, negative ones counted as zero; the result is their mean, missing until the window is full |
| Indicators.DeviationExpands | strategy/core/indicators.py:199-216 | a sum of squared deviations from any point equals its expansion into the sum of squares and the sum, and is never negative |
| Indicators.VarianceFromSums | strategy/core/indicators.py:213-215 | sum of squares over n minus the squared mean is the mean squared deviation, so clamping it at zero changes nothing |
| Indicators.BollingerBands.Update | strategy/core/indicators.py:199-219 | after any number of updates both running sums are those of exactly the last `window` prices, and lower, mean and upper are those recomputed from their squared deviations |
| Indicators.BandsAreDeviations | strategy/core/indicators.py:213-219 | the bands lie symmetrically around the mean, at a squared distance of mult squared times the mean squared deviation |
| Oscillators.FlagFlipNeedsCross | strategy/core/indicators.py:93-113 | between one sticky flag and the other the line-minus-signal difference really changed sign |
| Oscillators.MacdFollowsRise | strategy/core/indicators.py:93-97 | while prices have never fallen the faster EMA is not below the slower, so the line is not negative, and it is positive right after a rise |
| Oscillators.MacdFollowsFall | strategy/core/indicators.py:93-97 | the mirror image for falling prices |
| Oscillators.MACD.Update | strategy/core/indicators.py:93-113 | the sticky flags encode the sign of the most recent non-zero difference and are never both set |
| Oscillators.MACD.Cross | strategy/core/indicators.py:97-111 | the flag logic keyed on the previous difference amounts to: set by a non-zero difference, otherwise sticky |
| Oscillators.ATR.Update | strategy/core/indicators.py:124-135 | the result is the Wilder average of all true ranges of the bars seen |
| Oscillators.TrueRangeExactly | strategy/core/indicators.py:124-133 | the true range is the largest of the bar's range and its two distances from the close before |
| Oscillators.AtrNonNegative | strategy/core/indicators.py:116-135 | the ATR is never negative when high is at least low on each bar |
| Oscillators.RSI.Update | strategy/core/indicators.py:231-253 | the result is the RSI recomputed from all closes seen |
| Oscillators.RsiExactly | strategy/core/indicators.py:239-253 | the RSI is the share of the average gain in the average movement, in percent, and 100 without losses |
| Oscillators.RsiInRange | strategy/core/indicators.py:222-253 | over every price history the RSI lies in 0 to 100 |
| Oscillators.Stochastic.Update | strategy/core/indicators.py:266-298 | %K and %D equal those recomputed from all bars seen; bars with an empty range are skipped in %D |
| Oscillators.PercentKExactly | strategy/core/indicators.py:280-287 | %K is where the close stands between the lowest low and the highest high of the window, and missing exactly when there is no range |
| Oscillators.StochasticInRange | strategy/core/indicators.py:256-298 | %K and %D lie in 0 to 100 when low, close and high are ordered on each bar |
| RiskExits.ExitPricing | strategy/capital_guard.py:208-291 | stop losses are priced on the losing side of the entry, take profits on the winning side, trailing exits no better than the trail |
| RiskExits.DecisionExactly | strategy/capital_guard.py:208-291 | written out per side: stop loss before take profit before trailing stop, each exactly when active and touched, at the worse or better of close and level; otherwise what is tracked |
| RiskExits.LevelsExactly | strategy/capital_guard.py:219-227 | a level lies the configured percentage of its base away from it, on either side |
| RiskExits.TrackedExactly | strategy/capital_guard.py:217-227 | over any run within one position the extreme is the best price seen, and the trail is armed exactly if it was or some candle reached the trigger |
| RiskExits.HeldExactlyInside | strategy/capital_guard.py:208-291 | a position stays open if and only if the candle is strictly inside all active levels |
| RiskExits.RiskStepTwice | strategy/capital_guard.py:208-291 | applying the same update twice gives the same position as once and no second signal |
| RiskExits.TrailRatchets | strategy/capital_guard.py:208-291 | over any run of positive prices an armed trail stays armed and its level never loosens |
| RiskExits.WideTrailLoosens | strategy/capital_guard.py:222-229 | a LONG and a candle on which a trail wider than 100 percent loosens |
| RiskExits.LongTrailRatchetsExactly | strategy/capital_guard.py:222-229 | the ratchet holds for LONG positions if and only if the trail is at most 100 percent |
| Books.RiskOnBookFacts | strategy/capital_guard.py:160-186 | a risk section keeps the record sound, signals exactly when it closes the position, and otherwise touches only the position |
| Books.DebtIsWorkedOff | strategy/capital_guard.py:352-384 | after a stop loss the record stays flat with enough cool-off left until as many fresh candles have passed as were charged |
| Books.CoolOff | strategy/capital_guard.py:160-186 | between a stop loss and any later entry lie at least as many fresh candles as the stop loss charged |
| Books.LockIsHeld | strategy/capital_guard.py:188-193 | a re-entry lock and flatness persist until a later candle shows the opposite flag |
| Books.ReentryNeedsOpposingFlag | strategy/capital_guard.py:391-414 | between leaving a side and entering it again some candle strictly in between showed the opposite flag |
| SymbolStates.SymbolState.ResetPosition | strategy/capital_guard.py:160-186 | the field-by-field reset flattens, locks the exited side, and charges cooldown, streak and pause as the record function says |
| SymbolStates.SymbolState.UpdateReentryLock | strategy/capital_guard.py:188-193 | the lock is released exactly by the opposite flag |
| SymbolStates.SymbolState.OpenPosition | strategy/capital_guard.py:395-404 | the whole record after an entry |
| SymbolStates.SymbolState.OnExternalClose | strategy/core/framework.py:289-308 | an outside close flattens, never shortens a running cooldown, and locks the side that was held |
| CapitalGuard.TrendPanel.Update | strategy/capital_guard.py:308-315 | after any candles the three EMAs and the MACD flags are those of the whole close history |
| CapitalGuard.Panel.Update | strategy/capital_guard.py:308-330 | after any candles the readings and readiness of all indicator objects are those recomputed from the whole feed |
| CapitalGuard.CapitalGuardStrategy.RiskExit | strategy/capital_guard.py:208-291 | the risk section makes the shared decision, price and record |
| CapitalGuard.CapitalGuardStrategy.OnPriceUpdate | strategy/capital_guard.py:293-296 | an intrabar price goes through the shared risk section and nothing else |
| CapitalGuard.CapitalGuardStrategy.OnClosedCandle | strategy/capital_guard.py:298-416 | gate, indicators, lock release, risk, timeout, protective exit, pause, cooldown and entry, as the step function says |
| CapitalGuard.ReadingsExactly | strategy/capital_guard.py:318-329 | exactly when the indicators are ready, and what the two percentages mean |
| CapitalGuard.HeldSignalExactly | strategy/capital_guard.py:331-375 | on an open position the risk decision, then the holding limit or the protective exit, decides order, side and price; otherwise the bar is counted |
| CapitalGuard.EntrySignalExactly | strategy/capital_guard.py:377-416 | without a position: pause, then cooldown, then BUY or SELL at the close exactly when all filters agree on an unlocked side |
| CapitalGuard.LockExactly | strategy/capital_guard.py:160-193 | an exit locks the side it leaves; otherwise the lock goes exactly when the flag stands against it |
| CapitalGuard.StepIsGuarded | strategy/capital_guard.py:208-416 | every event from a sound record keeps it sound, raises at most the one order that fits the position, at the close for entries and own exits, charges the counters exactly, and obeys cool-off and lock |
| CapitalGuard.ModelIsGuarded | strategy/capital_guard.py:40-416 | from any warm-up the strategy starts flat and obeys on every step, so the run theorems apply to it |
| CapitalGuard.ModelIsGated | strategy/capital_guard.py:298-303 | a stale closed candle changes nothing and a newer one is remembered |
| Krobot01.Panel.Update | strategy/krobot01.py:261-266 | after any candles the readings and readiness of all indicator objects are those recomputed from the whole feed |
| Krobot01.Krobot01Strategy.OnPriceUpdate | strategy/krobot01.py:136-252 | the intrabar copy of the risk section makes the shared decision, price and record |
| Krobot01.Krobot01Strategy.ClosedCandleRisk | strategy/krobot01.py:281-381 | the closed-candle copy of the risk section makes the shared decision, price and record |
| Krobot01.Krobot01Strategy.OnClosedCandle | strategy/krobot01.py:254-442 | gate, indicators, lock release, risk, pause, cooldown and entry, as the step function says |
| Krobot01.Krobot01Strategy.SeekEntry | strategy/krobot01.py:383-442 | pause before cooldown before entry, each consuming the candle, and no entry on a locked side |
| Krobot01.LiveSignalExactly | strategy/krobot01.py:281-442 | risk decision, then pause, cooldown and held check, then BUY or SELL at the close exactly when EMA, VWAP and MACD agree on an unlocked side |
| Krobot01.LockExactly | strategy/krobot01.py:100-134 | an exit locks the side it leaves; otherwise the lock goes exactly when the flag stands against it |
| Krobot01.StepIsGuarded | strategy/krobot01.py:136-442 | every event from a sound record keeps it sound, raises at most the one order that fits the position, at the close for entries and own exits, charges the counters exactly, and obeys cool-off and lock |
| Krobot01.ModelIsGuarded | strategy/krobot01.py:20-442 | from any warm-up the strategy starts flat and obeys on every step |
| Krobot01.ModelIsGated | strategy/krobot01.py:254-260 | a stale closed candle changes nothing and a newer one is remembered |
| Krobot03.Panel.Update | strategy/krobot03.py:265-291 | after any unpaused candles the crossings, filters and readiness of all indicator objects are those recomputed from the feed |
| Krobot03.Krobot03Strategy.OnPriceUpdate | strategy/krobot03.py:166-245 | the intrabar risk section makes the shared decision, price and record, without a lock |
| Krobot03.Krobot03Strategy.OnClosedCandle | strategy/krobot03.py:247-364 | gate, pause, cooldown, indicators, timeout, cross exit and entry, as the step function says; a paused candle feeds no indicator |
| Krobot03.ReadingsExactly | strategy/krobot03.py:145-164 | crossings, readiness and the two entry filters, written out from the indicator values |
| Krobot03.LiveSignalExactly | strategy/krobot03.py:254-364 | pause, readiness, holding limit, opposite crossing, cooling and filtered crossing decide order, side and price, exactly |
| Krobot03.StepIsGuarded | strategy/krobot03.py:121-364 | every event from a sound record keeps it sound, raises at most the one order that fits the position, at the close for entries and own exits, charges the counters exactly, and obeys the cool-off |
| Krobot03.ModelIsGuarded | strategy/krobot03.py:18-364 | from any warm-up the strategy starts flat and obeys on every step |
| Krobot03.ModelIsGated | strategy/krobot03.py:247-252 | a stale closed candle changes nothing and a newer one is remembered |
| Runs.RunIsSound | strategy/capital_guard.py:160-186 | in every reachable state: no pause while a position is open, the streak below its limit, the holding time below its limit |
| Runs.StopLossCoolOff | strategy/capital_guard.py:352-384 | in every run, between a stop loss and any later entry lie at least max(cooldown, stop-loss cooldown) fresh candles, plus the pause when the streak limit was hit |
| Runs.ReentryNeedsFreshCross | strategy/krobot01.py:128-134 | in every run, a side once left, by its own exit or from outside, is entered again only after the flag stood against it and the MACD difference then turned its way |
| Runs.GuardedIsSinglePosition | strategy/core/framework.py:1190-1263 | a guarded strategy's orders alternate, each exit opposite to its entry, and account exactly for its change of side |
| Ledgers.PositionIsOneUnit | strategy/core/framework.py:240-244 | in every run of a single-position strategy the account, counted order by order from BUY and SELL, stands at -1, 0 or +1, entries start from flat, exits end flat, and the count is the side on record |
| SupertrendBands.BandsConsistent | strategy/supertrend.py:60-116 | over every history the line is the band the trend names, and bands exist exactly once the ATR is seeded |
| SupertrendBands.BandsRatchet | strategy/supertrend.py:78-92 | each band is the tighter of old and basic until a close breaks through it, and loosens if and only if the last close was beyond it and the basic band is looser |
| SupertrendBands.FirstBandsExactly | strategy/supertrend.py:66-80 | the first bands lie around the middle of the bar, the configured multiple of the ATR, at least a tenth, on either side |
| SupertrendBands.TurnsExactly | strategy/supertrend.py:91-116 | a down trend turns exactly on a close above the new upper band, an up trend with distinct bands exactly on a close below the new lower one |
| SupertrendBands.LineLoosensExactly | strategy/supertrend.py:73-109 | when a trend goes on, its line loosens if and only if the last close was beyond it and the new basic band is looser |
| SupertrendBands.ContinuedTrendSettles | strategy/supertrend.py:83-109 | a trend that goes on leaves its close on the right side of the line; an up trend needs distinct bands |
| SupertrendBands.LineOnlyTightens | strategy/supertrend.py:60-116 | from the second bar of any down run the line never rises, and of any up run it never falls while the bands are distinct |
| SupertrendBands.FirstDownBarCanRise | strategy/supertrend.py:83-109 | a history in which the line rises from the first to the second bar of a down run |
| SupertrendBands.EqualBandsLetLineFall | strategy/supertrend.py:95-109 | a history in which equal bands let the line fall inside an up run |
| Supertrend.SupertrendStrategy.UpdateSupertrend | strategy/supertrend.py:60-116 | the stored bands, line and trend equal those recomputed from all bars seen |
| Supertrend.SupertrendStrategy.FollowTrend | strategy/supertrend.py:186-237 | unlock, then exit before the reversing entry, as the step function says |
| Supertrend.SupertrendStrategy.OnClosedCandle | strategy/supertrend.py:166-237 | gate, bands, warm-up and trend following, as the step function says |
| Supertrend.SupertrendStrategy.OnExternalClose | strategy/core/framework.py:289-308 | an outside close flattens and locks the side that was held |
| Supertrend.FollowKeeps | strategy/supertrend.py:186-237 | after a live bar the position is on the trend's side, or flat with exactly that side locked; the signals account for the change |
| Supertrend.LiveSignalsExactly | strategy/supertrend.py:186-237 | no order on the trend's side or locked out of it, else the entry, after the exit of an opposite position; the lock survives exactly while the trend stays on its side |
| Supertrend.RunFollowsTrend | strategy/supertrend.py:166-237 | in every run a lock implies flat, and every live bar with a trend leaves the position on its side unless locked |
| Supertrend.ReentryNeedsTurn | strategy/supertrend.py:188-190 | after an outside close a side is entered again only once the trend has turned against it in between |
| Supertrend.ModelIsSinglePosition | strategy/supertrend.py:118-237 | from any warm-up, every step's signals alternate and account for the change of position |
| Supertrend.ModelIsGated | strategy/supertrend.py:166-168 | a stale closed candle changes nothing and a newer one is remembered |
| AiLadder.AiPosition.PositionRiskExit | strategy/ai.py:1034-1167 | both hand-written sides make one side-symmetric decision: roll, take profit, trailing or stop loss, timeout |
| AiLadder.AiPosition.CloseLong | strategy/ai.py:1188-1232 | closing resets the ladder and the active percentages and charges the cool-off; a tag already in the metadata survives |
| AiLadder.AiPosition.CloseShort | strategy/ai.py:1234-1278 | closing resets the ladder and the active percentages and charges the cool-off; a tag already in the metadata survives |
| AiLadder.AiPosition.OnClosedCandle | strategy/ai.py:1412-1420 | risk first, then a requested exit, with the metadata of the candle shared between the two |
| AiLadder.MistaggedExactly | strategy/ai.py:1072-1087 | an order that closes the position is tagged HOLD instead of an exit if and only if the same candle rolled the target before the exit was requested |
| AiLadder.LongDecisionExactly | strategy/ai.py:1034-1101 | written out for a LONG: roll or take profit at the target, then the tighter of stop and trail under its own name, then the holding limit, with prices and charges |
| AiLadder.ShortDecisionExactly | strategy/ai.py:1102-1165 | the same for a SHORT |
| AiLadder.StepKeeps | strategy/ai.py:1034-1167 | one event keeps the ladder; a roll moves the anchor strictly on, and nothing else moves it |
| AiLadder.LadderHolds | strategy/ai.py:1034-1167 | in every run the anchor lies between entry and best price, equals the entry times the product of the rolled factors, and the count is zero exactly when the anchor is the entry; for both sides |
| MicroGrid.MicroGridStrategy.OnClosedCandle | strategy/micro_grid.py:30-93 | anchor, cooldown, trend filter and queue of open buys change as the step function says |
| MicroGrid.LiveBarExactly | strategy/micro_grid.py:41-93 | a buy exactly at or below the lower line with the trend known and not above the price, a sale of the oldest buy exactly at or above the upper line if there is one, and what becomes of anchor and cooldown |
| MicroGrid.QuietBarExactly | strategy/micro_grid.py:32-39 | a stale bar changes nothing; a warm-up bar or the first one only sets the anchor |
| MicroGrid.GridIsFifo | strategy/micro_grid.py:57-91 | in every run the entries sold, followed by the open ones, are exactly the entries bought, in order |
| MicroGrid.NoDoubleSale | strategy/micro_grid.py:74-91 | with fresh ids no entry is sold twice and none is both sold and open |
| MicroGrid.StepMovesAnchor | strategy/micro_grid.py:37-79 | a live step moves the anchor exactly when a grid line is crossed, and then by at least one step |
| MicroGrid.AnchorFalls | strategy/micro_grid.py:45-72 | after k downward crossings and no upward one the anchor is at most a0 (1 - step)^k |
| MicroGrid.AnchorRises | strategy/micro_grid.py:45-79 | after k upward crossings and no downward one the anchor is at least a0 (1 + step)^k |
| CandleGate.StrategyBase.AllowNewCandle | strategy/core/framework.py:226-238 | the per-symbol and the symbol-less slot are updated as the gate function says |
| CandleGate.AdmittedExactly | strategy/core/framework.py:226-238 | a candle is admitted if and only if its close time is positive and newer than every earlier arrival of its symbol |
| Runner.StepKeeps | strategy/core/framework.py:1031-1295 | every protocol step, crashes, removals and interleaved closes included, keeps the invariant linking memory, store, history, bus and acknowledgements |
| Runner.CrashRecovery | strategy/core/framework.py:1031-1295 | in every run the store is the strategy folded over a history in which each closed candle took effect at most once and in order, every acknowledged message is in it or came while the pair was removed, and every signal of it was published |
| Runner.DroppedOnlyWhileRemoved | strategy/core/framework.py:1308-1314 | a message is acknowledged unseen if and only if it arrived while the pair was removed |
| Runner.RemovalLosesMessage | strategy/core/framework.py:1352-1369 | for every strategy and message a run that acknowledges the message during a removal, after which it never takes effect |
| Runner.EffectsIncrease | strategy/core/framework.py:226-238 | the close times of candles that took effect strictly increase |
| Runner.CloseEvents | strategy/core/framework.py:1518-1565 | in whatever interleaving, also between the save and the acknowledgement of a candle, a position-closed event closes the position if and only if its id is the stored open entry, and otherwise changes nothing; saving it stores the flat state without an id and records it once |
| Runner.ClosedOnce | strategy/core/framework.py:1544-1553 | in the history of every run no id is closed from outside twice |
| Runner.MessageGetsThrough | strategy/core/framework.py:1163-1288 | whenever the pair is idle a message can be carried through: exactly its signals are published in order, its new state is stored, it is in the history and acknowledged |
| Runner.OrderPairing | strategy/core/framework.py:1190-1263 | in every crash-free run, removals and outside closes included, each exit is the opposite order under the id of the entry just before it, and an entry without exit was closed from outside; between messages the position is open, on the side of that entry, exactly when its id is stored; without outside closes entries and exits alternate |
| Deployments.DependableRun | strategy/core/framework.py:1031-1565 | a gated single-position strategy is recoverable, handles close events rightly and pairs its orders |
| Deployments.CapitalGuardDependable | strategy/capital_guard.py:298-416 | recovery, close events and order pairing for capital_guard, from any warm-up, in every run |
| Deployments.Krobot01Dependable | strategy/krobot01.py:254-442 | recovery, close events and order pairing for krobot01, from any warm-up, in every run |
| Deployments.Krobot03Dependable | strategy/krobot03.py:247-364 | recovery, close events and order pairing for krobot03, from any warm-up, in every run |
| Deployments.SupertrendDependable | strategy/supertrend.py:166-237 | recovery, close events and order pairing for supertrend, from any warm-up, in every run |
| Deployments.CapitalGuardIsOneUnit | strategy/capital_guard.py:298-416 | the account of capital_guard is one unit in every run, and agrees with its record |
| Deployments.Krobot01IsOneUnit | strategy/krobot01.py:254-442 | the account of krobot01 is one unit in every run, and agrees with its record |
| Deployments.Krobot03IsOneUnit | strategy/krobot03.py:247-364 | the account of krobot03 is one unit in every run, and agrees with its record |
| Deployments.SupertrendIsOneUnit | strategy/supertrend.py:118-237 | the account of supertrend is one unit in every run, and agrees with its record |
| OrderEngine.OrderEngineService.GetByRequestId | internal/repository/order_history.repository.go:112-119 | the lookup finds the first row with the request id, or none exactly when there is none |
| OrderEngine.OrderEngineService.PublishManualPositionClosed | internal/service/orderengine/order_engine.service.go:247-259 | only a filled manual close is announced, and a failed announcement is an error |
| OrderEngine.OrderEngineService.Place | internal/service/orderengine/order_engine.service.go:142-245 | checks, duplicate lookup, paper or exchange, insert, announcement and notification, as the handling function says |
| OrderEngine.OrderEngineService.HandlePlaceOrderEvent | internal/service/orderengine/order_engine.service.go:109-140 | which errors are dropped and which are reported for retry |
| OrderEngine.SubmitsExactly | internal/service/orderengine/order_engine.service.go:184-224 | a handling submits if and only if it passes the checks, finds no row, and the exchange accepts a live order |
| OrderEngine.InsertsExactly | internal/service/orderengine/order_engine.service.go:198-230 | a handling inserts exactly the row of its request, with its ids and reason, filled if it is a paper order or the exchange said so |
| OrderEngine.SucceedsExactly | internal/service/orderengine/order_engine.service.go:109-245 | exactly when a handling reports no error, written out from the request, the table and the answers |
| OrderEngine.VerdictExactly | internal/util/event.go:33-66 | acknowledged exactly without an error and in time, else retried after twice the attempts in seconds exactly below the limit |
| OrderEngine.SubmittedExactly | internal/service/orderengine/order_engine.service.go:184-224 | in every run a message has been submitted if and only if some handling took its live order on |
| OrderEngine.StoredRowsExactly | internal/service/orderengine/order_engine.service.go:198-230 | in every run the rows are exactly those of the requests that handlings took on and inserted |
| OrderEngine.OneRowPerRequest | internal/service/orderengine/order_engine.service.go:184-196 | in every run at most one row exists per request id, although the table has no unique index on it |
| OrderEngine.AtMostOneSubmission | internal/service/orderengine/order_engine.service.go:184-230 | two handlings that both reached the exchange are of different messages, provided a submission that left no row is settled |
| OrderEngine.SubmissionsDistinct | internal/service/orderengine/order_engine.service.go:109-245 | in every such run the list of accepted submissions names no message twice |
| OrderEngine.ResubmissionExactly | internal/service/orderengine/order_engine.service.go:219-230 | a run that ends by submitting a message can be continued to submit it again if and only if that handling left no row and was not settled |
| OrderEngine.HandledAtMost | internal/util/event.go:14-66 | when every verdict gets through, a message is handled at most max(1, maxRetry) times |
| OrderEngine.HandlingAnnouncesExactly | internal/service/orderengine/order_engine.service.go:190-238 | one handling announces the closing row of its request if and only if it found the row or was told of its insert, and the bus took the event; it announces nothing else |
| OrderEngine.CloseAnnouncedExactly | internal/service/orderengine/order_engine.service.go:184-259 | in every run a filled manual close in the table was announced if and only if some handling of its request secured the row and had its event taken |
| OrderEngine.AckedAnnouncesExactly | internal/service/orderengine/order_engine.service.go:127-140 | an acknowledged handling announces its closing row exactly unless the insert took place but was reported as failed |
| OrderEngine.LossIsFinal | internal/util/event.go:33-57 | once the only message of a request is settled, a closing row that it has not announced never is |
| OrderEngine.ReportedFailureLosesClose | internal/service/orderengine/order_engine.service.go:226-230 | for every retry limit a run in which an insert that was reported as failed loses the announcement |
| OrderEngine.ExhaustedRetriesLoseClose | internal/util/event.go:42-49 | for every retry limit a run in which the bus refuses the event on every attempt and the terminated message loses the announcement |
| OrderSync.StatusMeaning | internal/service/exchange/binance.exchange.go:927-946 | exactly which exchange codes mean FILLED and which leave a row pending |
| OrderSync.MapOrderHistorySyncResponse | internal/service/exchange/binance.exchange.go:851-903 | the field-by-field patch of the copy, including both parse errors |
| OrderSync.MappedExactly | internal/service/exchange/binance.exchange.go:851-903 | exactly when an answer can be used, and every field of the row it leaves: status by the code, executed quantity, average price times quantity as paid, gaps filled |
| OrderSync.PassExactly | internal/service/orderengine/order_history_sync.service.go:53-112 | over a whole pass a row changes if and only if it is visited, readably answered, its due close taken and its update stored, and is then as answered; its close is announced if and only if it is a visited manual close answered FILLED that the bus took |
| OrderSync.MappedEvolves | internal/service/exchange/binance.exchange.go:870-900 | an answer never overwrites the fill time, creation time, client order id or a non-blank order id |
| OrderSync.PendingAmongFacts | internal/repository/order_history.repository.go:327-351 | exactly the NEW and PARTIAL rows are visited, newest first, each once |
| OrderSync.OrderHistorySyncService.SyncPendingOrderHistories | internal/service/orderengine/order_history_sync.service.go:53-112 | the loop over copies loaded at the start equals a pass over the current rows, stopping when cancelled |
| OrderSync.SyncIsSafe | internal/service/orderengine/order_history_sync.service.go:53-112 | over every sequence of passes: settled rows never change, the write-once fields are write-once, a manual close that turned FILLED was announced since, and always before it was written |
| Backfill.MarketKlines.BackfillMarketKlines | internal/service/exchange/kline_backfill.go:86-141 | the loop terminates; whatever fails, the candles stored are the first ones wanted, as many as counted; all of them if nothing failed |
| Backfill.NextPageStarts | internal/service/exchange/kline_backfill.go:130-137 | restarting one millisecond after the last stored candle finds exactly the rest |
| Backfill.StoredExactly | internal/repository/market_kline.repository.go:71-87 | upserting ascending candles one by one leaves each of them under its key and every other key as it was |
| Backfill.BackfillComplete | internal/repository/market_kline.repository.go:71-87 | afterwards every candle of the range is under its key, every other key is as it was, and a second run changes nothing |
| PriceReference.PriceReferenceRepository.UpsertKline | internal/repository/price_reference.repository.go:70-81 | insert, or overwrite unless the stored event is newer |
| PriceReference.LatestWins | internal/repository/price_reference.repository.go:70-81 | after any deliveries a market's row has the greatest event time and the price of the last delivery that carried it |
| PriceReference.OrderDoesNotMatter | internal/repository/price_reference.repository.go:70-81 | any two orders of the same events leave the same table when the events with a market's greatest event time agree in price |
| PriceReference.ConvergesExactly | internal/repository/price_reference.repository.go:70-81 | for every sequence of events, all orders leave the same table if and only if the events with a market's greatest event time agree in price |

## Left out

- Floating-point rounding, and the `round(...)` calls in order metadata.
- The square root of the Bollinger bands is a parameter, about which `BandsAreDeviations` assumes only that it is one.
- Order metadata other than action, price and trade condition; the inference of trade condition, reason and profit in the runner.
- The runner's message filters ahead of the strategy (malformed payloads, symbol, interval and market mismatches, disabled intrabar updates), which acknowledge without touching the strategy.
- The stored entry price, which changes exactly together with the stored entry id; the Redis time-to-live.
- Several pairs in one runner: the runner model is of one pair; pairs share nothing but the id generator.
- Deletion of the stored state on removal (`redis_delete_removed_state`), after which a pair starts over from its warm-up.
- Cancellation of a worker in the middle of a message by `reconcile_pairs`, and `reset_runtime_state`: both break the publish-before-save order.
- Overlapping handlings after an acknowledgement timeout, in the runner and in the order engine.
- The language model of the AI strategy, its prompts and its entry gates: whether it enters, leaves, overrides percentages or allows a roll is an arbitrary input.
- krobot02, which can change side without an exit signal, and the anchored VWAP, which none of the modelled strategies uses.
- micro_grid behind the runner: the runner remembers one entry id while the grid keeps many.
- OrderEngine.OrderEngineService.Place: the text normalisation of side, market type, position side and exit type is an input (`sideValid`, `entryId`), because it would only add case tables.
- OrderSync.MapOrderHistorySyncResponse: trims and upper-cases ASCII only, and leaves out the market type, which is rewritten to its normal form.
- OrderSync.StatusMeaning: trims and upper-cases ASCII only.
- Tokocrypto's order sync and the order-report queries.
- Backfill.MarketKlines.BackfillMarketKlines: the exchange answers each request with the ascending first candles of the range; row parsing is folded into the oracle that may refuse a row. Creation and update times of a stored candle are not modelled.
- Delivery, storage and transport mechanics (NATS, Redis, Postgres, HTTP, websockets), authentication, dashboards, generated code and configuration loading.
