# Volatility-spread options trader: the OnData decision engine

This project models the per-tick trading logic of a QuantConnect algorithm
that trades at-the-money straddles on index ETFs according to the spread
between historical and implied volatility. At every tick `OnData` does the following:

1. It stops while the algorithm is warming up.
2. When the VIX indicator is switched on, it records whether the VIX has spiked.
   On a spike it closes every listed short straddle and pauses every listed ticker.
3. At 15:40 it closes every listed ticker whose recorded expiration is today.
4. It closes every listed short straddle whose pair of contracts now asks more than its stop-loss level.
5. On the hour it scans the option chains. For each chain it:
   - keeps the farthest expiry;
   - picks the at-the-money call and put;
   - honours or counts down the ticker's trading pause;
   - applies the first exit rule that fires (bound breach, extreme volatility, volatility spike);
   - otherwise enters the long or short straddle that the spread calls for.

The state is five per-ticker dictionaries: `status`, `option_symbols`,
`expiration`, `days_pause_left` and `stop_loss`. The algorithm
appends the orders and liquidations it places to an effect log.

Modules:

- `Types` (types.dfy) holds the values:
  - contracts and clocks;
  - strategy labels;
  - the configuration fixed by `Initialize`;
  - the host's inputs for a tick (`Tick`, `Market`);
  - the effects handed to the host;
  - how a piece of `OnData` ends (`Flow`): it runs through, it hits `return`, or it raises.
- `Selection` (selection.dfy) holds contract selection as pure functions:
  - the farthest expiry;
  - the call/put split;
  - the moneyness filters;
  - the stable sort by `|spot - strike|` (Python's `sorted`);
  - the at-the-money pick and the tier picks.
- `Rules` (rules.dfy) holds the pure decision rules:
  - the strategy choice;
  - the exit priority and the pause each exit sets;
  - leg sizing and the stop-loss level;
  - the leg recipes of the multi-leg strategies.
- `Engine` (engine.dfy) holds `OnData` as functions on a value (`Book`), one per phase.
  Its lemmas state what each phase does and the invariant every tick keeps.
- `Algorithm` (algorithm.dfy) holds the class `OptionTrading`. It updates its dictionary
  field in place, in the loops of the source. Each method is proved to produce exactly
  the state and the outcome that the matching `Engine` function gives.
- `Settings` (settings.dfy) holds the constants of `Initialize` and what follows from them.
  In particular, the shipped bounds make the long straddle unreachable.

The five dictionaries always share their keys (the four tickers of
`Initialize`). The class therefore keeps them as one dictionary from ticker
to a `Row` of five entries: writing `self.status[u]` is writing the status
of row `u`.

The model follows the code as written, including where it departs from what
the algorithm's comments suggest:

- Bound-breach, extreme-volatility, VIX and expiration exits leave `option_symbols`
  and `stop_loss` as they were. So "status is None" coincides with "no expiration"
  but not with "no recorded pair", and a stop-loss level can outlive its position.
  The invariant `Engine.RowOk` states what does hold.
- A chain with no calls or no puts at its farthest expiry ends the whole of `OnData`
  (`return`). It does not skip only that underlying.
- A Strangle or Butterfly with too few out- or in-the-money contracts also ends `OnData`.
  A Condor, Iron Butterfly or Iron Condor indexes its tiers without a guard and raises.
- The straddle branches place orders even when the sizing gives 0: the long branch's
  zero check (main.py:281) is commented out and the short branch has none.
- The multi-leg branches compare the whole `status` dictionary with `"None"`.
  That test never holds, so they never place an order.

## Model

| member | source | states |
|---|---|---|
| Selection.MaxExpiry | Code/main.py:179 | the farthest expiry of a non-empty chain is the expiry of one of its contracts, and no contract expires later |
| Selection.FrontMonth | Code/main.py:179-180 | a contract is kept exactly when it is in the chain and has the farthest expiry, and then as often as the chain lists it; the result is non-empty and nothing in the chain expires later |
| Selection.OfRight | Code/main.py:183-184 | keeps exactly the contracts of the given right (calls `Right == 0`, puts `Right == 1`) |
| Selection.OtmCalls | Code/main.py:334 | a call is kept exactly when it strikes above the spot, as often as the input lists it |
| Selection.ItmCalls | Code/main.py:364 | a call is kept exactly when it strikes below the spot, as often as the input lists it |
| Selection.OtmPuts | Code/main.py:335 | a put is kept exactly when it strikes below the spot, as often as the input lists it |
| Selection.SortByDistance | Code/main.py:189 | the sort keyed by `abs(UnderlyingLastPrice - Strike)` returns a permutation of its input in non-decreasing distance |
| Selection.SortStable | Code/main.py:189 | the sort is stable: for every distance, the contracts at that distance keep their input order |
| Selection.SortIdempotent | Code/main.py:189 | sorting an already sorted list changes nothing, so repeating the selection picks the same contracts |
| Selection.Atm | Code/main.py:189-190 | `sorted(...)[0]` is a contract of the list and no contract of the list lies nearer the spot |
| Selection.NearestIndex | Code/main.py:189 | reference definition: the first index whose contract has the least distance |
| Selection.OrderStatistic | Code/main.py:338 | in a list sorted by distance, position k holds the k-th nearest contract |
| Selection.SelectionsKeepOrder | Code/main.py:180-184 | the expiry, call/put and moneyness filters keep the chain's order: on a chain in two parts, what they keep from the first part comes first |
| Selection.AtmIsFirstNearest | Code/main.py:189-190 | the at-the-money pick is the first contract of least distance in input order, so ties go to the earliest contract |
| Selection.TierPick | Code/main.py:336-339 | `sorted(...)[k]` exists exactly when the list holds at least k + 1 contracts, and is then the k-th nearest contract of the list: at most k lie strictly nearer the spot and more than k lie no farther |
| Rules.StrategyFor | Code/main.py:262-266 | the long side gives LongStrat, the short side ShortStrat, and the label is "None" exactly when neither side was picked |
| Rules.Choose | Code/main.py:262-266 | long exactly when LongBound < spread <= ExtremeVolBoundUpper; short exactly when that fails and ExtremeVolBoundLower <= spread < ShortBound; no trade otherwise, so long wins where both hold |
| Rules.StrategyChoice | Code/main.py:262-266 | the label: LongStrat whenever the long range holds; with two different labels, LongStrat exactly on the long range and ShortStrat exactly on the short range outside it; "None" exactly when neither range holds |
| Rules.ExitRule | Code/main.py:222-259 | the first exit that applies, in source order: long breach exactly when long and spread < LongBound; short breach exactly when not that and short and spread > ShortBound; extreme volatility only outside the extreme bounds; spike only inside them with historic_vol_spread > vol_spike; none exactly when no condition holds |
| Rules.ExitPause | Code/main.py:222-259 | the two bound breaches leave days_pause_left alone; the two volatility exits set it to pause_length |
| Rules.EntrySurvivesSameSpread | Code/main.py:222-266 | with nested bounds, a position entered on a spread meets no bound or extreme-volatility exit on that same spread; only the spike exit can fire |
| Rules.LegQuantity | Code/main.py:280 | both legs get `min` of the two order sizes: no more than either, and equal to one of them |
| Rules.StopLossLevel | Code/main.py:312 | the stop level `stop_percentage * (callAsk + putAsk)` lies above the premium when stop_percentage > 1 and the premium is positive |
| Rules.StrangleOrders | Code/main.py:347-350 | every order sells one contract of the given call or put; with distinct symbols each of the two positions changes by -1; net -2 |
| Rules.ButterflyOrders | Code/main.py:376-380 | every order is on the OTM, ITM or ATM call; with distinct symbols the OTM and ITM positions change by +q and the ATM position by -2q; net 0 |
| Rules.CondorOrders | Code/main.py:411-414 | four orders on the four given calls; with distinct symbols the two tier-2 calls are bought (+q) and the two tier-1 calls sold (-q); net 0 |
| Rules.IronButterflyOrders | Code/main.py:442-445 | four orders on the OTM, ITM and ATM calls, including a buy and a sell of q ATM calls; with distinct symbols OTM changes by -q, ITM by +q and ATM by 0; net 0 |
| Rules.IronCondorOrders | Code/main.py:478-481 | four orders: the first two on the tier-0 call and put, the last two on the tier-1 ones; with distinct symbols the tier-0 legs are sold (-q) and the tier-1 legs bought (+q); net 0 |
| Engine.Initial | Code/main.py:58-70 | one row per ticker with bounds, each "None" and unpaused; the invariant holds; no VIX spike and no effects yet |
| Engine.Flatten | Code/main.py:223-228 | the exit block: the ticker becomes "None" with no expiration, keeps its pair and stop-loss level, no other ticker changes, the VIX verdict stays, and exactly the liquidations of the ticker and of its two recorded contracts are appended |
| Engine.VixCheck | Code/main.py:121-141 | the VIX block records the verdict, keeps the dictionaries' keys and only appends to the effect log |
| Engine.VixStep | Code/main.py:134-141 | one ticker of the VIX sweep: no other ticker changes, its pair stays, and its three liquidations are appended exactly when it holds ShortStrat |
| Engine.VixSweep | Code/main.py:133-141 | the VIX sweep keeps the keys and the verdict and only appends to the effect log (per ticker: `Engine.VixSweepAt`; liquidations: `Engine.VixSweepLog`) |
| Engine.ExpiryStep | Code/main.py:147-154 | one ticker of the 15:40 sweep: no other ticker changes, its pair stays, and its three liquidations are appended exactly when its expiration is today |
| Engine.ExpirySweep | Code/main.py:146-154 | the 15:40 sweep keeps the keys and only appends to the effect log (per ticker: `Engine.ExpirySweepAt`; liquidations: `Engine.ExpirySweepLog`) |
| Engine.StopLossStep | Code/main.py:159-168 | one ticker of the stop-loss sweep: no other ticker changes, its pair stays, and its three liquidations are appended exactly when its short straddle asks more than its stop level |
| Engine.StopLossSweep | Code/main.py:158-168 | the stop-loss sweep keeps the keys and only appends to the effect log (per ticker: `Engine.StopLossSweepAt`; liquidations: `Engine.StopLossSweepLog`) |
| Engine.Guard | Code/main.py:121-168 | the phases before the scan keep the dictionaries keyed by the bounded tickers and only append to the effect log |
| Engine.SurveyChain | Code/main.py:179-190 | the survey has no expiry exactly when the chain is empty; otherwise its at-the-money call and put are a call and a put of the chain |
| Engine.MultiLegFlow | Code/main.py:330-467 | the straddle labels never stop the scan; Strangle and Butterfly can only return, never raise; the Condor and iron strategies can only raise, never return |
| Engine.EnterLong | Code/main.py:270-286 | the long entry holds "Straddle" with an expiration, changes no other ticker and appends exactly two orders |
| Engine.EnterShort | Code/main.py:296-325 | the short entry leaves the ticker holding "Short Straddle" or "None", always with a stop-loss level, changes no other ticker and only appends to the effect log |
| Engine.Enter | Code/main.py:262-327 | an entry branch that returns or raises changes nothing; otherwise the effect log only grows |
| Engine.Decide | Code/main.py:201-327 | one ticker's evaluation changes nothing when it returns or raises, and only appends to the effect log |
| Engine.Visit | Code/main.py:185-198 | a surveyed chain that returns or raises leaves the dictionaries and the effect log as they were |
| Engine.EvaluateChain | Code/main.py:176-198 | an empty chain raises and changes nothing; a chain that returns or raises changes nothing; the effect log only grows |
| Engine.ScanChains | Code/main.py:174-186 | the scan keeps the dictionaries keyed by the bounded tickers and only appends to the effect log |
| Engine.Step | Code/main.py:115-327 | during warm-up nothing changes and OnData returns; only the hourly scan can return or raise; orders once placed are never taken back |
| Engine.VixSweepAt | Code/main.py:132-141 | on a spike, the row of a listed ticker holding ShortStrat is closed ("None", no expiration) and every listed ticker's pause becomes vix_pause; unlisted tickers' rows are unchanged (the liquidations: `Engine.VixSweepLog`) |
| Engine.ExpirySweepAt | Code/main.py:145-154 | at 15:40 a listed ticker whose expiration is today is closed with pause vix_pause; every other ticker is unchanged |
| Engine.StopLossSweepAt | Code/main.py:158-168 | a listed ShortStrat ticker whose two asks sum above its stop level is closed with pause pause_length and its stop level cleared; every other ticker is unchanged |
| Engine.ClosingsOnce | Code/main.py:133-168 | in the log a sweep appends, a ticker's liquidation occurs once when it is listed and met the sweep's condition, and not at all otherwise |
| Engine.VixSweepLog | Code/main.py:133-141 | the VIX sweep appends exactly the liquidations (ticker, then its two recorded contracts) of the listed tickers that held ShortStrat when it began, in list order, each once |
| Engine.ExpirySweepLog | Code/main.py:146-154 | the 15:40 sweep appends exactly the liquidations of the listed tickers whose expiration was today when it began, in list order, each once |
| Engine.StopLossSweepLog | Code/main.py:158-168 | the stop-loss sweep appends exactly the liquidations of the listed tickers whose short straddle was through its stop when it began, in list order, each once |
| Engine.VixSweepLiquidatesShortsOnce | Code/main.py:133-138 | on a spike a ticker is liquidated once if it is listed and holds ShortStrat, and never otherwise: only the short underlyings are liquidated |
| Engine.ExpirySweepLiquidatesDueOnce | Code/main.py:146-151 | at 15:40 a ticker is liquidated once if it is listed and expires today, and never otherwise |
| Engine.StopLossSweepLiquidatesHitsOnce | Code/main.py:158-164 | the stop-loss sweep liquidates a ticker once if it is listed and through its stop, and never otherwise |
| Engine.StopLossSweepLeavesNoBreach | Code/main.py:158-168 | after the sweep no listed ticker holds a short straddle that is through its stop |
| Engine.GuardOnlyCloses | Code/main.py:121-168 | the VIX, expiration and stop-loss phases only close positions: every status stays or becomes "None" |
| Engine.SurveyChainMeaning | Code/main.py:179-190 | an empty chain raises (empty `max`); a chain without calls or puts at its farthest expiry returns; otherwise the pick is the nearest call and the nearest put of the farthest expiry, and the tiers are the lengths of the OTM-call, ITM-call and OTM-put lists |
| Engine.MultiLegFlowMeaning | Code/main.py:330-467 | given the OTM-call, ITM-call and OTM-put lists, each multi-leg branch goes on exactly when every tier it indexes exists; Strangle and Butterfly otherwise return, the Condor and iron strategies otherwise raise |
| Engine.LongEntry | Code/main.py:270-286 | a long entry buys the call and put each for `min` of their sizes, records the pair, "Straddle" and the call's expiry, keeps the pause and any stop-loss level, and changes no other ticker |
| Engine.ShortEntry | Code/main.py:296-325 | a short entry sells both legs for `-min` of their sizes and records the pair and the stop level; if the put is invested the ticker holds "Short Straddle" until the call's expiry, otherwise it is liquidated again and left "None" with the pair and stop level still recorded |
| Engine.EntryOnlyFromFlat | Code/main.py:270-327 | an entry changes only the ticker's row, only from "None", only for the two straddle labels, and records the surveyed call and put |
| Engine.DecideExit | Code/main.py:222-259 | an exit liquidates the recorded pair, sets "None" and no expiration, keeps the pair and the stop level, and sets the pause only for the volatility exits |
| Engine.PausedTickerIsSkipped | Code/main.py:201-206 | once a chain is surveyed, a paused ticker is neither exited nor entered: its pause drops by one at 16:00, nothing else changes and the scan goes on |
| Engine.DecideLocal | Code/main.py:201-327 | one ticker's evaluation changes only that ticker, which keeps its status, goes "None", or enters from "None" |
| Engine.EvaluateChainLocal | Code/main.py:174-327 | one chain's evaluation changes only the ticker of its at-the-money call, and never swaps one position for another |
| Engine.ScanChainsAppend | Code/main.py:174-186 | scanning chains in two parts is scanning them whole: the second part runs only when the first ran through |
| Engine.StepConsistent | Code/main.py:115-327 | every tick keeps the invariant: "None" exactly when no expiration is recorded, a held strategy has its pair, a short straddle has its stop level |
| Algorithm.OptionTrading.constructor | Code/main.py:58-70 | the initial dictionaries are those of `Engine.Initial` and the class invariant holds |
| Algorithm.OptionTrading.OnData | Code/main.py:115-327 | keeps the class invariant; the new dictionaries, effects and outcome are those of `Engine.Step` |
| Algorithm.OptionTrading.VixKillSwitch | Code/main.py:133-141 | the loop over stock_list leaves the state `Engine.VixSweep` gives |
| Algorithm.OptionTrading.CloseExpiring | Code/main.py:146-154 | the loop over stock_list leaves the state `Engine.ExpirySweep` gives |
| Algorithm.OptionTrading.CheckStopLosses | Code/main.py:158-168 | the loop over stock_list leaves the state `Engine.StopLossSweep` gives |
| Algorithm.OptionTrading.ScanOptionChains | Code/main.py:174-186 | the loop over the chains stops at the first chain that returns or raises, with the state and outcome of `Engine.ScanChains` |
| Algorithm.OptionTrading.EvaluateOptionChain | Code/main.py:176-198 | one chain's pass gives the state and outcome of `Engine.EvaluateChain` |
| Algorithm.OptionTrading.TradeTicker | Code/main.py:201-327 | the pause, exits, choice and entry for one ticker give the state and outcome of `Engine.Decide` |
| Algorithm.OptionTrading.EnterLongStraddle | Code/main.py:280-286 | the in-place long entry leaves the state `Engine.EnterLong` gives |
| Algorithm.OptionTrading.EnterShortStraddle | Code/main.py:305-325 | the in-place short entry, with its undo when the put is not invested, leaves the state `Engine.EnterShort` gives |
| Algorithm.OptionTrading.Close | Code/main.py:223-228 | the repeated exit block leaves the state `Engine.Flatten` gives |
| Algorithm.OptionTrading.Liquidate | Code/main.py:224-226 | appends the liquidation of the ticker and of both recorded contracts |
| Settings.DefaultConfig | Code/main.py:14-81 | the configuration keys the four tickers and lists only SPY |
| Settings.DefaultConfigSound | Code/main.py:14-50 | every listed ticker has bounds and the short label differs from "Straddle" |
| Settings.DefaultNeverGoesLong | Code/main.py:43-45 | for every ticker LongBound equals ExtremeVolBoundUpper, so the long strategy is never chosen |
| Settings.DefaultSpyGoesShort | Code/main.py:42-44 | SPY goes short exactly when its spread lies in [-1, 0.247) |
| Settings.DefaultStopAbovePremium | Code/main.py:71-72 | the shipped stop level is 1.6 times the premium and above it |
| Settings.DefaultInitial | Code/main.py:58-70 | the initial dictionaries hold the four tickers, each "None", unpaused, without pair or stop level |
| Settings.StepNoLong | Code/main.py:262-286 | when every long range is empty, no tick ever enters the long straddle |
| Settings.DefaultNeverHoldsLong | Code/main.py:43-45 | with the shipped constants no ticker ever holds the long straddle, from the initial state on |

## Left out

- Historical volatility (`CalculateHistoricVol`, `getHistoricalDailyCloseData`), the implied volatilities of the at-the-money pair and the `round(..., 4)` of both spreads are floating-point numerics over host data. The two spreads per ticker are inputs (`Market.spreads`).
- The VIX z-score is left out: the mean and standard deviation of a host `History` call, `past_vix`, and its refresh at 16:00. The verdict in effect at the tick is a boolean input (`Tick.vixSpike`).
- Host calls are inputs:
  - `Securities[...].AskPrice` is `Market.askPrice`;
  - `CalculateOrderQuantity` is `Market.orderQuantity`;
  - `Portfolio[...].Invested` is `Market.invested`;
  - the warm-up flag, the clock and the slice's chains are fields of `Tick`.
- `MarketOrder` and `Liquidate` are appended to an effect log. `Log` and `Debug` are left out.
- `DeltaHedge` depends on host Greeks and is switched off (`delta_hedge_on = False`).
- The host setup in `Initialize` (dates, cash, universe, option filters, pricing models, warm-up length) is left out. Only the numeric and label constants are kept (`Settings`).
- Multi-leg orders: the Strangle, Butterfly, Condor, Iron Butterfly and Iron Condor orders are behind a test that never holds. The step models only how those branches end (`Engine.MultiLegFlow`). Their leg recipes are pure functions (`Rules`) that no tick reaches. Their margin sizing uses `MarginUseRatio`, which the source never defines; it is left out.
- Exceptions are modelled only where the code can reach them with well-formed data: `max` of an empty chain and an unguarded tier index. Both give the `Raised` outcome. Two others are excluded by preconditions instead:
  - A `stock_list` ticker without dictionary entries would raise `KeyError`; `Engine.ConfigOk` excludes it.
  - The stop-loss comparison would raise on a short status without a level; the invariant `Engine.RowOk` excludes it.
- Engine.StopHit: a ticker with the short label but no recorded pair or stop level is treated as not through its stop. The source would raise there. No state reachable under the invariant has that shape.
- Algorithm.OptionTrading.EvaluateOptionChain: the selection steps of one chain are pure code, so the method calls the function `Engine.SurveyChain` rather than repeating the list comprehensions. The selection itself is proved in `Selection` and `Engine.SurveyChainMeaning`.
- Dates are day numbers. The source compares `strftime("%m/%d/%Y")` strings, which name days one-to-one.
- The initial `(None, None)` pair of `option_symbols` is `None`.
- Status strings are the `Strategy` labels plus `Flat` for `"None"`. A configured label outside the seven the source knows cannot be represented.
- The five dictionaries are one dictionary of rows, because they always share their keys. The model does not capture a dictionary that gains or loses a key on its own; the source never does that. An exit's separate writes to `expiration`, `status` and `days_pause_left` of one ticker become one write of that ticker's row; nothing reads the row in between.
- Prices, strikes, asks and the stop-loss level are exact reals. The source's sums of ask prices (main.py line 160) and `stop_percentage * (ask + ask)` (line 312) round as floats, and that rounding is not modelled.
- Engine.Sound requires ShortStrat to differ from "Straddle". With ShortStrat = "Straddle" a long entry would hold the short label without a stop-loss level, and the source's `current_value > self.stop_loss[stock]` would compare with None and raise. That configuration is excluded rather than modelled, like the other exceptions above.
- Rules.StrangleOrders, Rules.ButterflyOrders, Rules.CondorOrders, Rules.IronButterflyOrders and Rules.IronCondorOrders state each leg's signed position only when the contracts involved are distinct; with coinciding symbols the positions add up and are not stated.
