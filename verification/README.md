# Trading engine and approval protocol

A model of the deterministic part of the trading system, with proofs about it. Four parts are
modelled and linked:

1. **Approval to execution** (`Idempotency`, `Store`, `Executor`, `Approvals`,
   `ApprovalSafety`, `ApprovalWindow`, `ApprovalRetries`, `ApprovalLedger`, `ApprovalProvenance`,
   `ApprovalPaths`, `Coordinator`, `Scanner`). The objects that are updated in place are classes: the claim map, the store and
   the venue log. The approve call is also a state machine: each request is a record of its local
   variables and of its next access to shared state, and a run is any sequence of requests
   arriving, requests taking a step, time passing, and every other writer of the store acting
   (other decisions, mode changes, locks, connections, the scanner). The method as written is
   proved to do what the steps do, and an undisturbed call to be one of the runs. Every access to
   the store, the claim map and the venue is taken as a point where another request may run, as
   the asynchronous store interface allows. The in-memory store and claim map do not suspend
   inside their coroutines, so with them only the venue call interleaves; the part of the timing
   condition that concerns the reads is about stores that do suspend.
2. **Risk engine** (`RiskTypes`, `Guards`, `Liquidation`, `Sizing`, `Ev`, `RiskEngine`,
   `RiskProperties`, `Protected`). Ten ordered gates ending in a claim, and the protected-profit
   ratchet.
3. **Backtester** (`Funding`, `Fills`, `Metrics`, `Runner`). The strategy is an arbitrary
   function of the bars up to the current one.
4. **Indicators and strategies** (`Averages`, `Indicators`, `IndicatorProperties`, `Adx`,
   `IndicatorValues`, `StrategyBase`, `EmaAdxTrend`, `VwapRsiMeanRev`, `FvgOb`), and the strategies in the backtester
   (`StrategyRuns`).

Loops of the program are methods, each proved equal to a function that gives the value at every
position; the properties are lemmas about those functions. What a function computes is also stated
without it, as an equation between its inputs and its result (the gates of `RiskProperties`,
`IndicatorValues`, `FiresExactly` of each strategy, `TradeWrittenOut`, `ApprovalPaths`).

## Reading the model

- `Decimal` is a Dafny `real`: the theorems are about the exact arithmetic the code expresses,
  not about rounding to 28 digits. Instants and durations are in seconds.
- "Valid candle" means 0 < low <= open, close <= high and volume >= 0. Periods are at least 1
  where the code does not check them itself.
- An exception the code raises is an `Err` or an `HttpError`; the division by a zero funding
  interval at gate 9 is one. The backtester's functions take fill models whose funding charge
  does not divide by zero (`Usable()`).
- Row ids are positions instead of random UUIDs. `dedup_hash` is the joined text it hashes;
  normalisation and SHA-256 are not part of this model.
- The venue either accepts an order with an id or raises; a raised error counts as not placed,
  as in the code. "At most once" is about orders known to be accepted; how often one approval
  can be sent in all is `ApprovalRetries.SendsOfOneApproval`. The clock never goes back and is otherwise arbitrary.
- `get_approval` hands out the stored row itself. The coordinator only uses fields that no
  operation changes, so the model's copy of the row (all but its status) is the same.
- The text of a 400 leaves out the offending action and the sorted list of allowed ones.

## What the proofs found

- **At most once is a matter of timing.** The approval's status is read once, by the route, and
  never again. At most one fill per approval holds exactly when the wait from that read to the
  claim and the wait from the claim to the resolve add up to less than the 60 second window; with
  larger waits there is a run with two fills. Without timing assumptions the claims of one key are
  60 seconds apart; its sends are closer by exactly as much as a request may wait between claim
  and send. A failed send leaves the row pending, so it can be repeated once a minute.
- **ADX is one bar late.** The first value sits at index 2p - 1 instead of 2p - 2, so position j
  shows the value of bar j - 1. Bars with a zero smoothed true range are dropped from the DX list
  but not from the index, so a flat start longer than the period shifts values to earlier
  positions, where they depend on later bars.
- **The breakeven stop is not net zero.** `breakeven_stop_price` promises net zero after the exit
  fee; the fee is charged on the moved price, so the result is zero only for a zero fee.
- **Funding.** The header of `fills.py` says funding accrues on every full interval crossed; the
  code charges the ceiling. The two agree exactly when the hold is a whole number of intervals.
  The "at least one" branch is not taken for a positive interval.
- **Drawdown.** The one-pass drawdown is the pairwise one on every curve that stays at or above
  zero, and no lower floor guarantees it. It is at most 10000 bps exactly when equity never goes
  negative.

## Model

| member | source | states |
|---|---|---|
| `ApprovalWindow.AtMostOnceIffWindowLonger` | services/api/src/nexocrypto_api/execution_coordinator.py:58-226 | over every interleaving of approve requests and every other writer of the store, no approval is filled twice exactly when the longest wait from status read to claim plus the longest wait from claim to resolve is under 60 s |
| `ApprovalSafety.AtMostOneFill` | services/api/src/nexocrypto_api/execution_coordinator.py:154-226 | with those two waits bounded and adding up to less than 60 s, two requests that placed an order for the same approval are the same request |
| `ApprovalSafety.ClaimsOfOneKeyAreSpaced` | services/engine/src/nexocrypto_engine/risk/idempotency.py:27-33 | with no timing assumption at all, any two requests that claimed one key did so at least 60 s apart |
| `ApprovalWindow.SendsSpacedIff` | services/engine/src/nexocrypto_engine/execution/executor.py:133-183 | for every longest wait between claim and send, two sends of one key are always sep seconds apart exactly when sep is at most 60 minus that wait (or zero) |
| `ApprovalWindow.SendsSpacedIffImmediate` | services/engine/src/nexocrypto_engine/execution/executor.py:133-141 | so they are always 60 s apart exactly when no request ever waits between its claim and its send |
| `ApprovalRetries.SendsOfOneApproval` | services/api/src/nexocrypto_api/execution_coordinator.py:209-226 | by a given time one approval can have been sent n times exactly when n - 1 windows of 60 s fit into that time, accepted or not |
| `ApprovalRetries.ManySends` | services/api/src/nexocrypto_api/execution_coordinator.py:209-226 | n sends of one approval in n - 1 minutes, in a run whose requests never wait: a failed send leaves the row pending |
| `ApprovalSafety.SendsOfOneKeyAreSpaced` | services/engine/src/nexocrypto_engine/execution/executor.py:133-183 | in general two sends of one key are apart by at least 60 s minus the longest wait from claim to send |
| `ApprovalWindow.SlowSendThenFastSend` | services/engine/src/nexocrypto_engine/execution/executor.py:133-183 | a run in which a late first send and a prompt second one are closer than their claims |
| `ApprovalWindow.SlowRequestsFillTwice` | services/api/src/nexocrypto_api/routes.py:79-90 | for all waits that add up to 60 s or more there is a run that keeps them and fills one approval twice: the status is not read again after the route |
| `ApprovalLedger.VenueFillsEachApprovalOnce` | services/engine/src/nexocrypto_engine/execution/executor.py:133-141 | the same guarantee read off the venue: two accepted orders in the log were sent for different approvals |
| `ApprovalLedger.BooksAreMatched` | services/api/src/nexocrypto_api/store.py:183-205 | in every reachable state each request that got that far wrote its one line in each book, saying what its record says; no line is shared and none is unexplained |
| `ApprovalLedger.BookSizeIsRequestCount` | services/api/src/nexocrypto_api/store.py:183-205 | conservation in numbers: each book has as many lines as requests that wrote in it |
| `ApprovalLedger.LedgersAreConserved` | services/api/src/nexocrypto_api/execution_coordinator.py:154-197 | with no request in flight, accepted placements, trade rows, order rows and open_order audit rows are in one-to-one correspondence and agree on key, pair, side, quantity and ids |
| `ApprovalLedger.ExecutedIsRecorded` | services/api/src/nexocrypto_api/execution_coordinator.py:154-197 | a completed entry left its venue, trade, order and audit lines, and they tell the same story |
| `ApprovalLedger.CompletedCallIsAuditedOnce` | services/api/src/nexocrypto_api/execution_coordinator.py:79-123 | every approve call that got past the route wrote exactly one audit row, of the kind its outcome calls for |
| `ApprovalLedger.NothingPlacedNothingResolved` | services/api/src/nexocrypto_api/execution_coordinator.py:209-226 | a request that ends blocked, duplicate or failed left every approval as it found it, in every one of its own steps |
| `ApprovalLedger.VerdictIsFinal` | services/api/src/nexocrypto_api/execution_coordinator.py:58-226 | an outcome, once reached, never changes in the rest of the run |
| `ApprovalProvenance.PlacementProvenance` | services/api/src/nexocrypto_api/execution_coordinator.py:71-147 | every order the venue ever received was queued earlier in the same run, for the sender's user and row, by a decision that passed all ten gates, and is field by field the order of that decision; between the two the sending request found the row pending and then read a stored mode that was semi-auto, unlocked for live trading and without protection lock |
| `ApprovalProvenance.RowRoundTrip` | services/engine/src/nexocrypto_engine/execution/executor.py:78-103 | queue row and back: the order rebuilt from the stored approval equals the order built from the approved decision itself |
| `ApprovalProvenance.QueueIsAuthorized` | services/worker/src/nexocrypto_worker/scanner.py:219-228 | every row of the queue, in every reachable state, was put at its position by one event of the run, for its user, and carries the terms of the approved semi-auto decision of that event |
| `ApprovalProvenance.StatusWasRead` | services/api/src/nexocrypto_api/routes.py:79-87 | an admitted request has a step of the run at which it found its row pending in its own user's queue |
| `ApprovalProvenance.ModeWasRead` | services/api/src/nexocrypto_api/execution_coordinator.py:71-75 | a request on the live path has a step of the run, for the same row, at which it read the stored mode of its user, and that mode was semi-auto, unlocked for live trading and without protection lock |
| `ApprovalProvenance.FullAutoIsUnreachable` | services/api/src/nexocrypto_api/store.py:225-235 | no user is ever in full auto, and semi-auto implies the paper gate was met, in every reachable state |
| `Coordinator.HandleApprovalApprove` | services/api/src/nexocrypto_api/execution_coordinator.py:58-226 | undisturbed, the method leaves store, claim map and venue exactly as the protocol's steps do, and replies with the outcome; venue and claim map change only if the stored mode is semi-auto, unlocked and not locked and the quantity is positive, and then by exactly one claim and one order |
| `ApprovalPaths.NotLiveOutcome` | services/api/src/nexocrypto_api/execution_coordinator.py:71-90 | with the protection lock set, live trading locked or any mode but semi-auto, the approval is resolved as approved and one audit row is written; venue, claims, trades and orders stay as they were |
| `ApprovalPaths.BlockedOutcome` | services/api/src/nexocrypto_api/execution_coordinator.py:92-123 | without a connection, or without a positive quantity, one audit row with the reason is all that changes |
| `ApprovalPaths.DuplicateOutcome` | services/engine/src/nexocrypto_engine/execution/executor.py:133-139 | while the key is claimed nothing is sent and one audit row is all that changes |
| `ApprovalPaths.RefusedOutcome` | services/api/src/nexocrypto_api/execution_coordinator.py:209-226 | when the venue raises, the key stays claimed for a minute, the order was sent once, the approval stays as it was, and one audit row gives the reason |
| `ApprovalPaths.FilledOutcome` | services/api/src/nexocrypto_api/execution_coordinator.py:127-207 | when the venue accepts, exactly the order of the row was sent once, one trade, one order naming that trade and one audit row with both ids are written, the approval is approved, and the reply names the rows |
| `ApprovalPaths.SendsOnlyIfAllowed` | services/api/src/nexocrypto_api/execution_coordinator.py:71-147 | in every case: venue or claim map change only after all checks, with the key free, and then by one claim of 60 seconds and one order with the fields of the row |
| `ApprovalPaths.ResolveMeaning` | services/api/src/nexocrypto_api/store.py:168-175 | resolving sets the status of the first row with this id and owner and changes nothing else |
| `Coordinator.PostApprovalDecision` | services/api/src/nexocrypto_api/routes.py:62-97 | 400 for an unknown action, 404 and 409 before the coordinator, the protocol for approve, and a bare change of status for every other action |
| `Coordinator.AloneIsARun` | services/api/src/nexocrypto_api/execution_coordinator.py:58-226 | an undisturbed call is one of the interleavings, so what holds of all runs holds of the method |
| `Coordinator.ResolveKeepsFind` | services/api/src/nexocrypto_api/store.py:168-175 | resolving a row does not change which row a lookup finds |
| `ApprovalSafety.ResolveKeepsEntries` | services/api/src/nexocrypto_api/store.py:168-175 | resolving changes one status and nothing else, and a decided row does not become pending |
| `Executor.OpenPosition` | services/engine/src/nexocrypto_engine/execution/executor.py:109-141 | refused outside semi-auto or without quantity with nothing touched; otherwise one claim, and the venue is called exactly when the claim succeeded |
| `Executor.ClosePosition` | services/engine/src/nexocrypto_engine/execution/executor.py:143-174 | allowed in every mode; the order is a reduce-only market order on the opposite side, without leverage, stop or target, and goes through its own claim of 60 seconds |
| `Executor.Dispatch` | services/engine/src/nexocrypto_engine/execution/executor.py:178-196 | the venue is called once after a fresh claim or not at all; every failure becomes a report |
| `Idempotency.InMemoryIdempotencyStore.TryAcquire` | services/engine/src/nexocrypto_engine/risk/idempotency.py:27-33 | claims the key for the window when it is free and leaves the map alone when it is not |
| `Idempotency.ClaimWindow` | services/engine/src/nexocrypto_engine/risk/idempotency.py:20-36 | a claim blocks exactly its own key for exactly the window; a refused claim does not extend the running one |
| `Store.InMemoryStore.AddParsedSignal` | services/api/src/nexocrypto_api/store.py:109-125 | appends the signal's terms and key to the signal log |
| `Store.InMemoryStore.AddValidatedSignal` | services/api/src/nexocrypto_api/store.py:127-138 | appends the verdict, with the reason of a rejection and the expected value |
| `Store.InMemoryStore.AddApproval` | services/api/src/nexocrypto_api/store.py:143-160 | appends one pending row with the decision's quantity and leverage and the decision's key |
| `Store.InMemoryStore.GetApproval` | services/api/src/nexocrypto_api/store.py:162-166 | the first row with this id and owner, or none |
| `Store.InMemoryStore.ResolveApproval` | services/api/src/nexocrypto_api/store.py:168-175 | sets the status of that row and touches nothing else; no pending guard |
| `Store.InMemoryStore.AddTrade` | services/api/src/nexocrypto_api/store.py:188-191 | appends the row to the user's ledger under a new id |
| `Store.InMemoryStore.AddOrder` | services/api/src/nexocrypto_api/store.py:183-186 | appends the row to the user's ledger under a new id |
| `Store.InMemoryStore.AddAuditLog` | services/api/src/nexocrypto_api/store.py:193-205 | appends the row to the user's audit log under a new id |
| `Store.InMemoryStore.GetExchangeConnection` | services/api/src/nexocrypto_api/store.py:210-214 | finds a connection of this user to this venue exactly when there is one |
| `Store.InMemoryStore.SetMode` | services/api/src/nexocrypto_api/store.py:225-235 | succeeds exactly for modes other than full auto that are not semi-auto before the paper gate; then only the mode changes, and a refusal changes nothing |
| `Scanner.ScanOnce` | services/worker/src/nexocrypto_worker/scanner.py:195-228 | a tick with its own claim map: the outcome of each strategy in order, and a store changed only by the log rows and approvals it writes |
| `Scanner.QueueGrowsByApprovals` | services/worker/src/nexocrypto_worker/scanner.py:221-228 | in semi-auto the queue grows by exactly the approved outcomes, in order, and otherwise by nothing; the signal log grows by two rows for every signal; nothing else changes |
| `Scanner.ApprovedKeysAreDistinct` | services/worker/src/nexocrypto_worker/scanner.py:200-218 | within a minute no two approved signals of one tick share a key |
| `Scanner.NoStatisticsNoApproval` | services/worker/src/nexocrypto_worker/scanner.py:208-218 | a strategy without statistics never gets a live approval |
| `Scanner.ApprovalPaysDefaultCosts` | services/worker/src/nexocrypto_worker/scanner.py:139-160 | an approval in a live mode rests on enough trades, and wherever statistics are known the average trade earns more than 14 bps plus one funding payment plus the required minimum |
| `Scanner.TickIsARun` | services/worker/src/nexocrypto_worker/scanner.py:221-228 | a tick is a stretch of a run of the approval system |
| `RiskEngine.AuthorizeNewEntry` | services/engine/src/nexocrypto_engine/risk/engine.py:54-170 | the decision of the first gate that rejects, with what was known there, or the division error at gate 9; the claim map changes exactly on approval, at the signal's key |
| `RiskProperties.ApprovesIffAllGatesHold` | services/engine/src/nexocrypto_engine/risk/engine.py:68-170 | approved if and only if ten conditions written out in the terms of the entry, without the program's divisions, hold; otherwise the reason is that of the first part of the first one that fails; it raises if and only if the first eight hold and the costs divide by a zero interval |
| `RiskProperties.GateMeaning` | services/engine/src/nexocrypto_engine/risk/guards.py:21-105 | each gate stops exactly when its declarative condition fails, and for the reason of its first failing part |
| `RiskProperties.EvGateMeaning` | services/engine/src/nexocrypto_engine/risk/ev.py:75-106 | the EV gate, with win and loss averages, both fees by flag, spread, slippage and funding written out |
| `RiskProperties.ApprovedMeaning` | services/engine/src/nexocrypto_engine/risk/engine.py:148-170 | an approved decision risks exactly the configured share at the stop, uses the smaller leverage, and records the signal's prices, the fees, the edge after costs and the liquidation price and distance as equations |
| `RiskProperties.RejectedMeaning` | services/engine/src/nexocrypto_engine/risk/engine.py:173-204 | a rejection carries nothing to trade and a key of its own, and the liquidation price and the edge exactly when it was rejected at a gate that knew them |
| `RiskProperties.LossGuardMeaning` | services/engine/src/nexocrypto_engine/risk/guards.py:52-78 | drawdown, daily and weekly limits as inequalities between money amounts, with the reason of the first one exceeded |
| `RiskProperties.SizingGateMeaning` | services/engine/src/nexocrypto_engine/risk/sizing.py:38-92 | the sizing gate as inequalities on risk, reward, leverage and exposure, with the reason of the first one that fails |
| `RiskProperties.LiquidationGateMeaning` | services/engine/src/nexocrypto_engine/risk/liquidation.py:50-65 | the liquidation gate as one inequality in the leverage |
| `RiskProperties.ApprovedLeverageIsBounded` | services/engine/src/nexocrypto_engine/risk/engine.py:100-115 | when the minimum distance exceeds the maintenance margin, every approved decision has leverage at most 10^4 / (minimum + margin in bps), and its liquidation price is on the losing side |
| `RiskProperties.VerdictIgnoresAccountUnit` | services/engine/src/nexocrypto_engine/risk/engine.py:54-170 | scaling equity, peak and PnLs by k > 0 keeps the verdict and reason and scales the quantity by k |
| `RiskProperties.VerdictIgnoresPriceUnit` | services/engine/src/nexocrypto_engine/risk/engine.py:54-170 | scaling all signal prices by k > 0, under any key that is equally free, keeps the verdict and reason and divides the quantity by k |
| `RiskProperties.VerdictIgnoresDirection` | services/engine/src/nexocrypto_engine/risk/engine.py:54-170 | mirroring the signal around its entry, under any key that is equally free, keeps the verdict, the reason and the size |
| `Liquidation.DistanceIsSideAndPriceFree` | services/engine/src/nexocrypto_engine/risk/liquidation.py:26-47 | the distance is the absolute value of 1/leverage - margin in bps on both sides, at any price |
| `Liquidation.GateBoundsLeverage` | services/engine/src/nexocrypto_engine/risk/liquidation.py:50-65 | passing the distance gate is a leverage cap and puts the liquidation price strictly on the losing side |
| `Sizing.ApprovedSizeRisksExactly` | services/engine/src/nexocrypto_engine/risk/sizing.py:38-92 | an approved size loses exactly the configured share of equity at the stop, and its target pays at least the minimum ratio |
| `Sizing.ApprovedSizeFitsCaps` | services/engine/src/nexocrypto_engine/risk/sizing.py:67-92 | its leverage is the smaller of the two, and its margin fits the per-asset and total caps |
| `Sizing.MarginBpsLaw` | services/engine/src/nexocrypto_engine/risk/sizing.py:72-78 | the margin share does not depend on equity |
| `Ev.FundingAgrees` | services/engine/src/nexocrypto_engine/risk/ev.py:55-72 | for every hold the funding the backtester pays, in bps of notional, is what the EV gate expected |
| `Ev.FeesAgree` | services/engine/src/nexocrypto_engine/risk/ev.py:46-52 | and so are the fees: entry plus exit fee of the fill model, in bps of notional, are the gate's round-trip fees, for either flag |
| `Ev.CostsWrittenOut` | services/engine/src/nexocrypto_engine/risk/ev.py:46-86 | the costs of the gate as a sum of fees by flag, spread, slippage and funding |
| `Ev.EvOfBacktest` | services/engine/src/nexocrypto_engine/risk/ev.py:75-86 | fed with a backtest's statistics the EV gate computes the mean, per trade, of price move less fees and funding over entry notional, minus the modelled costs |
| `Protected.PeakIsRunningMaximum` | services/engine/src/nexocrypto_engine/risk/protected.py:67-87 | the peak is the running maximum of all net PnLs seen |
| `Protected.FloorOnlyRises` | services/engine/src/nexocrypto_engine/risk/protected.py:67-87 | the floor never falls even if the giveback varies, and stays between zero and the peak |
| `Protected.ConstantGivebackFloor` | services/engine/src/nexocrypto_engine/risk/protected.py:67-87 | with a constant giveback g the floor is exactly (1 - g) times the peak |
| `Protected.ExitRule` | services/engine/src/nexocrypto_engine/risk/protected.py:90-101 | the exit fires exactly when the floor is positive and net PnL is at or below it, and never on a new peak |
| `Protected.NetAtBreakevenStop` | services/engine/src/nexocrypto_engine/risk/protected.py:104-120 | net PnL at the breakeven stop is -entry*qty*f^2 for a long and the opposite for a short, less the funding accrued |
| `Protected.NetMeaning` | services/engine/src/nexocrypto_engine/risk/protected.py:47-64 | net PnL is the move times the size, less the exit fee on the notional at the mark, less the funding accrued |
| `Protected.BreakevenIsExactIffNoFee` | services/engine/src/nexocrypto_engine/risk/protected.py:104-120 | so the stop is net zero if and only if the exit fee is zero |
| `Runner.Run` | services/engine/src/nexocrypto_engine/backtest/runner.py:65-182 | the report prices exactly the schedule of positions, and its metrics summarise exactly those trades |
| `Runner.HoldToExit` | services/engine/src/nexocrypto_engine/backtest/runner.py:110-142 | the inner loop closes at the first bar that touches stop or target, the stop winning ties, or at the last close |
| `Runner.NetIsMoveMinusCosts` | services/engine/src/nexocrypto_engine/backtest/runner.py:144-168 | the net result of a position is the move from the entry bar's open to the exit price, times the size, minus spread, slippage, fees and funding |
| `Runner.TradeWrittenOut` | services/engine/src/nexocrypto_engine/backtest/runner.py:102-168 | entry and exit prices, both fees, funding, slippage, times, side, size and reason of a priced trade, from bars and fill model alone |
| `Runner.SizeRisksExactly` | services/engine/src/nexocrypto_engine/backtest/runner.py:91-100 | a signal is sized exactly when it has a stop distance and money is at risk, and the size times that distance is the risked share of the starting equity |
| `Runner.StopLosesRiskedShare` | services/engine/src/nexocrypto_engine/backtest/runner.py:91-132 | a position stopped out from its signal's entry, without costs, loses exactly that share |
| `Runner.EndingEquityIsCurveEnd` | services/engine/src/nexocrypto_engine/backtest/runner.py:40-42 | the ending equity is the last point of the curve the drawdown is taken on |
| `Runner.ScheduleIsCorrect` | services/engine/src/nexocrypto_engine/backtest/runner.py:77-171 | signal bar < entry bar <= exit bar < next signal bar; every exit is the first touch; no usable signal outside a position is skipped |
| `Runner.ScheduleIsUnique` | services/engine/src/nexocrypto_engine/backtest/runner.py:77-171 | and no other list of positions has these properties |
| `Runner.ClosesCorrectlyIffLeg` | services/engine/src/nexocrypto_engine/backtest/runner.py:110-142 | a position closes by the rule, stated against the bars alone, exactly when it is the one the program opens there |
| `Runner.ForcedCloseIsLast` | services/engine/src/nexocrypto_engine/backtest/runner.py:138-142 | a forced close can only be the last trade |
| `Runner.ScheduleExtends` | services/engine/src/nexocrypto_engine/backtest/runner.py:77-171 | later bars change no settled position; a forced close becomes a longer hold of the same size |
| `Runner.TradesExtend` | services/engine/src/nexocrypto_engine/backtest/runner.py:74-171 | causality of the reports: all trades of a run but a final forced close are a prefix of the trades of any longer run, field by field |
| `Runner.ScheduleIgnoresCosts` | services/engine/src/nexocrypto_engine/backtest/runner.py:91-171 | two runs under any two fill models have the same number of trades, with equal bars, reason, side and size one by one |
| `Runner.NetIsFreeNetMinusCosts` | services/engine/src/nexocrypto_engine/backtest/fills.py:65-77 | net PnL is the cost-free PnL minus price moves, fees and funding, exactly |
| `Runner.CostsAreNonNegative` | services/engine/src/nexocrypto_engine/backtest/fills.py:89-152 | that difference is not negative when no cost parameter is |
| `Runner.EndingEquityBelowFree` | services/engine/src/nexocrypto_engine/backtest/runner.py:40-42 | then no run ends above the cost-free run, whenever the positions open and exit at non-negative prices |
| `Runner.BracketRunBelowFree` | services/engine/src/nexocrypto_engine/backtest/runner.py:40-42 | which is so for every strategy of strict brackets on valid candles |
| `Runner.BracketLegIsPositive` | services/engine/src/nexocrypto_engine/backtest/runner.py:110-142 | a strict bracket opens and exits at positive prices on valid candles, whatever closes it |
| `Runner.BracketSignalIsTraded` | services/engine/src/nexocrypto_engine/backtest/runner.py:86-100 | with money at risk no strict-bracket signal is dropped: it is traded or falls inside an open position |
| `Funding.CyclesAreTheCeiling` | services/engine/src/nexocrypto_engine/backtest/fills.py:137-152 | for a positive interval every positive hold pays exactly ceil(hold / interval) cycles, and the branch that raises zero to one is not taken |
| `Funding.ZeroBranchIffLongNegativeInterval` | services/engine/src/nexocrypto_engine/backtest/fills.py:147-151 | a positive hold takes that branch if and only if the interval is negative and longer than the hold |
| `Funding.CeilingIsFullIntervalsIffWhole` | services/engine/src/nexocrypto_engine/backtest/fills.py:9-9 | the full intervals crossed and the cycles charged agree if and only if the hold is a whole number of intervals |
| `Funding.ShortHoldPaysOneCycle` | services/engine/src/nexocrypto_engine/backtest/fills.py:9-9 | one hour at an eight-hour interval crosses no full interval and pays one cycle |
| `Funding.CyclesSubadditive` | services/engine/src/nexocrypto_engine/backtest/fills.py:137-152 | splitting a hold never lowers the number of cycles |
| `Fills.FundingAtLeastProRata` | services/engine/src/nexocrypto_engine/backtest/fills.py:137-152 | for a non-negative rate funding is at least pro rata to the time held |
| `Fills.FundingSubadditive` | services/engine/src/nexocrypto_engine/backtest/fills.py:137-152 | and splitting a hold never lowers it |
| `Fills.NetWrittenOut` | services/engine/src/nexocrypto_engine/backtest/fills.py:65-78 | net PnL is the price move times the size less both fees and the funding |
| `Fills.NetBpsIsNetShare` | services/engine/src/nexocrypto_engine/backtest/fills.py:80-87 | net PnL in bps times the entry notional is 10^4 times the net PnL; 0 without notional |
| `Metrics.Summarize` | services/engine/src/nexocrypto_engine/backtest/metrics.py:34-102 | list sums and the one-pass drawdown give the summary defined on the trade list |
| `Metrics.SummaryTotals` | services/engine/src/nexocrypto_engine/backtest/metrics.py:47-102 | each statistic times its denominator is the sum it averages, over net results written out from prices, fees and funding |
| `Metrics.PeakIsMaximum` | services/engine/src/nexocrypto_engine/backtest/metrics.py:76-87 | the running peak is the maximum of the equity curve so far |
| `Metrics.DrawdownIsLargestFall` | services/engine/src/nexocrypto_engine/backtest/metrics.py:76-87 | the one-pass drawdown is attained, and bounds every fall from a running peak |
| `Metrics.DrawdownIsPairwiseMaximum` | services/engine/src/nexocrypto_engine/backtest/metrics.py:76-87 | on a curve that never goes negative it is the pairwise maximum of (E_s - E_t)/E_s over s <= t |
| `Metrics.DrawdownIsPercentageIffNeverNegative` | services/engine/src/nexocrypto_engine/backtest/metrics.py:76-87 | it is at most 10000 bps if and only if the curve never goes negative |
| `Metrics.NoDrawdownIffNeverFalls` | services/engine/src/nexocrypto_engine/backtest/metrics.py:76-87 | it is zero exactly when the curve never falls |
| `Metrics.PairwiseReadingIffFloorNonNegative` | services/engine/src/nexocrypto_engine/backtest/metrics.py:76-87 | the pairwise reading holds on all curves that stay at or above a floor if and only if the floor is not negative |
| `Metrics.NegativeEquityBreaksPairwiseReading` | services/engine/src/nexocrypto_engine/backtest/metrics.py:76-87 | for every c > 0 the curve c, 10c, -10c has a drawdown of 20000 bps and a pair of points that falls by 110000 bps |
| `Metrics.WinsAndLossesPartition` | services/engine/src/nexocrypto_engine/backtest/metrics.py:47-48 | wins and losses partition the trades for counts and for every sum |
| `Metrics.WinsWinAndLossesLose` | services/engine/src/nexocrypto_engine/backtest/metrics.py:47-48 | a trade is a win exactly when its net PnL is positive |
| `Metrics.ExpectancyIsMeanResult` | services/engine/src/nexocrypto_engine/backtest/metrics.py:47-74 | win_rate*avg_win - (1 - win_rate)*avg_loss is the mean over all trades of price move less fees and funding, over entry notional |
| `Metrics.FeeDragIsLostGross` | services/engine/src/nexocrypto_engine/backtest/metrics.py:89-91 | the fee drag is gross minus net result, in bps of the traded notional |
| `Metrics.RewardToRiskDecides` | services/engine/src/nexocrypto_engine/backtest/metrics.py:72-74 | with reward-to-risk r and win rate p the expectancy is positive exactly when p*r > 1 - p |
| `Metrics.ProfitFactorMeansProfit` | services/engine/src/nexocrypto_engine/backtest/metrics.py:64-74 | wins minus absolute losses is the change of equity, and the profit factor exceeds one exactly when the run made money |
| `Indicators.Ema` | services/engine/src/nexocrypto_engine/strategy/indicators.py:16-35 | the filled list has at every bar the value of the recurrence, seeded with the mean of the first period |
| `Indicators.WilderSmooth` | services/engine/src/nexocrypto_engine/strategy/indicators.py:38-53 | likewise for the un-normalised smoothing |
| `Indicators.Rsi` | services/engine/src/nexocrypto_engine/strategy/indicators.py:56-77 | likewise for RSI, from the average gain and loss up to each bar |
| `Indicators.TrueRange` | services/engine/src/nexocrypto_engine/strategy/indicators.py:87-93 | the true range of every bar |
| `Indicators.Atr` | services/engine/src/nexocrypto_engine/strategy/indicators.py:96-110 | Wilder's average of the true ranges |
| `Indicators.Macd` | services/engine/src/nexocrypto_engine/strategy/indicators.py:167-208 | errors for unusable periods; otherwise line, signal over the defined tail, and histogram, aligned to the bars |
| `Indicators.Vwap` | services/engine/src/nexocrypto_engine/strategy/indicators.py:211-221 | cumulative price-volume over cumulative volume at every bar |
| `IndicatorProperties.EmaWithinCloses` | services/engine/src/nexocrypto_engine/strategy/indicators.py:16-35 | EMA stays within the range of the closes so far |
| `IndicatorValues.EmaValue` | services/engine/src/nexocrypto_engine/strategy/indicators.py:16-35 | EMA starts as the mean of the first p closes; then (p + 1) times the value is twice the close plus (p - 1) times the value before |
| `IndicatorValues.AtrValue` | services/engine/src/nexocrypto_engine/strategy/indicators.py:96-110 | ATR starts as the mean of the first p true ranges; then p times the value is (p - 1) times the value before plus the true range |
| `IndicatorValues.TrueRangeIsLargest` | services/engine/src/nexocrypto_engine/strategy/indicators.py:87-93 | the true range is the largest of range and the distances to the previous close |
| `IndicatorValues.RsiValue` | services/engine/src/nexocrypto_engine/strategy/indicators.py:56-84 | RSI times gains plus losses is 100 times the gains, in Wilder averages; 50 without moves |
| `IndicatorValues.GainValue` | services/engine/src/nexocrypto_engine/strategy/indicators.py:56-77 | the averaged gain follows Wilder's rule over the rises of the close |
| `IndicatorValues.LossValue` | services/engine/src/nexocrypto_engine/strategy/indicators.py:56-77 | the averaged loss follows it over the falls |
| `IndicatorValues.MacdValue` | services/engine/src/nexocrypto_engine/strategy/indicators.py:167-208 | the line is fast minus slow EMA, the signal an EMA of the line from its first value on, the histogram their difference, and where each is defined |
| `IndicatorValues.VwapValue` | services/engine/src/nexocrypto_engine/strategy/indicators.py:211-221 | VWAP times the volume so far is the value so far, each bar traded at a third of high, low and close |
| `IndicatorValues.DirectionalMoveMeaning` | services/engine/src/nexocrypto_engine/strategy/indicators.py:118-125 | a directional move counts exactly when it is positive and the larger of the two |
| `IndicatorValues.SmoothedValue` | services/engine/src/nexocrypto_engine/strategy/indicators.py:38-53 | the smoothing starts as a sum; then it loses its p-th part and gains the new entry |
| `IndicatorValues.DxValue` | services/engine/src/nexocrypto_engine/strategy/indicators.py:139-145 | DX times the sum of the smoothed moves is 100 times their distance; 0 without moves |
| `IndicatorValues.AdxValue` | services/engine/src/nexocrypto_engine/strategy/indicators.py:147-164 | ADX starts as the mean of the first p DX values; then Wilder's rule |
| `IndicatorProperties.AtrWithinTrueRanges` | services/engine/src/nexocrypto_engine/strategy/indicators.py:96-110 | ATR stays within the range of the true ranges so far |
| `IndicatorProperties.AtrPositive` | services/engine/src/nexocrypto_engine/strategy/indicators.py:96-110 | one positive true range keeps the ATR positive from then on, for periods of at least 2 |
| `IndicatorProperties.VwapWithinRange` | services/engine/src/nexocrypto_engine/strategy/indicators.py:211-221 | VWAP is defined once volume traded and lies between the lows and highs so far |
| `IndicatorProperties.RsiIsGainShare` | services/engine/src/nexocrypto_engine/strategy/indicators.py:80-84 | RSI is the gain share of the average move in percent, 50 if there is none |
| `IndicatorProperties.RsiInRange` | services/engine/src/nexocrypto_engine/strategy/indicators.py:56-84 | RSI is defined from index period on and lies in [0, 100] |
| `IndicatorProperties.RsiReflects` | services/engine/src/nexocrypto_engine/strategy/indicators.py:56-84 | RSI of the reflected prices is 100 minus RSI |
| `IndicatorProperties.RsiOffCentreMeansMove` | services/engine/src/nexocrypto_engine/strategy/indicators.py:80-84 | an RSI away from 50 needs a change of close at a bar it has read |
| `IndicatorProperties.EmaPrefixStable` | services/engine/src/nexocrypto_engine/strategy/indicators.py:16-35 | EMA on a prefix is the prefix of the EMA |
| `IndicatorProperties.AtrPrefixStable` | services/engine/src/nexocrypto_engine/strategy/indicators.py:96-110 | likewise for ATR |
| `IndicatorProperties.RsiPrefixStable` | services/engine/src/nexocrypto_engine/strategy/indicators.py:56-77 | likewise for RSI |
| `IndicatorProperties.VwapPrefixStable` | services/engine/src/nexocrypto_engine/strategy/indicators.py:211-221 | likewise for VWAP |
| `IndicatorProperties.MacdPrefixStable` | services/engine/src/nexocrypto_engine/strategy/indicators.py:167-208 | likewise for the MACD line and its signal |
| `IndicatorProperties.RisingSeriesHasNonNegativeMacd` | services/engine/src/nexocrypto_engine/strategy/indicators.py:167-189 | on non-decreasing closes no EMA exceeds the close and the MACD line is not negative |
| `Averages.EmaAboveRunningMean` | services/engine/src/nexocrypto_engine/strategy/indicators.py:28-34 | on a non-decreasing series an EMA is at least the mean of everything read |
| `Averages.FastAboveSlow` | services/engine/src/nexocrypto_engine/strategy/indicators.py:183-189 | the faster EMA stays above the slower one although they are seeded at different bars |
| `Averages.SmoothedIsScaledAverage` | services/engine/src/nexocrypto_engine/strategy/indicators.py:38-53 | the smoothing is period times Wilder's average |
| `Adx.ComputeAdx` | services/engine/src/nexocrypto_engine/strategy/indicators.py:113-164 | the emitted list, including the early exits and the cut at the end of the list |
| `Adx.CollectDx` | services/engine/src/nexocrypto_engine/strategy/indicators.py:131-145 | the DX list leaves out bars without a usable true range |
| `Adx.DirectionalMoves` | services/engine/src/nexocrypto_engine/strategy/indicators.py:118-125 | the directional moves of every bar |
| `Adx.SmoothedMovesBelowTrueRange` | services/engine/src/nexocrypto_engine/strategy/indicators.py:118-129 | smoothed +DM plus smoothed -DM never exceeds the smoothed true range |
| `Adx.DirectionalIndexSound` | services/engine/src/nexocrypto_engine/strategy/indicators.py:139-145 | +DI plus -DI is at most 100 and DX is a percentage |
| `Adx.AdxIsShifted` | services/engine/src/nexocrypto_engine/strategy/indicators.py:147-164 | position j holds the value of bar j - period + first DX bar: one bar late, and shifted by a flat start |
| `Adx.AdxSound` | services/engine/src/nexocrypto_engine/strategy/indicators.py:113-164 | if the price moved by bar p, values exist exactly from 2p - 1, lie in [0, 100] and use no later bar |
| `Adx.AdxStableIffEarlyMove` | services/engine/src/nexocrypto_engine/strategy/indicators.py:113-164 | that hypothesis is exact for prefix stability, apart from series too short to emit a value |
| `EmaAdxTrend.CrossMeansMove` | services/engine/src/nexocrypto_engine/strategy/ema_adx_trend.py:78-105 | a close that crosses its EMA has moved, so the newest true range is positive |
| `EmaAdxTrend.FiresExactly` | services/engine/src/nexocrypto_engine/strategy/ema_adx_trend.py:59-145 | long if and only if there are enough bars, all values are known, ADX reaches the threshold, the fast EMA is above the slow one and the close crossed up through it; short if and only if mirrored; with stop, target, leverage and key of the signal |
| `EmaAdxTrend.Evaluate` | services/engine/src/nexocrypto_engine/strategy/ema_adx_trend.py:50-105 | the method over the indicator loops decides as that rule says |
| `EmaAdxTrend.SignalIsStrictBracket` | services/engine/src/nexocrypto_engine/strategy/ema_adx_trend.py:78-125 | every trend signal is a strict bracket with the configured reward-to-risk ratio, in the direction of the last move |
| `VwapRsiMeanRev.SignalIsStrictBracket` | services/engine/src/nexocrypto_engine/strategy/vwap_rsi_meanrev.py:43-105 | every mean-reversion signal is a strict bracket with VWAP as target |
| `VwapRsiMeanRev.FiresExactly` | services/engine/src/nexocrypto_engine/strategy/vwap_rsi_meanrev.py:52-82 | long if and only if there are enough bars, all values are known, ADX is below the ceiling, the close below the lower band and RSI below its limit; short if and only if mirrored and no long; with stop, target, leverage and key of the signal |
| `VwapRsiMeanRev.Evaluate` | services/engine/src/nexocrypto_engine/strategy/vwap_rsi_meanrev.py:43-82 | the method over the indicator loops decides as that rule says |
| `FvgOb.ScanGaps` | services/engine/src/nexocrypto_engine/strategy/fvg_ob.py:57-73 | the overwriting scan keeps the newest gap of each kind |
| `FvgOb.Evaluate` | services/engine/src/nexocrypto_engine/strategy/fvg_ob.py:41-103 | which setup fires and with what stop and target; every signal is a strict bracket |
| `FvgOb.FiresExactly` | services/engine/src/nexocrypto_engine/strategy/fvg_ob.py:75-103 | long if and only if the last bar reached down to the newest bullish gap and closed above its bottom and below the high of its bars; short if and only if mirrored and no long; with stop, target, leverage and key of the signal |
| `FvgOb.GapMeaning` | services/engine/src/nexocrypto_engine/strategy/fvg_ob.py:57-73 | a gap of either kind as inequalities between prices, without division |
| `FvgOb.SwingMeaning` | services/engine/src/nexocrypto_engine/strategy/fvg_ob.py:80-94 | the target is the highest high (lowest low) of the three bars of the gap |
| `FvgOb.WindowMeaning` | services/engine/src/nexocrypto_engine/strategy/fvg_ob.py:53-57 | which bars the scan looks at |
| `FvgOb.LongStopBelowGap` | services/engine/src/nexocrypto_engine/strategy/fvg_ob.py:77-89 | the stop of a long lies below the whole gap |
| `StrategyRuns.TrendEmitsBrackets` | services/engine/src/nexocrypto_engine/strategy/ema_adx_trend.py:50-125 | in the backtester the trend strategy emits only strict brackets around positive entries |
| `StrategyRuns.MeanReversionEmitsBrackets` | services/engine/src/nexocrypto_engine/strategy/vwap_rsi_meanrev.py:43-105 | likewise the mean-reversion strategy |
| `StrategyRuns.StructureEmitsBrackets` | services/engine/src/nexocrypto_engine/strategy/fvg_ob.py:41-131 | likewise the structure strategy, for all parameters |
| `StrategyRuns.SignalsAreDated` | services/engine/src/nexocrypto_engine/backtest/runner.py:77-90 | the key of every signal names strategy, pair, side, entry and the close time of the last bar seen |

## Left out

- `PgStore`, row-level security and migrations: behaviour that lives in the database. Unlike the
  SQL, the in-memory `resolve_approval` has no pending guard.
- Exchange connectors, request signing, WebSockets, market-data proxies, the dashboard, the
  Telegram bot and the LLM analyst: I/O and payload shaping.
- Failure of `connector_factory`, which is called outside the `try`: it is assumed to return.
  Closing the connector has no effect in the model.
- Claim maps shared between processes, and `clear()` while requests are in flight.
- Rounding of `Decimal`, and float conversion at the API edge.
- Columns no decision depends on: constant ones (exchange, type, status, strategy), signal ids,
  `ev_net_bps` and `resolution_reason` of an approval, client ids and submission times, ids and raw
  texts in the signal log, list endpoints, tenants, fee schedules and risk-profile storage.
- The test-only unlock is modelled as an event because nothing else in the in-memory store sets
  `live_unlocked`; the setter of the account-protection lock is an event of the environment.
- Signal metadata built by the strategies (thesis text, tags, timestamps) and the default
  parameter values.
- The paper engine: it has its own fills and touches neither the venue nor the approvals.
- Cumulative per-asset exposure: sizing never reads the account's per-asset exposure, so nothing
  is claimed about it.
- Stop fills inside the bar's range on gaps: the code fills at the stop price whatever the bar did.
- Scanner.ScanOnce: klines and funding arrive as inputs.
