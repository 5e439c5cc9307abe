# Order, fill, ledger, exposure, risk and kill switch

A Dafny model of the trading runtime's central loop and of five self-contained algorithms beside it,
with the properties that the separately written pieces owe each other:

- a strategy turns order books into signals, a pipeline turns order requests into exchange orders and
  fills, fills settle in a weighted-average-cost ledger, exposure is recomputed from the ledger, the
  portfolio guard reports breaches, a CRITICAL breach latches the kill switch, and the switch silences
  the strategy;
- beside it: the simulated exchange, two token buckets, the order-book walk for price impact, the
  metric-key printer and parser, running trade statistics with their loss-streak breaker, and one-pass
  drawdown.

Prices, quantities, fees and clocks are exact reals, and EPSILON is a parameter. Everything outside the
process (exchange, router, database, state file, clock) is an input that either answers or raises. Code
that works by updating fields is a class whose methods are proved against a function of the old state;
the laws are lemmas about those functions, over every run.

## Layout

| file | content |
|---|---|
| `Common.dfy`, `RealSums.dfy` | options, results, sides, products and quotients of reals; sums over maps |
| `Ledger.dfy`, `LedgerLaws.dfy` | position ledger; accounting identity, dust bound, split invariance, snapshots |
| `Exposure.dfy`, `PreTradeRisk.dfy`, `RiskLaws.dfy` | recomputed exposure, limits, projected exposure; that they agree |
| `Execution.dfy`, `ResponsePayload.dfy`, `ExecutionLaws.dfy`, `OrderLaws.dfy` | order states, response payloads, fill processing, the pipeline; what any number of submits can do, and what one order becomes |
| `Strategy.dfy`, `StrategyLaws.dfy`, `SignalLaws.dfy`, `ExitLaws.dfy` | live strategy state; spacing of signals; exactly when it signals; what its exits earn on the ledger |
| `KillSwitch.dfy`, `EventBus.dfy`, `Services.dfy` | the latch, the dispatch loop, the services |
| `Runtime.dfy`, `RuntimeLaws.dfy`, `TradingLaws.dfy` | the live runtime as a transition system; quiescence, draining, no needless trip; from signal to trade |
| `SimExchange.dfy`, `MarketLaws.dfy` | simulated exchange; what trading costs, no free money |
| `RateLimiter.dfy`, `OrderBookWalk.dfy`, `MetricKeys.dfy`, `TradeStats.dfy`, `Drawdown.dfy` | one algorithm each |

`dafny verify dfyconfig.toml` checks everything.

## Where the code does less than one might expect

Each of these is a lemma with a concrete input or an exact condition.

- A remainder of at most EPSILON is thrown away without booking its cost. The accounting identity is exact
  up to that cost (`LedgerLaws.DustBreaksTheIdentity`), a split fill can differ from the merged one
  (`LedgerLaws.SplitInvariance` has the exact condition), and an accepted order can end beyond the net limit
  (`RiskLaws.FullFillCritical`, `RiskLaws.PartialFillCritical`, `RiskLaws.DustMayBreachTheNetLimit`).
- An accepted order on a symbol without a mark, which the momentum scanner sends by default, can end beyond a
  limit without any dust, because the guard values it at its fill price (`RiskLaws.UnmarkedFillCritical`,
  `RiskLaws.UnmarkedFillMayBreach`).
- A partial fill of an accepted order can leave a CRITICAL breach when the portfolio was beyond a limit
  before (`RiskLaws.PartialFillMayStayCritical`).
- An order that ends FAILED can have a booked trade: the failure may come after the fill, or the exchange
  may call a partial fill failed (`ExecutionLaws.FailedWithTrade` has the exact condition).
- Submitting an order again turns even FILLED into FAILED (`ExecutionLaws.AtMostOneExchangeOrder`).
- A momentum scan that passed the kill switch before it awaited its data still orders after a trigger, and a
  request queued before it is still sent (`RuntimeLaws.ScanInFlightStillOrders`,
  `RuntimeLaws.QueuedRequestStillOrders`).
- A stop requested with events queued leaves a sentinel behind; the next start ends at it with `running`
  still set, and no later start does anything (`EventBus.RestartAfterStop` has the exact condition).
- An exit blocks entries for exactly the cooldown of its kind, and a `mean_reversion_profit` has none
  (`StrategyLaws.ExitBlocksExactly`, `StrategyLaws.EntryMayFollowReversionProfit`).
- At a taker fee of 50% a take-profit can break even (`ExitLaws.HalfFeeBreaksEven`), and filled at a slipped
  quote it pays exactly when the threshold covers fee and slippage (`ExitLaws.SlippedTakeProfitIff`).
- Price impact can fall to a fixed 2% where an order exceeds the book's depth (`OrderBookWalk.ImpactDropsIff`,
  `OrderBookWalk.ImpactDropsBeyondDepth`).
- A comma in a label value makes two metric keys collide (`MetricKeys.UnreadableKeysCollide`).
- On a curve that goes below zero the running peak can understate the drawdown
  (`Drawdown.OnePassIffTroughsAreShallow`, `Drawdown.NegativeEquityIsUnderstated`).

## Model

| member | source | states |
|---|---|---|
| Ledger.PositionLedger.constructor | portfolio/position_ledger.py:12-16 | a new ledger is flat, without trades or profit |
| Ledger.PositionLedger.ApplySignedFill | portfolio/position_ledger.py:85-150 | the settled position and net profit of every branch: open, add, reduce, close, flip, dust |
| Ledger.PositionLedger.ApplyFill | portfolio/position_ledger.py:18-83 | the four rejections change nothing; otherwise position stored or removed by the dust rule, total and trade list advanced by the net profit |
| Ledger.PositionLedger.MarkToMarket | models/position.py:31-40 | the three branches store one formula, quantity times (mark - entry); LedgerLaws.StoredIdentity pins its sign and size |
| Ledger.PositionLedger.MarkPositions | portfolio/position_ledger.py:152-161 | every position with a positive mark is marked, in any iteration order; nothing else changes |
| Ledger.PositionLedger.TakeSnapshot | portfolio/position_ledger.py:272-281 | positions, trade count and realised total |
| Ledger.PositionLedger.RestoreSnapshot | portfolio/position_ledger.py:208-266 | which saved positions come back; a total that is not a number raises after the positions were replaced |
| LedgerLaws.BlendedPrice | portfolio/position_ledger.py:106-117 | the weighted entry lies between both prices and carries both costs exactly |
| LedgerLaws.AddedCost | portfolio/position_ledger.py:106-117 | adding keeps cost: new quantity times new entry is old cost plus price paid |
| LedgerLaws.SettledIsSound | portfolio/position_ledger.py:85-150 | every settlement leaves dust or a position with positive entry no higher than the prices seen |
| LedgerLaws.ReplayKeepsWellFormed | portfolio/position_ledger.py:62-67 | over every run each stored position exceeds EPSILON and has a positive entry |
| LedgerLaws.SettleBalance | portfolio/position_ledger.py:92-150 | per fill, gross profit plus change of cost equals cash moved plus dropped dust |
| LedgerLaws.BookRun | portfolio/position_ledger.py:43-150 | realised total minus cost held moves by exactly the cash flow plus the dust, over every run |
| LedgerLaws.AccountingIdentity | portfolio/position_ledger.py:43-150 | for every run of fills and all marks, realised plus unrealised equals net cash after fees plus market value plus the dropped dust |
| LedgerLaws.StoredIdentity | models/position.py:31-40 | after every held symbol was marked, over every run: realised total plus the sum of the unrealised profits stored on the positions equals cash flow plus market value plus dropped dust |
| LedgerLaws.MarkingStores | portfolio/position_ledger.py:152-161 | marking changes the stored unrealised profits only, and those of positively marked symbols only |
| LedgerLaws.DustIsBounded | portfolio/position_ledger.py:62-67 | one fill drops at most EPSILON at the highest price, and something exactly when a non-zero remainder is dropped |
| LedgerLaws.DustBound | portfolio/position_ledger.py:62-67 | the dust of a run is at most fills times EPSILON times the highest fill price |
| LedgerLaws.NoDustNoError | portfolio/position_ledger.py:62-67 | the identity is exact at every point of a run if and only if no fill drops a remainder |
| LedgerLaws.PositionPnlIsClosedPnl | portfolio/position_ledger.py:85-150 | a position's realised profit is the sum of the net profits of the fills that closed against it since it was opened, over every run |
| LedgerLaws.FillLeavesAlone | portfolio/position_ledger.py:29-83 | a fill is refused for the first thing wrong with it; any other leaves every other symbol and the profit last marked on its own position |
| LedgerLaws.TradesMirrorFills | portfolio/position_ledger.py:43-83 | over every run one trade for each fill that can be booked, in order and with its symbol, side and figures; the realised total is the sum of their profits and a snapshot counts them |
| LedgerLaws.DustBreaksTheIdentity | portfolio/position_ledger.py:133-135 | two fills after which the ledger is flat at zero profit while cash is short |
| LedgerLaws.SplitInvariance | portfolio/position_ledger.py:85-150 | two same-side fills at one price leave the quantity, entry and total of the merged fill if and only if no harmful dust was dropped in between; other symbols untouched |
| LedgerLaws.SplitOverDust | portfolio/position_ledger.py:133-145 | the exact condition where the first fill leaves dust |
| LedgerLaws.RestoreKeepsEverything | portfolio/position_ledger.py:208-281 | restoring a sound ledger's snapshot drops no position |
| LedgerLaws.RestoreIsSound | portfolio/position_ledger.py:208-266 | whatever a saved payload holds, the restored ledger is sound and has exactly its positions above the dust limit with a positive entry; an unreadable total keeps the old one, and anything else changes nothing |
| LedgerLaws.EquivalentRuns | portfolio/position_ledger.py:18-150 | ledgers with the same positions and total book the same trades and stay the same |
| LedgerLaws.RestoreIsTransparent | portfolio/position_ledger.py:208-281 | after any past, restarting from the snapshot is invisible to every future run: same positions, same profits, same total |
| Exposure.Calculate | portfolio/exposure_engine.py:28-71 | one pass in any order gives the sums over all positions, long and short from gross and net, and the weights |
| Exposure.LongAndShortParts | portfolio/exposure_engine.py:38-71 | long and short are the sums of the positive and the negative notionals, and each weight times gross is the size of its symbol |
| Exposure.ReportedBreaches | risk/portfolio_guard.py:38-78 | exactly the exceeded limits are reported, and a CRITICAL one exactly when gross or net is exceeded |
| Exposure.OverweightSymbols | risk/portfolio_guard.py:65-76 | one HIGH breach per overweight symbol, each once, in any order |
| Exposure.Validate | risk/portfolio_guard.py:38-78 | gross before net before the overweight symbols, each breach exactly once; only the order among symbols follows the dictionary |
| PreTradeRisk.Project | risk/pre_trade_risk.py:89-122 | projected gross, net and weight from the current exposure |
| PreTradeRisk.Decide | risk/pre_trade_risk.py:48-154 | a reason is listed exactly when its test holds; allowed exactly when none does |
| PreTradeRisk.AllowedMeans | risk/pre_trade_risk.py:58-154 | an order is allowed if and only if it is positive, reaches every positive minimum, configured or given, keeps the maximum, and its projection keeps the three limits |
| PreTradeRisk.ReasonsMean | risk/pre_trade_risk.py:58-146 | which reason an order is refused for, bound by bound |
| PreTradeRisk.WeightMeans | risk/pre_trade_risk.py:115-146 | the weight test holds if and only if the projected size of the symbol is at most its share of the projected gross |
| RiskLaws.ExposureAfterFill | portfolio/exposure_engine.py:38-51 | recomputed gross and net after a fill of a marked symbol; the fill price plays no part, other symbols keep their size |
| RiskLaws.ProjectionRefinesRecomputation | risk/pre_trade_risk.py:94-122 | after a complete fill, recomputed gross and net are within quantity * abs(reference - mark) plus dust of the projection, and equal at mark = reference if and only if no dust was dropped |
| RiskLaws.ProjectionOfUnmarkedSymbol | risk/pre_trade_risk.py:94-122 | for an unmarked symbol filled at the reference the projection is exact if and only if the fill opens, adds or closes at the entry price, or leaves dust and is worth exactly the cost held |
| RiskLaws.FullFillCritical | risk/portfolio_guard.py:38-63 | a complete fill of an accepted order keeps the gross limit, and is CRITICAL if and only if dropped dust carries net beyond its limit |
| RiskLaws.MoveAtCost | portfolio/exposure_engine.py:39-40 | a fill of a symbol without a mark moves its exposure by the fill's cash plus what it realises, less the dust's booked value |
| RiskLaws.FillCritical | risk/portfolio_guard.py:38-63 | any fill, of any size, of a symbol with or without a mark, leaves a CRITICAL breach if and only if its move, dust rule included, overshoots gross or net |
| RiskLaws.PartialFillCritical | risk/portfolio_guard.py:38-63 | any part of an accepted order is CRITICAL if and only if its move overshoots; from within the limits, if and only if net ends beyond its limit, which needs dropped dust |
| RiskLaws.UnmarkedFillCritical | risk/pre_trade_risk.py:89-146 | any part of an accepted order on a symbol without a mark is CRITICAL if and only if its move at the fill price overshoots; a complete fill at the reference never is where the projection is exact |
| RiskLaws.PartialFillMayStayCritical | risk/pre_trade_risk.py:89-146 | that condition is needed: an accepted reducing order, partly filled, stays beyond the gross limit |
| RiskLaws.DustMayBreachTheNetLimit | portfolio/position_ledger.py:62-67 | an accepted order whose dropped dust breaches the net limit |
| RiskLaws.DustOfAPartialFillMayBreach | portfolio/position_ledger.py:62-67 | a partial fill, from within the limits, whose dropped dust breaches net |
| RiskLaws.UnmarkedFillMayBreach | portfolio/exposure_engine.py:39-40 | an accepted order without mark and without dust whose fill above the reference breaches gross |
| RiskLaws.FullFillClean | risk/portfolio_guard.py:38-78 | a complete fill reports no breach at all if and only if net holds after the dust rule and every other symbol stays light in the gross it leaves; without dust that is the projected gross and net holds by itself |
| RiskLaws.FullFillNoBreach | risk/portfolio_guard.py:38-78 | no breach before and a projected gross that does not shrink give no breach after, with or without dust |
| RiskLaws.NoBreachMeans | risk/portfolio_guard.py:38-78 | no breach exactly when gross, net and every symbol's share are within limits |
| Execution.Normalize | execution/exchange_response_normalizer.py:33-87 | the filled quantity overrules the status text; unknown texts mean SUBMITTED |
| ResponsePayload.ExtractFloat | execution/exchange_response_normalizer.py:89-107 | the first key whose value reads as a number decides, else the default |
| ResponsePayload.FirstReadableIsUnique | execution/exchange_response_normalizer.py:89-107 | that determines the number |
| ResponsePayload.KeysAreRead | execution/exchange_response_normalizer.py:36-107 | each of the eight key names is read as the filled quantity or the average price, from a number or a text that reads as one; any other text is passed over |
| ResponsePayload.ExtractFee | execution/exchange_response_normalizer.py:109-151 | the sum of every readable fee entry, wherever it stands, each once |
| ResponsePayload.FeesAddUp | execution/exchange_response_normalizer.py:109-151 | a fee added in any of the five places a fee can stand raises the sum by exactly its amount; an empty payload has none |
| ResponsePayload.NormalizePayload | execution/exchange_response_normalizer.py:25-87 | the report of the response a payload spells out, its status included |
| ResponsePayload.StatusIgnoresCase | execution/exchange_response_normalizer.py:33-34 | the case of a status text does not matter |
| ResponsePayload.SilentResponseIsSubmitted | execution/exchange_response_normalizer.py:31-73 | a response that says nothing leaves the order submitted and unfilled |
| Execution.FillProcessor.Process | execution/fill_processor.py:45-104 | ledger, marks, breaches and every point where it raises, with what was already booked |
| Execution.Order.Transition | execution/order_state_machine.py:14-73 | the status moves exactly along the table, otherwise nothing changes |
| OrderLaws.TransitionsAre | execution/order_state_machine.py:14-73 | the table by target: from where each status is entered; four statuses are final |
| Execution.Order.ApplyReport | execution/execution_pipeline.py:222-242 | a SUBMITTED report is ignored, any other status is forced with the fill figures |
| Execution.Order.ApplyPrecision | execution/execution_pipeline.py:245-263 | rounding of quantity and price, and what is left when a rule raises |
| Execution.ExecutionPipeline.Prepare | execution/execution_pipeline.py:79-147 | how far an order gets before the exchange, and its state there |
| Execution.ExecutionPipeline.Exchange | execution/execution_pipeline.py:149-217 | one create_order, then report, fill and event, or FAILED with what was already booked |
| Execution.ExecutionPipeline.Submit | execution/execution_pipeline.py:74-217 | the whole submit: order, ledger, orders sent, result and event |
| ExecutionLaws.SubmitEffects | execution/execution_pipeline.py:82-217 | exchange called if and only if the order is fresh, valid, routable and allowed; a trade booked if and only if it answered with a fill; otherwise the ledger is untouched; the status is final |
| OrderLaws.SentIff | execution/execution_pipeline.py:79-161 | create_order is called if and only if the order is fresh, complete, routed, rounded and allowed under the minimum of the exchange, and gets the symbol, side and type of the order with the rounded quantity and price |
| OrderLaws.SentNotional | execution/execution_pipeline.py:108-147 | an order sent is worth at the reference at least every positive minimum of the exchange and the configured one, and at most the maximum |
| OrderLaws.HowItEnds | execution/execution_pipeline.py:74-217 | the final order of every submit: the status of the answer spelled out text by text, REJECTED exactly for a refusal by risk, else FAILED; quantity and price rounded as far as it got, and the fill figures of a recorded answer |
| OrderLaws.StatusIsMapped | execution/exchange_response_normalizer.py:8-87 | which status each text of a response means, that the filled quantity overrules it, and the other fields of the report |
| OrderLaws.BooksItsOwnFill | execution/execution_pipeline.py:163-203 | a booked trade has the symbol and side of the order and the figures of the answer, and the ledger is booked and marked, stored profits included, unless the trade could not be recorded |
| OrderLaws.ReportsWhatIsExceeded | execution/execution_pipeline.py:186-217 | the published report lists a breach if and only if that limit is exceeded on the ledger the submit leaves; nothing without a fill |
| OrderLaws.TradesAreOfTheOrder | execution/execution_pipeline.py:74-217 | over any number of submits every trade booked has the symbol and side of the one order sent |
| ExecutionLaws.FailedWithTrade | execution/execution_pipeline.py:163-217 | an order ends FAILED with its trade booked if and only if the exchange answered with a fill and then trade, state or event could not be recorded, or the answer called a partial fill failed; only in the last case is it accepted |
| ExecutionLaws.FailedOrdersCanHaveTrades | execution/execution_pipeline.py:186-217 | both happen: a database that raises, and a partial fill answered as failed |
| ExecutionLaws.AcceptedWhen | execution/execution_pipeline.py:155-203 | a submit counts as accepted if and only if the order was sent and answered and nothing raised after that |
| ExecutionLaws.StaleOrderDoesNothing | execution/execution_pipeline.py:85-88 | an order not CREATED is never sent and never touches the ledger |
| ExecutionLaws.AtMostOneExchangeOrder | execution/execution_pipeline.py:74-217 | over any number of submits: at most one exchange order, by the first, only if allowed; at most one trade; a final status |
| ExecutionLaws.MarkingKeepsExposure | execution/fill_processor.py:77-84 | marking positions does not change the exposure computed next |
| ExecutionLaws.SubmitKeepsWellFormed | execution/execution_pipeline.py:74-217 | a submit keeps the ledger sound |
| ExecutionLaws.ReportIsCritical | execution/execution_pipeline.py:293-309 | a report carries a CRITICAL breach if and only if its fill overshoots a limit, whatever the exchange fills, with or without mark or dust, more than ordered included |
| ExecutionLaws.ReportsNeverCritical | execution/execution_pipeline.py:293-309 | the report of an accepted order marked at its reference carries no CRITICAL breach: full fill or, from within limits, partial, unless its dust carries net beyond the limit |
| KillSwitch.KillSwitch.constructor | risk/kill_switch.py:9-28 | armed, with positive limits |
| KillSwitch.KillSwitch.Trigger | risk/kill_switch.py:30-38 | the first reason stays |
| KillSwitch.KillSwitch.Reset | risk/kill_switch.py:40-47 | back to armed, sum and peak forgotten |
| KillSwitch.KillSwitch.UpdateBalance | risk/kill_switch.py:49-72 | peak, drawdown test and answer |
| KillSwitch.KillSwitch.UpdatePnl | risk/kill_switch.py:74-84 | loss sum, limit test and answer |
| KillSwitch.Accumulated | risk/kill_switch.py:49-75 | the peak is the greatest positive balance seen and the sum is the sum of all profits |
| KillSwitch.LatchIsExact | risk/kill_switch.py:30-84 | without a reset, triggered if and only if some update so far met a trip condition stated on the history itself |
| KillSwitch.ReasonIsTheFirst | risk/kill_switch.py:30-84 | the reason kept is that of the first update that met a trip condition |
| KillSwitch.LastTrips | risk/kill_switch.py:49-84 | one update can only trip, and a tripped switch keeps its reason |
| EventBus.EventBus.Subscribe | core/event_bus.py:16-26 | the callback is appended under its type, other types unchanged |
| EventBus.EventBus.Publish | core/event_bus.py:28-29 | the event goes to the back of the queue |
| EventBus.EventBus.RequestStop | core/event_bus.py:68-73 | a running bus stops and gets one sentinel |
| EventBus.EventBus.RunCallbacks | core/event_bus.py:50-64 | every callback is called once and in order whoever raises, the raises are counted, and what they publish is queued in order |
| EventBus.EventBus.Start | core/event_bus.py:31-64 | the loop performs exactly the turns of the specification, up to a limit; a running bus is left alone |
| EventBus.GuardedCountsRaises | core/event_bus.py:52-64 | the failures counted are exactly the callbacks that raise on the world they are called in |
| EventBus.UnguardedStops | core/event_bus.py:52-64 | a loop without the guard calls the callbacks up to the first that raises, and no further |
| EventBus.FailuresAreIsolated | core/event_bus.py:52-64 | the guarded loop calls every subscriber; one without the guard leaves the same world and events if and only if those after its first raising callback would have done nothing |
| EventBus.UntypedIsDropped | core/event_bus.py:44-64 | an event without a type is taken and changes nothing; any other reaches the subscribers of its type |
| EventBus.FirstInFirstOut | core/event_bus.py:28-64 | over any number of turns the items taken followed by the queue are the old queue followed by everything published, and the world is that of delivering the items taken in order |
| EventBus.OnlyQueuedStopsEndTheLoop | core/event_bus.py:38-42 | a running bus goes on after n turns if and only if no sentinel was among the first n items it had queued; `running` stays set either way |
| EventBus.RestartAfterStop | core/event_bus.py:31-73 | a start after a stop leaves the bus working if and only if nothing was queued before the stop; otherwise it ends at the old sentinel with `running` set and every later start does nothing |
| Services.RiskService.OnExecutionReport | microservices/risk_service.py:40-85 | each CRITICAL breach triggers the switch, each breach publishes one risk event in order, counters add up |
| Services.ExecutionService.OnOrderRequest | microservices/execution_service.py:42-79 | one submit per decoded request, its report queued, the four counters; an error whose text is empty is not counted as failed |
| Services.LiveStrategyService.OnOrderbookSnapshot | microservices/live_strategy_service.py:72-110 | at most one order request per book, none while the switch is triggered |
| Services.MomentumTrapService.BeginScan | microservices/momentum_trap_service.py:112-142 | a scan goes on to its data exactly when every gate passes and there is an exchange, publishes nothing before, and counts an error exactly when only the exchange is missing |
| Services.MomentumTrapService.FinishScan | microservices/momentum_trap_service.py:144-206 | after the await the switch is not read; a key is never published twice |
| Services.MomentumTrapService.BuyOrderSpendsTheTarget | microservices/momentum_trap_service.py:172-189 | a momentum order is a fresh market buy of its symbol, made exactly for a positive target; filled at the reference price it spends that target |
| Services.BuysAreSpaced | microservices/momentum_trap_service.py:112-170 | over any run of scans with a clock that does not run back: two buys of a symbol are a cooldown apart, no key is used twice, and every buy came from a scan begun with the switch active and every gate passed |
| Runtime.DeliveryIsHandling | core/event_bus.py:50-64 | with the live subscriptions, delivering an event is its one state-changing callback |
| TradingLaws.SignalBecomesOrder | microservices/live_strategy_service.py:72-110 | a signal of the strategy, decided on the ledger's own position, becomes one fresh order of its symbol, side, quantity and price, unless it does not validate |
| TradingLaws.RequestIsSubmitted | microservices/execution_service.py:42-79 | a request is submitted as it stands, with its own marks, on the ledger there is |
| TradingLaws.OrdersCloseOrEnter | strategies/mean_reversion_imbalance.py:299-395 | an order published while the ledger holds the symbol closes exactly that holding |
| TradingLaws.TickReachesStrategy | microservices/live_strategy_service.py:53-70 | a market tick ends as the newest mid of its symbol and does nothing else |
| TradingLaws.BreachesBecomeEvents | microservices/risk_service.py:40-85 | each breach of a report becomes one risk event, in order |
| TradingLaws.TradesMatchOrders | core/event_bus.py:38-64 | over every run of the runtime the trades in the ledger are those of orders given to the exchange, by symbol and side, in order, at most one each |
| RuntimeLaws.HandlingWhileTriggered | strategies/mean_reversion_imbalance.py:250-252 | while triggered, an event adds no order beyond the request it was |
| RuntimeLaws.StepWhileTriggered | core/event_bus.py:38-64 | no step of the runtime raises the orders sent plus those still possible |
| RuntimeLaws.Quiescence | core/event_bus.py:38-64 | after a trigger, over every run without a reset, further exchange orders are at most the requests queued then plus one for a scan in flight |
| RuntimeLaws.ScanInFlightStillOrders | microservices/momentum_trap_service.py:119-160 | the extra order is real |
| RuntimeLaws.QueuedRequestStillOrders | microservices/execution_service.py:42-56 | and so is a request queued before the trigger |
| RuntimeLaws.SubmitIsSmall | execution/fill_processor.py:61-104 | a submit opens at most one symbol and reports at most two breaches plus one per held symbol |
| RuntimeLaws.HandlingShrinks | microservices/live_strategy_service.py:78-95 | what handling an event publishes costs less than the event: a book one request, a request one report, a report its breaches |
| RuntimeLaws.DispatchShrinks | core/event_bus.py:38-64 | every dispatch lowers the bound on dispatches left |
| RuntimeLaws.BusDrains | core/event_bus.py:38-64 | once producers are silent the bus empties, or its loop has ended, within that bound |
| RuntimeLaws.HandlingAlarm | microservices/risk_service.py:40-85 | handling an event triggers the switch exactly for a report with a CRITICAL breach, and publishes such a report exactly for an order whose fill overshoots |
| RuntimeLaws.TripsExactlyOnOvershoot | microservices/risk_service.py:52-59 | over every run without manual triggers and resets, the switch is triggered or about to be if and only if some order was reported with a fill that overshot a limit |
| RuntimeLaws.OrderlyTradingNeverTrips | microservices/risk_service.py:52-59 | over every run whose requests are marked at their routed price and filled properly, the switch is never triggered; harmless dust is allowed |
| Strategy.MeanReversionImbalanceStrategy.AppendMid | strategies/mean_reversion_imbalance.py:621-633 | the window takes the mid and keeps the last rolling_window |
| Strategy.MeanReversionImbalanceStrategy.OnMarketTick | strategies/mean_reversion_imbalance.py:221-242 | only a named symbol with a positive mid is recorded |
| Strategy.MeanReversionImbalanceStrategy.BlockSymbol | strategies/mean_reversion_imbalance.py:762-774 | blocks only ever grow longer |
| Strategy.MeanReversionImbalanceStrategy.IsSymbolBlocked | strategies/mean_reversion_imbalance.py:783-796 | the answer, and that an expired block is forgotten |
| Strategy.MeanReversionImbalanceStrategy.ImbalanceConfirmed | strategies/mean_reversion_imbalance.py:850-869 | true exactly when the last confirm_snapshots imbalances all reach the threshold, in either direction |
| Strategy.MeanReversionImbalanceStrategy.BuildEntrySignal | strategies/mean_reversion_imbalance.py:397-476 | the entry decision and the imbalance it remembers |
| Strategy.MeanReversionImbalanceStrategy.WhenFlat | strategies/mean_reversion_imbalance.py:305-347 | gates in order, entry, entry stamp |
| Strategy.MeanReversionImbalanceStrategy.WhenHolding | strategies/mean_reversion_imbalance.py:349-390 | exit cooldown, exit, exit stamp, block by exit kind |
| Strategy.MeanReversionImbalanceStrategy.OnOrderbook | strategies/mean_reversion_imbalance.py:244-395 | the whole step on one order book |
| SignalLaws.ExitsExactly | strategies/mean_reversion_imbalance.py:349-390 | while a position is held an exit of each kind is signalled if and only if the strategy is ready, off its exit cooldown, and that exit is the first due, each test stated on the profit of the ledger over cost; it closes the whole position |
| SignalLaws.ReasonIsDue | strategies/mean_reversion_imbalance.py:478-585 | the four exit tests in order: each threshold holds in basis points if and only if it holds on the profit of the ledger |
| SignalLaws.StopLossIsSignalled | strategies/mean_reversion_imbalance.py:505-506 | with a fixed stop a loss at the stop is always signalled |
| SignalLaws.EntersExactly | strategies/mean_reversion_imbalance.py:305-347 | while nothing is held an entry is signalled if and only if the strategy is ready, no block, falling window, cooldown or watched market forbids it, and a buy or a sell is due; its side and price |
| SignalLaws.BadTrendBlocks | strategies/mean_reversion_imbalance.py:312-319 | a window that fell too far blocks the symbol for the loss cooldown |
| SignalLaws.ExpiredBlockIsForgotten | strategies/mean_reversion_imbalance.py:783-796 | a block that has run out is forgotten when the flat symbol is next looked at |
| SignalLaws.FirstSeenIsKept | strategies/mean_reversion_imbalance.py:305-356 | the time a position was first seen is kept while it is held and forgotten once it is not |
| SignalLaws.ImbalanceIsRemembered | strategies/mean_reversion_imbalance.py:850-869 | whenever a buy is otherwise due its imbalance is remembered, and only the last confirm_snapshots are |
| StrategyLaws.BookEffects | strategies/mean_reversion_imbalance.py:305-390 | whichever branch, a signal means its cooldown and block had passed and its stamp and block are set |
| StrategyLaws.PlayKeeps | strategies/mean_reversion_imbalance.py:722-796 | the invariant tying every signal ever emitted to the stamps and blocks still held |
| StrategyLaws.SignalsAreSpaced | strategies/mean_reversion_imbalance.py:305-796 | over every stream with a clock that does not run back: entries cooldown apart, exits max(5, min(cooldown, 30)) apart, no entry within the block of an earlier exit (loss cooldown after a stop loss), every exit of opposite side and full size |
| StrategyLaws.SpacingInSeconds | strategies/mean_reversion_imbalance.py:722-796 | the same spacing in the seconds of the configuration |
| StrategyLaws.ExitBlocksExactly | strategies/mean_reversion_imbalance.py:370-390 | a symbol not blocked otherwise is blocked after an exit for exactly the time of its kind: none after a mean_reversion_profit |
| StrategyLaws.EntryMayFollowReversionProfit | strategies/mean_reversion_imbalance.py:305-347 | on any book a flat strategy decides on an entry after such an exit as it would have before it |
| StrategyLaws.WindowIsRecent | strategies/mean_reversion_imbalance.py:621-633 | a symbol's window is always the last rolling_window mids it was fed |
| ExitLaws.ExitFlattens | portfolio/position_ledger.py:119-150 | a full exit fill removes the position and realises exactly its gross profit less the fee |
| ExitLaws.BpsMeans | strategies/mean_reversion_imbalance.py:497-543 | the strategy's basis points are the ledger's profit on the cost |
| ExitLaws.OnlyStopLossLoses | strategies/mean_reversion_imbalance.py:497-561 | at the judged price only a stop_loss exit has a gross loss; with a fixed stop it always has |
| ExitLaws.BuiltPosition | portfolio/position_ledger.py:106-117 | a position built by any number of taker fills has paid exactly the fee on its size at its average entry |
| ExitLaws.RoundTrip | strategies/mean_reversion_imbalance.py:142-155 | round-trip profit after taker fees is positive if and only if the basis points gained, weighed for the exit fee, exceed twice the fee |
| ExitLaws.TakeProfitPays | strategies/mean_reversion_imbalance.py:503-548 | every take_profit exit filled at its judged price realises a strictly positive round trip after fees on all legs, long or short, for any taker fee below 50% |
| ExitLaws.HalfFeeBreaksEven | strategies/mean_reversion_imbalance.py:805-809 | at 50% it can break even |
| ExitLaws.SlippedReturn | backtesting/slippage_model.py:11-28 | a round trip filled at the slipped quote earns what its basis points at the quote say |
| ExitLaws.SlippedTakeProfitIff | strategies/mean_reversion_imbalance.py:805-809 | filled as a market order at the slipped quote, every take_profit of a position pays if and only if the configured threshold covers fee and slippage |
| ExitLaws.ThresholdCoversSlippage | strategies/mean_reversion_imbalance.py:142-155 | with the slippage it was configured for it does: for shorts always, for longs when fee and slippage leave more than half of a sale |
| ExitLaws.TakeProfitPaysSlipped | strategies/mean_reversion_imbalance.py:503-548 | so such an exit of a position built by any number of fills realises a strictly positive round trip on the ledger |
| ExitLaws.EntryNotional | strategies/mean_reversion_imbalance.py:587-605 | an entry's notional lies between the order minimum and the position maximum, and is the target when that does |
| ExitLaws.ReversionMeetsTheExit | strategies/mean_reversion_imbalance.py:414-417 | a long entered at its mid meets an exit threshold as soon as it can be sold at the average it was judged by |
| MarketLaws.LimitOrdersRest | strategies/mean_reversion_imbalance.py:607-619 | on the quotes they were made for limit orders never cross the spread, and market orders fill at once at the other side or worse |
| SimExchange.SimulatedExchange.UpdateTick | backtesting/simulated_exchange.py:57-61 | the symbol's tick is replaced |
| SimExchange.SimulatedExchange.UpdateOrderbook | backtesting/simulated_exchange.py:63-67 | the symbol's book is replaced |
| SimExchange.SimulatedExchange.DetermineFillPrice | backtesting/simulated_exchange.py:219-262 | market at the slipped best quote, limit at the quote when it crosses, else resting or raising |
| SimExchange.SimulatedExchange.CreateOrder | backtesting/simulated_exchange.py:158-217 | raises without a trace, or stores the order under the next id |
| SimExchange.OrdersMeetQuotes | backtesting/simulated_exchange.py:158-262 | a limit order fills if and only if its price reaches the best of the other side, and at that quote; a market order fills at the quote moved by the slippage; what raises; every fill pays the rate on its notional |
| SimExchange.SlippageHurts | backtesting/slippage_model.py:11-28 | slippage moves the price only against the order |
| SimExchange.FeeIsNotNegative | backtesting/fee_model.py:11-19 | fees are never negative |
| MarketLaws.EquityStep | portfolio/position_ledger.py:85-150 | a fill changes realised plus unrealised profit by exactly its distance from the mark, its fee and the dust |
| MarketLaws.FillCostsExactly | backtesting/simulated_exchange.py:200-217 | a fill lowers total profit by exactly its distance from the mark plus rate times amount times price, less the dust |
| MarketLaws.RunCostsExactly | backtesting/fee_model.py:11-19 | from flat, over any order sequence, total profit is minus the distance traded from the marks, minus the rate on the traded notional, plus the dust |
| MarketLaws.FillsCost | backtesting/simulated_exchange.py:219-262 | every simulated fill is on the wrong side of a mark between bid and ask |
| MarketLaws.NoFreeMoney | backtesting/simulated_exchange.py:158-262 | no order raises total profit marked between bid and ask, if and only if dropped dust does not outweigh its cost |
| MarketLaws.NoFreeMoneyEver | backtesting/simulated_exchange.py:158-262 | from flat, any order sequence on a fixed book ends at most the dust bound above zero |
| RateLimiter.RateLimiter.constructor | core/rate_limiter.py:20-25 | full at the start; without a burst the capacity is the whole part of the rate, at least one |
| RateLimiter.RateLimiter.Refill | core/rate_limiter.py:27-31 | refilled to the clock, capped |
| RateLimiter.RateLimiter.WaitTime | core/rate_limiter.py:33-37 | the wait after refilling, and the division by a zero rate |
| RateLimiter.RateLimiter.TryAcquire | core/rate_limiter.py:59-66 | takes one token exactly when one is there |
| RateLimiter.RateLimiter.AcquireSync | core/rate_limiter.py:39-47 | over any passes, with any attempts of other callers in between: acquires at the first pass that finds a token, raises on a rate that is not positive, else keeps waiting |
| RateLimiter.TokenBucket.TryConsume | utils.py:187-194 | takes the amount exactly when it is there |
| RateLimiter.TokenBucket.Consume | utils.py:182-196 | the same for any amount, raising where the sleep cannot be computed or is negative |
| RateLimiter.GrantsArePaidFor | core/rate_limiter.py:27-66 | over any interleaving of attempts tokens stay in [0, capacity] and grants plus tokens left are at most the start plus the refill |
| RateLimiter.WindowBound | core/rate_limiter.py:27-66 | in any window grants are at most capacity + rate * length, for any amounts |
| RateLimiter.WaitSuffices | core/rate_limiter.py:33-47 | the attempt after the returned wait succeeds if and only if the capacity holds one token |
| RateLimiter.WaitIsLeast | core/rate_limiter.py:33-37 | no attempt before the returned wait is over succeeds |
| RateLimiter.BurstIsServed | core/rate_limiter.py:39-66 | as many attempts as the tokens cover are granted at once, each taking exactly its amount |
| RateLimiter.NapLasts | utils.py:196 | a nap is a tenth of the refill time of the amount plus a millisecond |
| RateLimiter.BlockingIsAttempts | core/rate_limiter.py:39-47 | a blocking call among competitors is one more interleaving of attempts, so the bounds on grants cover it |
| RateLimiter.OneSleepIsEnough | core/rate_limiter.py:39-47 | without competitors one sleep of at least the returned wait is enough if and only if the capacity holds a token |
| RateLimiter.TenNapsAreEnough | utils.py:182-196 | without competitors ten sleeps, however late they wake, are enough if and only if the capacity holds the amount |
| RateLimiter.BeyondCapacityBlocks | utils.py:182-196 | a call for more than the capacity never acquires, however long it blocks |
| OrderBookWalk.PriceImpact | websocket_ob.py:118-141 | the loop computes the recursive walk, its 2% answer and its division by zero |
| OrderBookWalk.WalkIsSpent | websocket_ob.py:126-134 | the walk fills exactly when the depth reaches the size, at the cost of a fill from the best level on |
| OrderBookWalk.AverageIsBetween | websocket_ob.py:126-137 | the average price lies between the best and the last touched price, on either side |
| OrderBookWalk.ImpactIsNotNegative | websocket_ob.py:118-141 | impact is never negative on a sorted, uncrossed book |
| OrderBookWalk.ImpactIsMonotone | websocket_ob.py:118-141 | within the depth, a larger order has at least the impact of a smaller one |
| OrderBookWalk.ImpactDropsIff | websocket_ob.py:135-141 | an order beyond the depth has a lower impact than one within it if and only if the latter's average is more than 2% beyond the mid |
| OrderBookWalk.ImpactDropsBeyondDepth | websocket_ob.py:135-136 | one unit beyond the depth a steep book's impact drops to 2% |
| MetricKeys.ParseKey | monitoring/prometheus/exporter.py:66-79 | the loop over the parts computes the parsed name and labels |
| MetricKeys.SortedSorts | metrics/metrics_registry.py:94 | the items in key order, each exactly once |
| MetricKeys.SortedIsCanonical | metrics/metrics_registry.py:94 | the printed order does not depend on insertion order |
| MetricKeys.OrderIsByFirstDifference | metrics/metrics_registry.py:94 | the order of keys is that of the first difference |
| MetricKeys.OpeningOfKey | monitoring/prometheus/exporter.py:63-74 | where the pattern first matches in a printed key |
| MetricKeys.StripKeepsTheMiddle | monitoring/prometheus/exporter.py:78 | stripping removes white space on both sides and nothing else |
| MetricKeys.RoundTripIff | monitoring/prometheus/exporter.py:63-79 | parsing a printed key returns its name and labels if and only if they are readable: no comma, line break or outer space in labels, no equals sign in label keys, no brace in the name the pattern could match |
| MetricKeys.PlainNamesAreReadable | metrics/metrics_registry.py:91-95 | names without an opening brace are readable |
| MetricKeys.KeysAreUnique | metrics/metrics_registry.py:91-95 | readable keys are equal if and only if names and label sets are |
| MetricKeys.UnreadableKeysCollide | metrics/metrics_registry.py:94 | two label sets that share a key |
| TradeStats.RiskManager.OnLoss | risk.py:159-172 | counters, and the breaker with its pause |
| TradeStats.RiskManager.OnWin | risk.py:174-177 | counters, and the streak cleared |
| TradeStats.RiskManager.UpdateStats | risk.py:284-296 | running averages, win rate and expectancy |
| TradeStats.RiskManager.ResetDaily | risk.py:340-346 | the daily counters, stop and bar counter are cleared and the day's equity set, nothing else |
| TradeStats.RiskManager.CloseTrade | main_legacy.py:357-370 | the calls made for a closed trade |
| TradeStats.RMultipleSign | main_legacy.py:357-358 | a trade's R multiple has the sign of its profit |
| TradeStats.RMultipleMeans | main_legacy.py:357-358 | a trade's R multiple times its risk is its profit, with a least risk of a millionth |
| TradeStats.StatisticsAreMeans | risk.py:284-296 | over any run of trades and daily resets the running averages are the means of winning and losing R, and the expectancy is the mean of all R |
| TradeStats.ExpectancyIsProfit | risk.py:284-296 | over any run of trades at equal risk the expectancy times trades times risk is the profit made |
| TradeStats.CountersCount | risk.py:159-177 | daily counters are the wins and losses since the last midnight, the totals those of all time, the win rate their ratio |
| TradeStats.BreakerIsExact | risk.py:159-177 | the breaker trips on exactly every limit-th consecutive loss, and the pause is that of the last trip |
| TradeStats.TripPausesFor | risk.py:164-168 | a trip pauses for four hours times the trips so far, two days at most |
| TradeStats.PausesNeverShrink | risk.py:164-168 | while the clock does not run back, nothing shortens a pause |
| Drawdown.MaxDrawdownPct | backtesting/performance_metrics.py:218-239 | on a non-negative curve the result is the largest fall over all pairs, in [0, 100] |
| Drawdown.NeverOverstated | backtesting/performance_metrics.py:218-239 | on any curve the result is a fall that happened, or 0 on a curve never positive |
| Drawdown.OnePassIsQuadratic | backtesting/performance_metrics.py:218-239 | one pass equals the maximum over all pairs when no value is negative |
| Drawdown.PeaksAndTroughs | backtesting/performance_metrics.py:218-239 | on any curve every fall is at most the larger of what the running peak and the lowest positive value see |
| Drawdown.OnePassIffTroughsAreShallow | backtesting/performance_metrics.py:218-239 | on any curve one pass is the maximum over all pairs if and only if every fall from a lowest positive value to a negative one is matched by some fall from a running peak |
| Drawdown.NegativeEquityIsUnderstated | backtesting/performance_metrics.py:226-227 | with a negative value the two part |

## Left out

- Ledger.PositionLedger: positions are values in a map rather than shared objects (the source's accessors hand out copies, so no alias escapes); locks, timestamps, trade, order and strategy identifiers are not modelled, and the side is already parsed from its text.
- LedgerLaws.SplitInvariance: compares quantity, entry and the ledger's realised total; the per-position realised figure depends on splitting, because the fees of opening and adding fills are not booked on the position.
- Floating-point rounding and `round(..., 8)` of quantities: arithmetic is exact.
- ResponsePayload.NormalizePayload: reading a text as a number is an input.
- Strategy.MeanReversionImbalanceStrategy.OnOrderbook: z-score and volatility are inputs; the clock is read twice per call, once for the gates and once for what is recorded; the strategy's metric counters, reasons and confidence; conversion of text fields.
- Runtime.DeliveryIsHandling: one dispatch is atomic, only a momentum scan interleaves with it; in the services the order of breaches follows the dictionary, so they are tied to the transition system up to that order.
- RuntimeLaws.Quiescence: one momentum scan at a time, as the scanner's loop awaits each symbol; restarting the bus is not a step.
- RateLimiter.RateLimiter.AcquireSync: the passes and the turns of other callers are inputs, so a call that never returns is one that keeps waiting over all of them; the asynchronous twin only differs in how it sleeps.
- TradeStats.RiskManager.ResetDaily: the loss and drawdown checks that read the daily stop and equity.
- Exchange connectivity and polling, `OrderBookManager`, websockets: the network.
- Database, state file, loggers, dashboards, health server, Telegram, Prometheus server, command line: effects and plumbing.
- Models, reinforcement learning, indicators, the analysis behind a momentum signal: library numerics.
- The backtest loop and backtest strategy service (which does not read the kill switch), market maker and other legacy loops.
- Position sizing, Kelly fraction, slippage blacklist, Sharpe and Sortino, order-book ratios: only easy members.
