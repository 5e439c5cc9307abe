/** The live runtime as a transition system: market events, the strategy, the execution pipeline,
    the risk service and the kill switch around one event bus, plus the momentum scanner that
    reads the switch before it awaits its data. Every service is a callback on the bus. */
module Runtime {
  import opened Common
  import opened Ledger
  import opened Exposure
  import opened Execution
  import opened Strategy
  import opened KillSwitch
  import opened EventBus

  datatype Body =
    | MarketTick(symbol: string, mid: real)
    | OrderbookSnapshot(view: BookView)
    | OrderRequest(order: OrderState, marks: map<string, real>)
    | ExecutionReport(breaches: seq<RiskBreach>)
    | RiskEvent(breach: RiskBreach)

  function TopicOf(e: Body): string {
    match e
    case MarketTick(_, _) => "MARKET_TICK"
    case OrderbookSnapshot(_) => "ORDERBOOK_SNAPSHOT"
    case OrderRequest(_, _) => "ORDER_REQUEST"
    case ExecutionReport(_) => "EXECUTION_REPORT"
    case RiskEvent(_) => "RISK_BREACH"
  }

  /** Everything the callbacks act on. `sent` lists the orders given to create_order; `clock` counts
      the calls answered from outside. */
  datatype World = World(
    kill: KillState, strategy: State, ledger: LedgerState, sent: seq<SentOrder>, clock: nat)

  /** How everything outside behaves at each of those calls. */
  datatype Outside = Outside(
    surroundings: nat -> Surroundings,
    readings: nat -> Readings,
    marks: nat -> map<string, real>,
    logFails: nat -> bool)

  datatype Setup = Setup(strategy: Config, execution: Settings)

  predicate ValidSetup(s: Setup) {
    ValidConfig(s.strategy) && ValidSettings(s.execution)
  }

  // ---------- the callbacks ----------

  function Unaffected(w: World): Effect<World, Body> {
    Effect(w, [], false)
  }

  function OnMarketTick(s: Setup, w: World, e: Body): Effect<World, Body> {
    if e.MarketTick? then Unaffected(w.(strategy := TickStep(s.strategy, w.strategy, e.symbol, e.mid)))
    else Unaffected(w)
  }

  function HeldIn(st: LedgerState, symbol: string): Option<Held> {
    if symbol in st.holdings then Some(Held(st.holdings[symbol].quantity, st.holdings[symbol].averageEntry))
    else None
  }

  /** What turning a signal into an order insists on; the strategy service swallows a failure. */
  predicate SignalIsValid(c: Config, signal: Signal) {
    && signal.symbol != "" && signal.quantity > 0.0
    && (c.orderType == Limit ==> signal.price.Some? && signal.price.value > 0.0)
  }

  function OrderFor(c: Config, signal: Signal): OrderState {
    OrderState(signal.symbol, signal.side, signal.quantity, c.orderType, signal.price, Created, 0.0, 0.0)
  }

  function OnOrderbook(s: Setup, o: Outside, w: World, e: Body): Effect<World, Body> {
    if !e.OrderbookSnapshot? then Unaffected(w)
    else
      var (strategy, signal) := OrderbookStep(
        s.strategy, w.strategy, !Triggered(w.kill), e.view, o.readings(w.clock), HeldIn(w.ledger, e.view.symbol));
      Effect(w.(strategy := strategy, clock := w.clock + 1),
             if signal.Some? && SignalIsValid(s.strategy, signal.value)
             then [OrderRequest(OrderFor(s.strategy, signal.value), o.marks(w.clock))] else [],
             false)
  }

  ghost function Submission(s: Setup, o: Outside, w: World, e: Body): Outcome
    requires e.OrderRequest? && s.execution.eps >= 0.0
  {
    SubmitOf(e.order, w.ledger, e.marks, o.surroundings(w.clock), s.execution)
  }

  ghost function OnOrderRequest(s: Setup, o: Outside, w: World, e: Body): Effect<World, Body> {
    if !e.OrderRequest? || s.execution.eps < 0.0 then Unaffected(w)
    else
      var r := Submission(s, o, w, e);
      Effect(w.(ledger := r.ledger, clock := w.clock + 1,
                sent := w.sent + (if r.sent.Some? then [r.sent.value] else [])),
             if r.event.Some? then [ExecutionReport(r.event.value)] else [],
             false)
  }

  /** Every CRITICAL breach triggers the switch, in order. */
  function KillAfter(k: KillState, breaches: seq<RiskBreach>): KillState {
    if breaches == [] then k
    else
      var before, last := KillAfter(k, breaches[..|breaches| - 1]), breaches[|breaches| - 1];
      if SeverityOf(last) == Critical then Triggering(before, Breach) else before
  }

  function RiskEvents(breaches: seq<RiskBreach>): seq<Body> {
    seq(|breaches|, i requires 0 <= i < |breaches| => RiskEvent(breaches[i]))
  }

  function OnExecutionReport(w: World, e: Body): Effect<World, Body> {
    if !e.ExecutionReport? then Unaffected(w)
    else Effect(w.(kill := KillAfter(w.kill, e.breaches)), RiskEvents(e.breaches), false)
  }

  /** The risk event logger writes a file, which may fail. */
  function OnRiskEvent(o: Outside, w: World, e: Body): Effect<World, Body> {
    Effect(w, [], o.logFails(w.clock))
  }

  /** The subscriptions of the live container; the monitoring service only counts. */
  ghost function Live(s: Setup, o: Outside): Subscribers<World, Body> {
    map[
      "MARKET_TICK" := [(w, e) => OnMarketTick(s, w, e), (w, e) => Unaffected(w)],
      "ORDERBOOK_SNAPSHOT" := [(w, e) => OnOrderbook(s, o, w, e), (w, e) => Unaffected(w)],
      "ORDER_REQUEST" := [(w, e) => OnOrderRequest(s, o, w, e)],
      "EXECUTION_REPORT" := [(w, e) => OnExecutionReport(w, e), (w, e) => Unaffected(w)],
      "RISK_BREACH" := [(w, e) => OnRiskEvent(o, w, e), (w, e) => Unaffected(w)]
    ]
  }

  type Bus = BusState<World, Body>

  ghost function Dispatch(s: Setup, o: Outside, b: Bus): Bus
    requires b.queue != [] && b.waiting
  {
    Turn(Live(s, o), TopicOf, b)
  }

  /** The one callback of an event that matters. */
  ghost function Handle(s: Setup, o: Outside, w: World, topic: string, e: Body): Effect<World, Body> {
    if topic == "MARKET_TICK" then OnMarketTick(s, w, e)
    else if topic == "ORDERBOOK_SNAPSHOT" then OnOrderbook(s, o, w, e)
    else if topic == "ORDER_REQUEST" then OnOrderRequest(s, o, w, e)
    else if topic == "EXECUTION_REPORT" then OnExecutionReport(w, e)
    else Unaffected(w)
  }

  lemma DeliverFirst(first: Callback<World, Body>, w: World, e: Body)
    ensures Deliver([first], w, e) == (first(w, e).world, first(w, e).published)
  {
    assert [first][..0] == [] && Loop(true, [], w, e) == Delivery(w, [], [], 0, false);
    assert [] + first(w, e).published == first(w, e).published;
  }

  lemma DeliverThenIgnore(first: Callback<World, Body>, second: Callback<World, Body>, w: World, e: Body)
    requires forall v, d :: second(v, d).world == v && second(v, d).published == []
    ensures Deliver([first, second], w, e) == (first(w, e).world, first(w, e).published)
  {
    assert [first, second][..1] == [first];
    DeliverFirst(first, w, e);
    assert first(w, e).published + [] == first(w, e).published;
  }

  lemma DeliveryIsHandling(s: Setup, o: Outside, w: World, topic: string, e: Body)
    ensures Deliver(SubscribersOf(Live(s, o), topic), w, e)
         == (Handle(s, o, w, topic, e).world, Handle(s, o, w, topic, e).published)
  {
    hide OnMarketTick, OnOrderbook, OnOrderRequest, OnExecutionReport;
    var subs := Live(s, o);
    if topic == "ORDER_REQUEST" {
      DeliverFirst(subs[topic][0], w, e);
    } else if topic in subs {
      DeliverThenIgnore(subs[topic][0], subs[topic][1], w, e);
    }
  }
}
