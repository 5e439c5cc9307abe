/** Safety and progress of the live runtime over whole runs. */
module RuntimeLaws {
  import opened Common
  import opened RealSums
  import opened Ledger
  import opened LedgerLaws
  import opened Exposure
  import opened PreTradeRisk
  import opened Execution
  import opened ExecutionLaws
  import opened Strategy
  import opened KillSwitch
  import opened EventBus
  import opened Runtime

  // ---------- steps of the whole runtime ----------

  /** The bus with its world, and whether a momentum scan is waiting for its data. */
  datatype System = System(bus: Bus, scanning: bool)

  datatype Step =
    | Produced(event: Body)
    | ProducedJunk
    | StopRequested
    | Dispatched
    | ScanStarted
    | ScanFinished(request: Option<(OrderState, map<string, real>)>)
    | Tripped(why: TripReason)
    | SwitchReset

  function Queued(sys: System, item: Item<Body>): System {
    sys.(bus := sys.bus.(queue := sys.bus.queue + [item]))
  }

  function WithKill(sys: System, k: KillState): System {
    sys.(bus := sys.bus.(world := sys.bus.world.(kill := k)))
  }

  /** Market data comes from outside; a scan starts only while the switch is active, and one scan at
      a time; a finished scan publishes at most one order request, without looking at the switch again. */
  predicate Can(sys: System, step: Step) {
    match step
    case Produced(event) => event.MarketTick? || event.OrderbookSnapshot?
    case Dispatched => sys.bus.queue != [] && sys.bus.waiting
    case ScanStarted => !sys.scanning && !Triggered(sys.bus.world.kill)
    case ScanFinished(_) => sys.scanning
    case _ => true
  }

  ghost function Do(s: Setup, o: Outside, sys: System, step: Step): System
    requires Can(sys, step)
  {
    match step
    case Produced(event) => Queued(sys, Event(TopicOf(event), event))
    case ProducedJunk => Queued(sys, Untyped)
    case StopRequested => sys.(bus := Stopped(sys.bus))
    case Dispatched => sys.(bus := Dispatch(s, o, sys.bus))
    case ScanStarted => sys.(scanning := true)
    case ScanFinished(request) =>
      var done := sys.(scanning := false);
      if request.None? then done
      else Queued(done, Event("ORDER_REQUEST", OrderRequest(request.value.0, request.value.1)))
    case Tripped(why) => WithKill(sys, Triggering(sys.bus.world.kill, why))
    case SwitchReset => WithKill(sys, ARMED)
  }

  ghost predicate Runs(s: Setup, o: Outside, sys: System, steps: seq<Step>)
    decreases |steps|
  {
    steps == [] || (Can(sys, steps[0]) && Runs(s, o, Do(s, o, sys, steps[0]), steps[1..]))
  }

  ghost function DoAll(s: Setup, o: Outside, sys: System, steps: seq<Step>): System
    requires Runs(s, o, sys, steps)
    decreases |steps|
  {
    if steps == [] then sys else DoAll(s, o, Do(s, o, sys, steps[0]), steps[1..])
  }

  // ---------- what one dispatch does ----------

  function IsRequest(item: Item<Body>): nat {
    if item.Event? && item.body.OrderRequest? then 1 else 0
  }

  /** Order requests waiting on the bus. */
  function Requests(queue: seq<Item<Body>>): nat {
    if queue == [] then 0 else IsRequest(queue[0]) + Requests(queue[1..])
  }

  lemma {:induction false} RequestsSum(x: seq<Item<Body>>, y: seq<Item<Body>>)
    ensures Requests(x + y) == Requests(x) + Requests(y)
  {
    if x == [] {
      assert x + y == y;
    } else {
      RequestsSum(x[1..], y);
      assert (x + y)[1..] == x[1..] + y;
    }
  }

  lemma OneItem(e: Body)
    ensures Items([e], TopicOf) == [Event(TopicOf(e), e)]
  {
    assert [e][..0] == [];
  }

  lemma {:induction false} RiskEventItems(breaches: seq<RiskBreach>, n: nat)
    requires n <= |breaches|
    ensures |Items(RiskEvents(breaches)[..n], TopicOf)| == n
    ensures forall item | item in Items(RiskEvents(breaches)[..n], TopicOf) :: item.Event? && item.body.RiskEvent?
  {
    if n > 0 {
      RiskEventItems(breaches, n - 1);
      assert RiskEvents(breaches)[..n][..n - 1] == RiskEvents(breaches)[..n - 1];
    }
  }

  lemma {:induction false} NoRequests(queue: seq<Item<Body>>)
    requires forall item | item in queue :: IsRequest(item) == 0
    ensures Requests(queue) == 0
  {
    if queue != [] {
      NoRequests(queue[1..]);
    }
  }

  /** What a handled event publishes, as items. */
  ghost function PublishedBy(s: Setup, o: Outside, w: World, topic: string, e: Body): seq<Item<Body>> {
    Items(Handle(s, o, w, topic, e).published, TopicOf)
  }

  lemma DispatchIs(s: Setup, o: Outside, b: Bus)
    requires b.queue != [] && b.waiting
    ensures Dispatch(s, o, b) ==
      match b.queue[0]
      case Stop => BusState(b.queue[1..], b.running, false, b.world)
      case Untyped => BusState(b.queue[1..], b.running, b.running, b.world)
      case Event(topic, e) =>
        BusState(b.queue[1..] + PublishedBy(s, o, b.world, topic, e), b.running, b.running,
                 Handle(s, o, b.world, topic, e).world)
  {
    hide Handle, Live, Deliver, Items;
    if b.queue[0].Event? {
      DeliveryIsHandling(s, o, b.world, b.queue[0].topic, b.queue[0].body);
    }
  }

  lemma {:induction false} LatchHolds(k: KillState, breaches: seq<RiskBreach>)
    requires Triggered(k)
    ensures KillAfter(k, breaches) == k
  {
    if breaches != [] {
      LatchHolds(k, breaches[..|breaches| - 1]);
    }
  }

  /** Anything but an order request or a report leaves ledger, switch and sent orders alone, and publishes at
      most one order request, for an order book and with the switch active. */
  lemma MarketHandling(s: Setup, o: Outside, w: World, topic: string, e: Body)
    requires !(topic == "ORDER_REQUEST" && e.OrderRequest?)
    requires !(topic == "EXECUTION_REPORT" && e.ExecutionReport?)
    ensures var h := Handle(s, o, w, topic, e);
            && h.world.kill == w.kill && h.world.sent == w.sent && h.world.ledger == w.ledger
            && |h.published| <= 1
            && (h.published != [] ==> h.published[0].OrderRequest? && e.OrderbookSnapshot? && !Triggered(w.kill))
  {
    hide FlatStep, HoldingStep, TickStep;
  }

  lemma OrderPublishesReport(s: Setup, o: Outside, w: World, e: Body)
    requires e.OrderRequest?
    ensures var h := Handle(s, o, w, "ORDER_REQUEST", e);
            && h.world.kill == w.kill && w.sent <= h.world.sent && |h.world.sent| <= |w.sent| + 1
            && |h.published| <= 1 && (h.published != [] ==> h.published[0].ExecutionReport?)
  {
    hide SubmitOf;
  }

  lemma ReportPublishesRiskEvents(s: Setup, o: Outside, w: World, e: Body)
    requires e.ExecutionReport?
    ensures var h := Handle(s, o, w, "EXECUTION_REPORT", e);
            && h.world == w.(kill := KillAfter(w.kill, e.breaches)) && h.published == RiskEvents(e.breaches)
    ensures |RiskEvents(e.breaches)| == |e.breaches|
    ensures forall item | item in PublishedBy(s, o, w, "EXECUTION_REPORT", e) :: item.Event? && item.body.RiskEvent?
    ensures |PublishedBy(s, o, w, "EXECUTION_REPORT", e)| == |e.breaches|
  {
    hide KillAfter, Items;
    RiskEventItems(e.breaches, |e.breaches|);
    assert RiskEvents(e.breaches)[..|e.breaches|] == RiskEvents(e.breaches);
  }

  lemma AtMostOneItem(published: seq<Body>)
    requires |published| <= 1
    ensures Items(published, TopicOf)
         == if published == [] then [] else [Event(TopicOf(published[0]), published[0])]
  {
    if published == [] {
      NoItems(TopicOf);
    } else {
      assert published == [published[0]];
      OneItem(published[0]);
    }
  }

  /** With the switch triggered, an event adds no order beyond the request it was, and the switch
      keeps its state. */
  lemma HandlingWhileTriggered(s: Setup, o: Outside, w: World, topic: string, e: Body)
    requires Triggered(w.kill)
    ensures var after := Handle(s, o, w, topic, e).world;
            && after.kill == w.kill
            && |after.sent| + Requests(PublishedBy(s, o, w, topic, e))
                 <= |w.sent| + (if e.OrderRequest? then 1 else 0)
            && w.sent <= after.sent
  {
    hide Handle, KillAfter, Items, RiskEvents;
    if topic == "ORDER_REQUEST" && e.OrderRequest? {
      OrderPublishesReport(s, o, w, e);
      AtMostOneItem(Handle(s, o, w, topic, e).published);
      NoRequests(PublishedBy(s, o, w, topic, e));
    } else if topic == "EXECUTION_REPORT" && e.ExecutionReport? {
      LatchHolds(w.kill, e.breaches);
      ReportPublishesRiskEvents(s, o, w, e);
      NoRequests(PublishedBy(s, o, w, topic, e));
    } else {
      MarketHandling(s, o, w, topic, e);
      NoItems(TopicOf);
      NoRequests([]);
    }
  }

  /** What a step other than a dispatch puts on the bus. */
  function Added(sys: System, step: Step): seq<Item<Body>> {
    match step
    case Produced(event) => [Event(TopicOf(event), event)]
    case ProducedJunk => [Untyped]
    case StopRequested => if sys.bus.running then [Stop] else []
    case ScanFinished(Some(request)) => [Event("ORDER_REQUEST", OrderRequest(request.0, request.1))]
    case _ => []
  }

  function KillBy(k: KillState, step: Step): KillState {
    match step
    case Tripped(why) => Triggering(k, why)
    case SwitchReset => ARMED
    case _ => k
  }

  function ScanningAfter(sys: System, step: Step): bool {
    match step
    case ScanStarted => true
    case ScanFinished(_) => false
    case _ => sys.scanning
  }

  /** Such a step changes the queue at its back, the switch and the scan, and nothing else that matters. */
  lemma StepAdds(s: Setup, o: Outside, sys: System, step: Step)
    requires Can(sys, step) && !step.Dispatched?
    ensures Do(s, o, sys, step).bus.queue == sys.bus.queue + Added(sys, step)
    ensures Do(s, o, sys, step).bus.world == sys.bus.world.(kill := KillBy(sys.bus.world.kill, step))
    ensures Do(s, o, sys, step).scanning == ScanningAfter(sys, step)
  {
    hide Dispatch, Triggering, TopicOf;
  }

  lemma AddedRequests(sys: System, step: Step)
    requires Can(sys, step)
    ensures Requests(Added(sys, step)) + (if ScanningAfter(sys, step) then 1 else 0)
         <= (if sys.scanning || step.ScanStarted? then 1 else 0)
    ensures forall item | item in Added(sys, step) :: !Alarming(item)
  {
    hide HasCritical;
  }

  /** Orders sent so far plus those that can still follow. */
  ghost function Exposed(sys: System): nat {
    |sys.bus.world.sent| + Requests(sys.bus.queue) + (if sys.scanning then 1 else 0)
  }

  lemma StepWhileTriggered(s: Setup, o: Outside, sys: System, step: Step)
    requires Can(sys, step) && step != SwitchReset && Triggered(sys.bus.world.kill)
    ensures var next := Do(s, o, sys, step);
            && next.bus.world.kill == sys.bus.world.kill
            && Exposed(next) <= Exposed(sys)
            && sys.bus.world.sent <= next.bus.world.sent
  {
    hide Handle, Dispatch, Do, Requests, Added, ScanningAfter, PublishedBy;
    var b := sys.bus;
    if step == Dispatched {
      DispatchWhileTriggered(s, o, sys);
    } else {
      StepAdds(s, o, sys, step);
      RequestsSum(b.queue, Added(sys, step));
      AddedRequests(sys, step);
      assert KillBy(b.world.kill, step) == b.world.kill;
    }
  }

  lemma DispatchWhileTriggered(s: Setup, o: Outside, sys: System)
    requires Can(sys, Dispatched) && Triggered(sys.bus.world.kill)
    ensures var next := Do(s, o, sys, Dispatched);
            && next.bus.world.kill == sys.bus.world.kill
            && Exposed(next) <= Exposed(sys)
            && sys.bus.world.sent <= next.bus.world.sent
  {
    hide Handle, Dispatch, PublishedBy;
    var b := sys.bus;
    DispatchIs(s, o, b);
    if b.queue[0].Event? {
      var topic, e := b.queue[0].topic, b.queue[0].body;
      HandlingWhileTriggered(s, o, b.world, topic, e);
      RequestsSum(b.queue[1..], PublishedBy(s, o, b.world, topic, e));
    }
  }

  /** After a trigger, over every run without a reset: the switch keeps its state and reason, orders
      already sent stay, and at most as many more are sent as order requests were queued at that
      moment, plus one for a momentum scan in flight. */
  lemma {:induction false} Quiescence(s: Setup, o: Outside, sys: System, steps: seq<Step>)
    requires Runs(s, o, sys, steps) && SwitchReset !in steps && Triggered(sys.bus.world.kill)
    ensures var end := DoAll(s, o, sys, steps);
            && end.bus.world.kill == sys.bus.world.kill
            && sys.bus.world.sent <= end.bus.world.sent
            && |end.bus.world.sent| - |sys.bus.world.sent|
                 <= Requests(sys.bus.queue) + (if sys.scanning then 1 else 0)
            && Exposed(end) <= Exposed(sys)
    decreases |steps|
  {
    hide Do, Can;
    if steps != [] {
      StepWhileTriggered(s, o, sys, steps[0]);
      Quiescence(s, o, Do(s, o, sys, steps[0]), steps[1..]);
    }
  }

  /** The extra order is real: with the switch triggered and nothing queued, a scan in flight still
      places one. */
  lemma ScanInFlightStillOrders(s: Setup, o: Outside, sys: System, order: OrderState)
    requires ValidSetup(s) && Triggered(sys.bus.world.kill) && sys.scanning
    requires sys.bus.queue == [] && sys.bus.waiting && sys.bus.world.ledger == EMPTY
    requires order == OrderState("X", Buy, 1.0, Market, None, Created, 0.0, 0.0)
    requires var env := o.surroundings(sys.bus.world.clock);
      env.reference == Some(1.0) && env.amountRule.NotOffered? && env.minNotional.None?
    requires s.execution.bounds.minOrder <= 1.0 <= s.execution.bounds.maxOrder
    requires s.execution.limits.maxGross >= 1.0 && s.execution.limits.maxNet >= 1.0
    requires s.execution.limits.maxWeight == 1.0
    ensures var steps := [ScanFinished(Some((order, map[]))), Dispatched];
            && Runs(s, o, sys, steps)
            && |DoAll(s, o, sys, steps).bus.world.sent| == |sys.bus.world.sent| + 1
  {
    hide Dispatch, Do;
    var step := ScanFinished(Some((order, map[])));
    var steps := [step, Dispatched];
    assert steps[1..] == [Dispatched];
    var queued := ScanQueues(s, o, sys, order);
    QueuedRequestStillOrders(s, o, queued, order);
  }

  lemma ScanQueues(s: Setup, o: Outside, sys: System, order: OrderState) returns (queued: System)
    requires sys.scanning && sys.bus.queue == []
    ensures queued == Do(s, o, sys, ScanFinished(Some((order, map[]))))
    ensures queued.bus == sys.bus.(queue := [Event("ORDER_REQUEST", OrderRequest(order, map[]))])
  {
    queued := Do(s, o, sys, ScanFinished(Some((order, map[]))));
  }

  /** So are the queued ones: a request queued before the trigger is still sent. */
  lemma QueuedRequestStillOrders(s: Setup, o: Outside, sys: System, order: OrderState)
    requires ValidSetup(s) && Triggered(sys.bus.world.kill)
    requires sys.bus.queue == [Event("ORDER_REQUEST", OrderRequest(order, map[]))]
    requires sys.bus.waiting && sys.bus.world.ledger == EMPTY
    requires order == OrderState("X", Buy, 1.0, Market, None, Created, 0.0, 0.0)
    requires var env := o.surroundings(sys.bus.world.clock);
      env.reference == Some(1.0) && env.amountRule.NotOffered? && env.minNotional.None?
    requires s.execution.bounds.minOrder <= 1.0 <= s.execution.bounds.maxOrder
    requires s.execution.limits.maxGross >= 1.0 && s.execution.limits.maxNet >= 1.0
    requires s.execution.limits.maxWeight == 1.0
    ensures Runs(s, o, sys, [Dispatched])
    ensures |DoAll(s, o, sys, [Dispatched]).bus.world.sent| == |sys.bus.world.sent| + 1
  {
    hide ExchangeOf, Allowed, Net, Gross, Dispatch;
    assert [Dispatched][1..] == [];
    DispatchIs(s, o, sys.bus);
    var env := o.surroundings(sys.bus.world.clock);
    FirstOrderIsAllowed(order, env, s.execution);
    SubmitEffects(order, EMPTY, map[], env, s.execution);
  }

  // ---------- the bus drains ----------

  function IsBook(item: Item<Body>): nat {
    if item.Event? && item.body.OrderbookSnapshot? then 1 else 0
  }

  function Books(queue: seq<Item<Body>>): nat {
    if queue == [] then 0 else IsBook(queue[0]) + Books(queue[1..])
  }

  /** How many dispatches an item can still cause, itself included, when at most `held` symbols can
      ever be held: a book one request, a request one report, a report its breaches. */
  function Cost(item: Item<Body>, held: nat): nat {
    if !item.Event? then 1
    else match item.body
      case OrderbookSnapshot(_) => 5 + held
      case OrderRequest(_, _) => 4 + held
      case ExecutionReport(breaches) => 1 + |breaches|
      case _ => 1
  }

  function Load(queue: seq<Item<Body>>, held: nat): nat {
    if queue == [] then 0 else Cost(queue[0], held) + Load(queue[1..], held)
  }

  lemma {:induction false} SumsOverQueue(x: seq<Item<Body>>, y: seq<Item<Body>>, held: nat)
    ensures Books(x + y) == Books(x) + Books(y)
    ensures Load(x + y, held) == Load(x, held) + Load(y, held)
  {
    if x == [] {
      assert x + y == y;
    } else {
      SumsOverQueue(x[1..], y, held);
      assert (x + y)[1..] == x[1..] + y;
    }
  }

  lemma {:induction false} LoadGrows(queue: seq<Item<Body>>, less: nat, more: nat)
    requires less <= more
    ensures Load(queue, less) <= Load(queue, more)
  {
    if queue != [] {
      LoadGrows(queue[1..], less, more);
    }
  }

  lemma {:induction false} CheapItems(queue: seq<Item<Body>>, held: nat)
    requires forall item | item in queue :: item.Event? && item.body.RiskEvent?
    ensures Load(queue, held) == |queue| && Books(queue) == 0 && Requests(queue) == 0
  {
    if queue != [] {
      CheapItems(queue[1..], held);
    }
  }

  /** The most symbols that can ever be held: each pending request may open one more. */
  ghost function MostHeld(b: Bus): nat {
    |b.world.ledger.holdings| + Requests(b.queue) + Books(b.queue)
  }

  /** An upper bound on the number of dispatches left. */
  ghost function DispatchesLeft(b: Bus): nat {
    Load(b.queue, MostHeld(b))
  }

  lemma {:induction false} OverweightLength(weights: map<string, real>, keys: set<string>, limit: real)
    requires keys <= weights.Keys
    ensures |Overweight(weights, keys, limit)| <= |keys|
    decreases |keys|
  {
    if keys != {} {
      OverweightLength(weights, keys - {Pick(keys)}, limit);
    }
  }

  lemma FewBreaches(positions: map<string, Holding>, marks: map<string, real>, l: Limits)
    ensures |BreachesOf(ExposureOf(positions, marks), l)| <= 2 + |positions|
  {
    hide Notional, Share, Overweight;
    var s := ExposureOf(positions, marks);
    OverweightLength(s.symbolWeights, s.symbolWeights.Keys, l.maxWeight);
    assert s.symbolWeights.Keys == positions.Keys;
    assert |positions.Keys| == |positions|;
  }

  lemma StoredOneMore(holdings: map<string, Holding>, symbol: string, h: Holding, eps: real)
    ensures |Store(holdings, symbol, h, eps)| <= |holdings| + 1
  {
    var after := Store(holdings, symbol, h, eps);
    assert after.Keys <= holdings.Keys + {symbol};
    SubsetSize(after.Keys, holdings.Keys + {symbol});
    assert |after.Keys| == |after| && |holdings.Keys| == |holdings|;
  }

  lemma {:induction false} SubsetSize(x: set<string>, y: set<string>)
    requires x <= y
    ensures |x| <= |y|
  {
    if x != {} {
      var e :| e in x;
      SubsetSize(x - {e}, y - {e});
    }
  }

  lemma MarkedSameSize(holdings: map<string, Holding>, prices: map<string, real>)
    ensures |MarkAll(holdings, prices)| == |holdings|
  {
    hide MarkOne;
    assert MarkAll(holdings, prices).Keys == holdings.Keys;
    assert |MarkAll(holdings, prices).Keys| == |MarkAll(holdings, prices)| && |holdings.Keys| == |holdings|;
  }

  /** A submit opens at most one symbol, and its report carries at most two breaches and one per
      held symbol. */
  lemma SubmitIsSmall(o: OrderState, st: LedgerState, marks: map<string, real>, env: Surroundings, c: Settings)
    requires c.eps >= 0.0
    ensures var r := SubmitOf(o, st, marks, env, c);
            && |r.ledger.holdings| <= |st.holdings| + 1
            && (r.event.Some? ==> |r.event.value| <= 2 + |r.ledger.holdings|)
  {
    hide Settled, RiskAllows, BreachesOf, ExposureOf, MarkAll, ReportOf, WithReport, Rounded, RoundedQuantity,
         Store, TradeOf;
    if VerdictOf(o, st, marks, env, c) == Cleared && env.answer.Some? {
      var f := FillIn(ReportOf(PreparedAs(o, env, Cleared), env.answer.value));
      var booked := Apply(st, f, c.eps);
      if Accepted(f) {
        StoredOneMore(st.holdings, f.symbol,
                      Settled(Before(st, f.symbol), Delta(f), f.price, f.fee, c.eps), c.eps);
      }
      MarkedSameSize(booked.holdings, marks);
      FewBreaches(MarkAll(booked.holdings, marks), marks, c.limits);
    }
  }

  /** Handling an event costs less than the event, and what it may open was counted before. */
  ghost predicate Shrinks(s: Setup, o: Outside, w: World, topic: string, e: Body, held: nat) {
    var after, published := Handle(s, o, w, topic, e).world, PublishedBy(s, o, w, topic, e);
    && |after.ledger.holdings| + Requests(published) + Books(published)
         <= |w.ledger.holdings| + IsRequest(Event(topic, e)) + IsBook(Event(topic, e))
    && Load(published, held) < Cost(Event(topic, e), held)
  }

  lemma OneItemSums(item: Item<Body>, held: nat)
    ensures Requests([item]) == IsRequest(item) && Books([item]) == IsBook(item)
    ensures Load([item], held) == Cost(item, held)
  {
    hide IsRequest, IsBook, Cost;
    assert [item][1..] == [];
  }

  lemma OrderShrinks(s: Setup, o: Outside, w: World, e: Body, held: nat)
    requires e.OrderRequest? && held >= |w.ledger.holdings| + 1
    ensures Shrinks(s, o, w, "ORDER_REQUEST", e, held)
  {
    hide SubmitOf, Items;
    var published := Handle(s, o, w, "ORDER_REQUEST", e).published;
    OrderPublishesReport(s, o, w, e);
    AtMostOneItem(published);
    if published != [] {
      OneItemSums(Event(TopicOf(published[0]), published[0]), held);
    }
    if s.execution.eps >= 0.0 {
      SubmitIsSmall(e.order, w.ledger, e.marks, o.surroundings(w.clock), s.execution);
    }
  }

  lemma ReportShrinks(s: Setup, o: Outside, w: World, e: Body, held: nat)
    requires e.ExecutionReport?
    ensures Shrinks(s, o, w, "EXECUTION_REPORT", e, held)
  {
    hide Handle, Items, KillAfter, RiskEvents, PublishedBy;
    ReportPublishesRiskEvents(s, o, w, e);
    CheapItems(PublishedBy(s, o, w, "EXECUTION_REPORT", e), held);
  }

  lemma MarketShrinks(s: Setup, o: Outside, w: World, topic: string, e: Body, held: nat)
    requires !(topic == "ORDER_REQUEST" && e.OrderRequest?)
    requires !(topic == "EXECUTION_REPORT" && e.ExecutionReport?)
    ensures Shrinks(s, o, w, topic, e, held)
  {
    hide Handle, Items;
    MarketHandling(s, o, w, topic, e);
    var published := Handle(s, o, w, topic, e).published;
    AtMostOneItem(published);
    if published != [] {
      OneItemSums(Event(TopicOf(published[0]), published[0]), held);
    }
  }

  /** What handling one event costs and adds. */
  lemma HandlingShrinks(s: Setup, o: Outside, w: World, topic: string, e: Body, held: nat)
    requires held >= |w.ledger.holdings| + IsRequest(Event(topic, e))
    ensures Shrinks(s, o, w, topic, e, held)
  {
    hide Shrinks;
    if topic == "ORDER_REQUEST" && e.OrderRequest? {
      OrderShrinks(s, o, w, e, held);
    } else if topic == "EXECUTION_REPORT" && e.ExecutionReport? {
      ReportShrinks(s, o, w, e, held);
    } else {
      MarketShrinks(s, o, w, topic, e, held);
    }
  }

  /** Every dispatch brings the bound down. */
  lemma DispatchShrinks(s: Setup, o: Outside, b: Bus)
    requires b.queue != [] && b.waiting
    ensures DispatchesLeft(Dispatch(s, o, b)) < DispatchesLeft(b)
  {
    hide Handle, Dispatch, Cost;
    var next := Dispatch(s, o, b);
    DispatchIs(s, o, b);
    var rest := b.queue[1..];
    if b.queue[0].Event? {
      var topic, e := b.queue[0].topic, b.queue[0].body;
      var published := PublishedBy(s, o, b.world, topic, e);
      HandlingShrinks(s, o, b.world, topic, e, MostHeld(b));
      RequestsSum(rest, published);
      SumsOverQueue(rest, published, MostHeld(b));
      SumsOverQueue(rest, published, MostHeld(next));
      LoadGrows(next.queue, MostHeld(next), MostHeld(b));
    } else {
      PlainItemCost(b.queue[0], MostHeld(b));
      LoadGrows(rest, MostHeld(next), MostHeld(b));
    }
  }

  lemma PlainItemCost(item: Item<Body>, held: nat)
    requires !item.Event?
    ensures Cost(item, held) == 1
  {
  }

  /** Once the producers are silent, the bus empties (or its loop has ended) after at most
      DispatchesLeft dispatches, whatever the services and the outside do. */
  lemma {:induction false} BusDrains(s: Setup, o: Outside, b: Bus, n: nat)
    requires n >= DispatchesLeft(b)
    ensures var end := Turns(Live(s, o), TopicOf, b, n);
            end.queue == [] || !end.waiting
    decreases n
  {
    hide Live, Turn, MostHeld;
    if b.queue != [] && b.waiting {
      DispatchShrinks(s, o, b);
      BusDrains(s, o, Dispatch(s, o, b), n - 1);
    }
  }

  // ---------- when the risk service trips the switch ----------

  /** No queued report will trigger the switch. */
  predicate ReportsClean(queue: seq<Item<Body>>) {
    forall item | item in queue :: !Alarming(item)
  }

  predicate Alarming(item: Item<Body>) {
    item.Event? && item.topic == "EXECUTION_REPORT" && item.body.ExecutionReport? && HasCritical(item.body.breaches)
  }

  ghost predicate Calm(sys: System) {
    !Triggered(sys.bus.world.kill) && ReportsClean(sys.bus.queue)
  }

  predicate IsOrder(sys: System, step: Step)
    requires Can(sys, step)
  {
    && step.Dispatched? && sys.bus.queue[0].Event?
    && sys.bus.queue[0].topic == "ORDER_REQUEST" && sys.bus.queue[0].body.OrderRequest?
  }

  /** An order request about to be dispatched will be reported with a fill that overshoots a limit. */
  ghost predicate Breaching(s: Setup, o: Outside, sys: System, step: Step)
    requires ValidSetup(s) && Can(sys, step)
  {
    IsOrder(sys, step) &&
    var w, e := sys.bus.world, sys.bus.queue[0].body;
    && Submission(s, o, w, e).event.Some?
    && FillOvershoots(e.order, w.ledger, e.marks, o.surroundings(w.clock), s.execution)
  }

  /** An order request about to be dispatched is marked at its routed price and filled properly. */
  ghost predicate Orderly(s: Setup, o: Outside, sys: System, step: Step)
    requires ValidSetup(s) && Can(sys, step)
  {
    IsOrder(sys, step) ==>
      var w, e := sys.bus.world, sys.bus.queue[0].body;
      && MarkedAtReference(e.order, e.marks, o.surroundings(w.clock))
      && FillsProperly(e.order, w.ledger, e.marks, o.surroundings(w.clock), s.execution)
  }

  ghost predicate AnyBreaching(s: Setup, o: Outside, sys: System, steps: seq<Step>)
    requires ValidSetup(s) && Runs(s, o, sys, steps)
    decreases |steps|
  {
    steps != [] && (Breaching(s, o, sys, steps[0]) || AnyBreaching(s, o, Do(s, o, sys, steps[0]), steps[1..]))
  }

  ghost predicate AllOrderly(s: Setup, o: Outside, sys: System, steps: seq<Step>)
    requires ValidSetup(s) && Runs(s, o, sys, steps)
    decreases |steps|
  {
    steps == [] || (Orderly(s, o, sys, steps[0]) && AllOrderly(s, o, Do(s, o, sys, steps[0]), steps[1..]))
  }

  lemma {:induction false} KillAfterReport(k: KillState, breaches: seq<RiskBreach>)
    ensures Triggered(KillAfter(k, breaches)) <==> Triggered(k) || HasCritical(breaches)
    decreases |breaches|
  {
    if breaches != [] {
      var n := |breaches| - 1;
      KillAfterReport(k, breaches[..n]);
      if HasCritical(breaches) {
        var i :| 0 <= i < |breaches| && SeverityOf(breaches[i]) == Critical;
        assert i < n ==> breaches[..n][i] == breaches[i];
      }
      if HasCritical(breaches[..n]) {
        var i :| 0 <= i < n && SeverityOf(breaches[..n][i]) == Critical;
        assert breaches[i] == breaches[..n][i];
      }
    }
  }

  /** An order request publishes an alarming report exactly when its fill overshoots. */
  lemma OrderAlarm(s: Setup, o: Outside, w: World, e: Body)
    requires ValidSetup(s) && WellFormed(w.ledger, s.execution.eps) && e.OrderRequest?
    ensures var after := Handle(s, o, w, "ORDER_REQUEST", e).world;
            && WellFormed(after.ledger, s.execution.eps) && after.kill == w.kill
            && (ReportsClean(PublishedBy(s, o, w, "ORDER_REQUEST", e)) <==>
                !(Submission(s, o, w, e).event.Some?
                  && FillOvershoots(e.order, w.ledger, e.marks, o.surroundings(w.clock), s.execution)))
  {
    hide SubmitOf, WellFormed, HasCritical, FillOvershoots, ReportsClean, Alarming, Items;
    ReportIsCritical(e.order, w.ledger, e.marks, o.surroundings(w.clock), s.execution);
    SubmitKeepsWellFormed(e.order, w.ledger, e.marks, o.surroundings(w.clock), s.execution);
    var published := Handle(s, o, w, "ORDER_REQUEST", e).published;
    if published == [] {
      NoItems(TopicOf);
      assert ReportsClean([]) by { NothingIsClean(); }
    } else {
      assert published == [published[0]];
      OneItem(published[0]);
      OneReport(published[0].breaches);
    }
  }

  lemma NothingIsClean()
    ensures ReportsClean([])
  {
  }

  lemma OneReport(breaches: seq<RiskBreach>)
    ensures ReportsClean([Event("EXECUTION_REPORT", ExecutionReport(breaches))]) <==> !HasCritical(breaches)
  {
    hide HasCritical;
    var item := Event("EXECUTION_REPORT", ExecutionReport(breaches));
    assert item in [item];
  }

  /** A report triggers the switch exactly as its breaches say, and publishes only risk events. */
  lemma ReportAlarm(s: Setup, o: Outside, w: World, e: Body)
    requires e.ExecutionReport?
    ensures var after := Handle(s, o, w, "EXECUTION_REPORT", e).world;
            && after.ledger == w.ledger
            && (Triggered(after.kill) <==> Triggered(w.kill) || HasCritical(e.breaches))
            && ReportsClean(PublishedBy(s, o, w, "EXECUTION_REPORT", e))
  {
    hide Handle, KillAfter, HasCritical, Items, RiskEvents, PublishedBy;
    KillAfterReport(w.kill, e.breaches);
    ReportPublishesRiskEvents(s, o, w, e);
  }

  /** Nothing else matters. */
  lemma QuietHandling(s: Setup, o: Outside, w: World, topic: string, e: Body)
    requires !(topic == "ORDER_REQUEST" && e.OrderRequest?) && !(topic == "EXECUTION_REPORT" && e.ExecutionReport?)
    ensures var after := Handle(s, o, w, topic, e).world;
            after.ledger == w.ledger && after.kill == w.kill && ReportsClean(PublishedBy(s, o, w, topic, e))
  {
    hide Handle, HasCritical, Items;
    MarketHandling(s, o, w, topic, e);
    AtMostOneItem(Handle(s, o, w, topic, e).published);
  }

  /** What handling one event does to calmness. */
  lemma HandlingAlarm(s: Setup, o: Outside, w: World, topic: string, e: Body)
    requires ValidSetup(s) && WellFormed(w.ledger, s.execution.eps)
    ensures var after := Handle(s, o, w, topic, e).world;
            && WellFormed(after.ledger, s.execution.eps)
            && (Triggered(after.kill) <==> Triggered(w.kill) || Alarming(Event(topic, e)))
            && (ReportsClean(PublishedBy(s, o, w, topic, e)) <==>
                !(topic == "ORDER_REQUEST" && e.OrderRequest? && Submission(s, o, w, e).event.Some?
                  && FillOvershoots(e.order, w.ledger, e.marks, o.surroundings(w.clock), s.execution)))
  {
    hide Handle, PublishedBy, ReportsClean, WellFormed, HasCritical, FillOvershoots, Submission;
    if topic == "ORDER_REQUEST" && e.OrderRequest? {
      OrderAlarm(s, o, w, e);
    } else if topic == "EXECUTION_REPORT" && e.ExecutionReport? {
      ReportAlarm(s, o, w, e);
    } else {
      QuietHandling(s, o, w, topic, e);
    }
  }

  lemma DispatchAlarm(s: Setup, o: Outside, sys: System)
    requires ValidSetup(s) && Can(sys, Dispatched)
    requires WellFormed(sys.bus.world.ledger, s.execution.eps)
    ensures WellFormed(Do(s, o, sys, Dispatched).bus.world.ledger, s.execution.eps)
    ensures Calm(Do(s, o, sys, Dispatched)) <==> Calm(sys) && !Breaching(s, o, sys, Dispatched)
  {
    hide Dispatch, Handle, Submission, Alarming, WellFormed, FillOvershoots;
    var b := sys.bus;
    DispatchIs(s, o, b);
    assert b.queue == [b.queue[0]] + b.queue[1..];
    if b.queue[0].Event? {
      HandlingAlarm(s, o, b.world, b.queue[0].topic, b.queue[0].body);
      CleanSum(b.queue[1..], PublishedBy(s, o, b.world, b.queue[0].topic, b.queue[0].body));
    } else {
      PlainIsNotAlarming(b.queue[0]);
    }
    CleanSum([b.queue[0]], b.queue[1..]);
  }

  lemma PlainIsNotAlarming(item: Item<Body>)
    requires !item.Event?
    ensures !Alarming(item)
  {
  }

  lemma CleanSum(x: seq<Item<Body>>, y: seq<Item<Body>>)
    ensures ReportsClean(x + y) <==> ReportsClean(x) && ReportsClean(y)
    ensures |x| == 1 ==> (ReportsClean(x) <==> !Alarming(x[0]))
  {
    hide Alarming;
    assert forall item | item in x :: item in x + y;
    assert forall item | item in y :: item in x + y;
    if |x| == 1 {
      assert x[0] in x;
    }
  }

  /** Any other step but an explicit trigger or a reset leaves calmness as it is. */
  lemma OtherSteps(s: Setup, o: Outside, sys: System, step: Step)
    requires Can(sys, step) && !step.Dispatched? && !step.Tripped?
    ensures Do(s, o, sys, step).bus.world.ledger == sys.bus.world.ledger
    ensures Calm(sys) ==> Calm(Do(s, o, sys, step))
    ensures !step.SwitchReset? && Calm(Do(s, o, sys, step)) ==> Calm(sys)
  {
    hide Do, Alarming, ReportsClean, Added;
    StepAdds(s, o, sys, step);
    AddedRequests(sys, step);
    CleanSum(sys.bus.queue, Added(sys, step));
    assert ReportsClean(Added(sys, step)) by { QuietItems(Added(sys, step)); }
  }

  lemma QuietItems(items: seq<Item<Body>>)
    requires forall item | item in items :: !Alarming(item)
    ensures ReportsClean(items)
  {
    hide Alarming;
  }

  /** Over every run from a calm state, without triggers by hand and resets: the switch is triggered, or a
      report that will trigger it is queued, exactly when some dispatched order was reported with a fill
      that overshot the gross or the net limit. */
  lemma {:induction false} TripsExactlyOnOvershoot(s: Setup, o: Outside, sys: System, steps: seq<Step>)
    requires ValidSetup(s) && WellFormed(sys.bus.world.ledger, s.execution.eps)
    requires Runs(s, o, sys, steps)
    requires forall step | step in steps :: !step.Tripped? && !step.SwitchReset?
    ensures Calm(DoAll(s, o, sys, steps)) <==> Calm(sys) && !AnyBreaching(s, o, sys, steps)
    decreases |steps|
  {
    hide Do, Breaching, Calm, WellFormed;
    if steps != [] {
      var step := steps[0];
      assert step in steps;
      if step == Dispatched {
        DispatchAlarm(s, o, sys);
      } else {
        OtherSteps(s, o, sys, step);
        OnlyDispatchesBreach(s, o, sys, step);
      }
      TripsExactlyOnOvershoot(s, o, Do(s, o, sys, step), steps[1..]);
    }
  }

  lemma OnlyDispatchesBreach(s: Setup, o: Outside, sys: System, step: Step)
    requires ValidSetup(s) && Can(sys, step) && !step.Dispatched?
    ensures !Breaching(s, o, sys, step)
  {
  }

  /** In particular, over every run, resets included, in which each order request is marked at its routed
      price and filled properly, with nobody tripping the switch by hand, the switch is never triggered
      and no queued report carries a CRITICAL breach. */
  lemma {:induction false} OrderlyTradingNeverTrips(s: Setup, o: Outside, sys: System, steps: seq<Step>)
    requires ValidSetup(s) && Calm(sys) && WellFormed(sys.bus.world.ledger, s.execution.eps)
    requires Runs(s, o, sys, steps) && AllOrderly(s, o, sys, steps)
    requires forall step | step in steps :: !step.Tripped?
    ensures Calm(DoAll(s, o, sys, steps))
    decreases |steps|
  {
    hide Do, Calm, WellFormed, Orderly;
    if steps != [] {
      var step := steps[0];
      assert step in steps;
      if step == Dispatched {
        OrderlyIsNotBreaching(s, o, sys);
        DispatchAlarm(s, o, sys);
      } else {
        OtherSteps(s, o, sys, step);
      }
      OrderlyTradingNeverTrips(s, o, Do(s, o, sys, step), steps[1..]);
    }
  }

  lemma OrderlyIsNotBreaching(s: Setup, o: Outside, sys: System)
    requires ValidSetup(s) && Can(sys, Dispatched) && Orderly(s, o, sys, Dispatched)
    requires WellFormed(sys.bus.world.ledger, s.execution.eps)
    ensures !Breaching(s, o, sys, Dispatched)
  {
    hide SubmitOf, WellFormed, HasCritical, FillsProperly, FillOvershoots;
    if IsOrder(sys, Dispatched) {
      var w, e := sys.bus.world, sys.bus.queue[0].body;
      ReportsNeverCritical(e.order, w.ledger, e.marks, o.surroundings(w.clock), s.execution);
      ReportIsCritical(e.order, w.ledger, e.marks, o.surroundings(w.clock), s.execution);
    }
  }
}
