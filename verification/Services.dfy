/** microservices/: the risk, execution, live strategy and momentum services as objects around the
    event bus. Their contracts are the callbacks the runtime is made of. */
module Services {
  import opened Common
  import opened Exposure
  import opened Execution
  import opened Strategy
  import opened KillSwitch
  import opened EventBus
  import opened Runtime

  type LiveBus = EventBus<World, Body>

  // ---------- risk ----------

  function CriticalCount(breaches: seq<RiskBreach>): nat {
    if breaches == [] then 0
    else CriticalCount(breaches[..|breaches| - 1])
         + (if SeverityOf(breaches[|breaches| - 1]) == Critical then 1 else 0)
  }

  /** The loop over the breaches, one further. */
  lemma OneMoreBreach(breaches: seq<RiskBreach>, i: nat, k: KillState, topicOf: Body -> string)
    requires i < |breaches|
    ensures CriticalCount(breaches[..i + 1])
         == CriticalCount(breaches[..i]) + (if SeverityOf(breaches[i]) == Critical then 1 else 0)
    ensures KillAfter(k, breaches[..i + 1])
         == (if SeverityOf(breaches[i]) == Critical then Triggering(KillAfter(k, breaches[..i]), Breach)
             else KillAfter(k, breaches[..i]))
    ensures Items(RiskEvents(breaches)[..i + 1], topicOf)
         == Items(RiskEvents(breaches)[..i], topicOf) + [ItemOf(RiskEvent(breaches[i]), topicOf)]
  {
    assert breaches[..i + 1][..i] == breaches[..i];
    assert RiskEvents(breaches)[..i + 1][..i] == RiskEvents(breaches)[..i];
  }

  lemma NothingYet(k: KillState, topicOf: Body -> string)
    ensures CriticalCount([]) == 0 && KillAfter(k, []) == k && Items([], topicOf) == []
  {
  }

  lemma WholeList<T>(s: seq<T>)
    ensures s[..|s|] == s
  {
  }

  class RiskService {
    const bus: LiveBus
    const killSwitch: KillSwitch
    var executionReportsSeen: nat
    var riskEventsEmitted: nat
    var criticalBreaches: nat

    constructor (bus: LiveBus, killSwitch: KillSwitch)
      ensures this.bus == bus && this.killSwitch == killSwitch
      ensures executionReportsSeen == riskEventsEmitted == criticalBreaches == 0
    {
      this.bus, this.killSwitch := bus, killSwitch;
      executionReportsSeen, riskEventsEmitted, criticalBreaches := 0, 0, 0;
    }

    method OnExecutionReport(breaches: seq<RiskBreach>)
      requires killSwitch.Valid()
      modifies this, bus`queue, killSwitch
      ensures killSwitch.Valid() && killSwitch.State() == KillAfter(old(killSwitch.State()), breaches)
      ensures bus.queue == old(bus.queue) + Items(RiskEvents(breaches), bus.topicOf)
      ensures executionReportsSeen == old(executionReportsSeen) + 1
      ensures riskEventsEmitted == old(riskEventsEmitted) + |breaches|
      ensures criticalBreaches == old(criticalBreaches) + CriticalCount(breaches)
    {
      hide KillAfter, Items, CriticalCount, Triggering;
      executionReportsSeen := executionReportsSeen + 1;
      ghost var events := RiskEvents(breaches);
      NothingYet(killSwitch.State(), bus.topicOf);
      assert breaches[..0] == [] && events[..0] == [];
      for i := 0 to |breaches|
        invariant killSwitch.Valid() && executionReportsSeen == old(executionReportsSeen) + 1
        invariant killSwitch.State() == KillAfter(old(killSwitch.State()), breaches[..i])
        invariant bus.queue == old(bus.queue) + Items(events[..i], bus.topicOf)
        invariant riskEventsEmitted == old(riskEventsEmitted) + i
        invariant criticalBreaches == old(criticalBreaches) + CriticalCount(breaches[..i])
      {
        OneMoreBreach(breaches, i, old(killSwitch.State()), bus.topicOf);
        if SeverityOf(breaches[i]) == Critical {
          criticalBreaches := criticalBreaches + 1;
          killSwitch.Trigger(Breach);
        }
        bus.Publish(RiskEvent(breaches[i]));
        riskEventsEmitted := riskEventsEmitted + 1;
      }
      WholeList(breaches);
      WholeList(events);
    }
  }

  // ---------- execution ----------

  class ExecutionService {
    const bus: LiveBus
    const pipeline: ExecutionPipeline
    var receivedRequests: nat
    var acceptedRequests: nat
    var rejectedRequests: nat
    var failedRequests: nat

    constructor (bus: LiveBus, pipeline: ExecutionPipeline)
      ensures this.bus == bus && this.pipeline == pipeline
      ensures receivedRequests == acceptedRequests == rejectedRequests == failedRequests == 0
    {
      this.bus, this.pipeline := bus, pipeline;
      receivedRequests, acceptedRequests, rejectedRequests, failedRequests := 0, 0, 0, 0;
    }

    /** `decoded` is None when the payload cannot be turned into an order. The published report holds
        the specified breaches, in whatever order the guard listed them. */
    method OnOrderRequest(decoded: Option<OrderState>, marks: map<string, real>, env: Surroundings)
      returns (report: Option<seq<RiskBreach>>)
      requires pipeline.Valid()
      modifies this, bus`queue, pipeline`sent, pipeline.ledger
      ensures receivedRequests == old(receivedRequests) + 1
      ensures decoded.None? ==>
        && report.None? && failedRequests == old(failedRequests) + 1
        && acceptedRequests == old(acceptedRequests) && rejectedRequests == old(rejectedRequests)
        && pipeline.sent == old(pipeline.sent) && pipeline.ledger.State() == old(pipeline.ledger.State())
      ensures decoded.Some? ==>
        var r := SubmitOf(decoded.value, old(pipeline.ledger.State()), marks, env, pipeline.settings);
        && pipeline.ledger.State() == r.ledger
        && pipeline.sent == old(pipeline.sent) + (if r.sent.Some? then [r.sent.value] else [])
        && (report.Some? <==> r.event.Some?)
        && (report.Some? ==> multiset(report.value) == multiset(r.event.value))
        && acceptedRequests == old(acceptedRequests) + (if r.accepted then 1 else 0)
        && rejectedRequests == old(rejectedRequests) + (if r.accepted then 0 else 1)
        && failedRequests == old(failedRequests) + (if r.error && env.errorText != "" then 1 else 0)
      ensures bus.queue == old(bus.queue)
        + (if report.Some? then [ItemOf(ExecutionReport(report.value), bus.topicOf)] else [])
    {
      hide SubmitOf;
      receivedRequests := receivedRequests + 1;
      report := None;
      if decoded.None? {
        failedRequests := failedRequests + 1;
        return;
      }
      var order := new Order(decoded.value);
      var accepted, error;
      accepted, error, report := pipeline.Submit(order, marks, env);
      if report.Some? {
        bus.Publish(ExecutionReport(report.value));
      }
      if accepted {
        acceptedRequests := acceptedRequests + 1;
      } else {
        rejectedRequests := rejectedRequests + 1;
      }
      if error && env.errorText != "" {
        failedRequests := failedRequests + 1;
      }
    }
  }

  // ---------- live strategy ----------

  class LiveStrategyService {
    const bus: LiveBus
    const strategy: MeanReversionImbalanceStrategy
    const killSwitch: KillSwitch
    var orderbooksSeen: nat
    var orderRequestsPublished: nat
    var strategyErrors: nat

    constructor (bus: LiveBus, strategy: MeanReversionImbalanceStrategy, killSwitch: KillSwitch)
      ensures this.bus == bus && this.strategy == strategy && this.killSwitch == killSwitch
      ensures orderbooksSeen == orderRequestsPublished == strategyErrors == 0
    {
      this.bus, this.strategy, this.killSwitch := bus, strategy, killSwitch;
      orderbooksSeen, orderRequestsPublished, strategyErrors := 0, 0, 0;
    }

    method OnOrderbookSnapshot(view: BookView, r: Readings, held: Option<Held>, marks: map<string, real>)
      requires killSwitch.Valid()
      modifies this, bus`queue, strategy
      ensures var (after, signal) := OrderbookStep(
                strategy.config, old(strategy.Current()), !Triggered(killSwitch.State()), view, r, held);
              var published := signal.Some? && SignalIsValid(strategy.config, signal.value);
              && strategy.Current() == after
              && bus.queue == old(bus.queue)
                   + (if published
                      then [ItemOf(OrderRequest(OrderFor(strategy.config, signal.value), marks), bus.topicOf)]
                      else [])
              && orderbooksSeen == old(orderbooksSeen) + 1
              && orderRequestsPublished == old(orderRequestsPublished) + (if published then 1 else 0)
              && strategyErrors == old(strategyErrors) + (if signal.Some? && !published then 1 else 0)
    {
      hide OrderbookStep;
      orderbooksSeen := orderbooksSeen + 1;
      var signal := strategy.OnOrderbook(!killSwitch.triggered, view, r, held);
      if signal.Some? {
        if SignalIsValid(strategy.config, signal.value) {
          bus.Publish(OrderRequest(OrderFor(strategy.config, signal.value), marks));
          orderRequestsPublished := orderRequestsPublished + 1;
        } else {
          strategyErrors := strategyErrors + 1;
        }
      }
    }
  }

  // ---------- momentum scanner ----------

  /** What a fetch and analysis give: an error, no signal, or a buy with its key and price. */
  datatype Analysis = FetchFailed | NoBuy | BuyAt(key: string, referencePrice: real)

  /** What stands between a symbol and its scan, as the service reads it before awaiting data. */
  datatype ScanInputs = ScanInputs(
    blocklisted: bool, position: Option<real>, requireMark: bool, marked: bool, spreadTooWide: bool, exchange: bool)

  /** What the scanner remembers: when it last signalled each symbol, and the keys it has used. */
  datatype Scanner = Scanner(lastSignalAt: map<string, real>, keys: set<string>)

  /** The gates a scan passes before it looks for an exchange. */
  predicate GatesPass(k: Scanner, active: bool, cooldown: real, symbol: string, i: ScanInputs, now: real) {
    && !i.blocklisted && active
    && (i.position.None? || i.position.value == 0.0)
    && (symbol in k.lastSignalAt ==> now - k.lastSignalAt[symbol] >= cooldown)
    && (i.requireMark ==> i.marked) && !i.spreadTooWide
  }

  /** A buy whose key is new, or that has none. */
  predicate IsNewBuy(k: Scanner, a: Analysis) {
    a.BuyAt? && (a.key == "" || a.key !in k.keys)
  }

  function Signalled(k: Scanner, symbol: string, key: string, now: real): Scanner {
    Scanner(k.lastSignalAt[symbol := now], k.keys + (if key == "" then {} else {key}))
  }

  class MomentumTrapService {
    const bus: LiveBus
    const killSwitch: KillSwitch
    const targetNotional: real
    const cooldownSeconds: real
    const orderType: OrderType
    var lastSignalAt: map<string, real>
    var processedSignalKeys: set<string>
    var scanErrors: nat
    var signalsPublished: nat

    constructor (
      bus: LiveBus, killSwitch: KillSwitch, targetNotional: real, cooldownSeconds: real, orderType: OrderType)
      ensures this.bus == bus && this.killSwitch == killSwitch && this.targetNotional == targetNotional
      ensures this.cooldownSeconds == cooldownSeconds && this.orderType == orderType
      ensures lastSignalAt == map[] && processedSignalKeys == {} && scanErrors == signalsPublished == 0
    {
      this.bus, this.killSwitch := bus, killSwitch;
      this.targetNotional, this.cooldownSeconds, this.orderType := targetNotional, cooldownSeconds, orderType;
      lastSignalAt, processedSignalKeys, scanErrors, signalsPublished := map[], {}, 0, 0;
    }

    function Memory(): Scanner
      reads this
    {
      Scanner(lastSignalAt, processedSignalKeys)
    }

    /** A scan awaits its data only with the switch active, no position, no cooldown and every filter
        passed; nothing is published before the await. Having no exchange is the one error. */
    method BeginScan(symbol: string, i: ScanInputs, now: real) returns (waiting: bool)
      requires killSwitch.Valid()
      modifies this`scanErrors
      ensures var passes :=
                GatesPass(old(Memory()), !Triggered(killSwitch.State()), cooldownSeconds, symbol, i, now);
              && (waiting <==> passes && i.exchange)
              && scanErrors == old(scanErrors) + (if passes && !i.exchange then 1 else 0)
    {
      if i.blocklisted { return false; }
      if killSwitch.triggered { return false; }
      if i.position.Some? && Abs(i.position.value) > 0.0 { return false; }
      if symbol in lastSignalAt && now - lastSignalAt[symbol] < cooldownSeconds { return false; }
      if i.requireMark && !i.marked { return false; }
      if i.spreadTooWide { return false; }
      if !i.exchange {
        scanErrors := scanErrors + 1;
        return false;
      }
      return true;
    }

    /** The order a buy signal turns into; None where its validation raises. */
    function BuyOrder(symbol: string, price: real): Option<OrderState> {
      var quantity := targetNotional / Max(price, 0.000000000001);
      if symbol == "" || quantity <= 0.0 || orderType == Limit then None
      else Some(OrderState(symbol, Buy, quantity, orderType, None, Created, 0.0, 0.0))
    }

    /** A fresh market buy of the symbol, for a positive target; filled at the reference price it spends the
        target notional. */
    lemma BuyOrderSpendsTheTarget(symbol: string, price: real)
      ensures BuyOrder(symbol, price).Some? <==> symbol != "" && targetNotional > 0.0 && orderType == Market
      ensures BuyOrder(symbol, price).Some? ==>
        var o := BuyOrder(symbol, price).value;
        && o.symbol == symbol && o.side == Buy && o.orderType == Market && o.price.None? && o.status == Created
        && (price >= 0.000000000001 ==> Worth(o.quantity, price) == targetNotional)
    {
      var floor := Max(price, 0.000000000001);
      var quantity := targetNotional / floor;
      assert quantity * floor == targetNotional;
      if quantity > 0.0 {
        ScaleStrict(0.0, quantity, floor);
      } else {
        ScaleMono(quantity, 0.0, floor);
      }
    }

    /** After the await: the switch is not read again. A repeated key publishes nothing; a published
        signal is stamped and its key remembered. */
    method FinishScan(symbol: string, a: Analysis, marks: map<string, real>, now: real)
      modifies this, bus`queue
      ensures var buy := IsNewBuy(old(Memory()), a);
              var published := buy && BuyOrder(symbol, a.referencePrice).Some?;
              && bus.queue == old(bus.queue)
                   + (if published
                      then [ItemOf(OrderRequest(BuyOrder(symbol, a.referencePrice).value, marks), bus.topicOf)]
                      else [])
              && Memory() == (if published then Signalled(old(Memory()), symbol, a.key, now) else old(Memory()))
              && signalsPublished == old(signalsPublished) + (if published then 1 else 0)
              && scanErrors == old(scanErrors) + (if a.FetchFailed? || (buy && !published) then 1 else 0)
    {
      if a.FetchFailed? {
        scanErrors := scanErrors + 1;
        return;
      }
      if a.NoBuy? { return; }
      if a.key != "" && a.key in processedSignalKeys { return; }
      var order := BuyOrder(symbol, a.referencePrice);
      if order.None? {
        scanErrors := scanErrors + 1;
        return;
      }
      bus.Publish(OrderRequest(order.value, marks));
      if a.key != "" {
        processedSignalKeys := processedSignalKeys + {a.key};
      }
      lastSignalAt := lastSignalAt[symbol := now];
      signalsPublished := signalsPublished + 1;
    }
  }

  // ---------- whole runs of scans ----------

  /** One scan: what it reads before its data, and what it makes of them. `orderable` tells whether a buy
      validates as an order. */
  datatype Scan = Scan(
    symbol: string, active: bool, inputs: ScanInputs, begun: real, analysis: Analysis, orderable: bool, ended: real)

  datatype BuySignal = BuySignal(symbol: string, key: string, scan: Scan)

  datatype ScanRun = ScanRun(memory: Scanner, buys: seq<BuySignal>)

  predicate Publishes(k: Scanner, cooldown: real, x: Scan) {
    && GatesPass(k, x.active, cooldown, x.symbol, x.inputs, x.begun) && x.inputs.exchange
    && IsNewBuy(k, x.analysis) && x.orderable
  }

  function ScanAll(scans: seq<Scan>, cooldown: real): ScanRun
    decreases |scans|
  {
    if scans == [] then ScanRun(Scanner(map[], {}), [])
    else
      var before, x := ScanAll(scans[..|scans| - 1], cooldown), scans[|scans| - 1];
      if Publishes(before.memory, cooldown, x)
      then ScanRun(Signalled(before.memory, x.symbol, x.analysis.key, x.ended),
                   before.buys + [BuySignal(x.symbol, x.analysis.key, x)])
      else before
  }

  /** What the scanner remembers about a buy it signalled. */
  predicate RemembersBuy(k: Scanner, b: BuySignal) {
    && b.symbol in k.lastSignalAt && b.scan.ended <= k.lastSignalAt[b.symbol]
    && (b.key != "" ==> b.key in k.keys)
  }

  predicate ScansInOrder(scans: seq<Scan>) {
    && (forall i | 0 <= i < |scans| :: scans[i].begun <= scans[i].ended)
    && (forall i, j | 0 <= i < j < |scans| :: scans[i].ended <= scans[j].begun)
  }

  /** Over any run of scans with a clock that does not run back: two buys of one symbol are at least a cooldown
      apart, no key is used twice, and every buy came from a scan begun with the switch active, nothing held,
      the symbol not blocked, its spread not too wide, and its price marked where that is asked for. */
  lemma {:induction false} BuysAreSpaced(scans: seq<Scan>, cooldown: real)
    requires ScansInOrder(scans)
    ensures var run := ScanAll(scans, cooldown);
            && (forall b | b in run.buys ::
                  && RemembersBuy(run.memory, b) && (exists i | 0 <= i < |scans| :: scans[i] == b.scan)
                  && b.scan.active && !b.scan.inputs.blocklisted && !b.scan.inputs.spreadTooWide
                  && (b.scan.inputs.position.Some? ==> b.scan.inputs.position.value == 0.0)
                  && (b.scan.inputs.requireMark ==> b.scan.inputs.marked)
                  && b.symbol == b.scan.symbol && b.scan.analysis.BuyAt? && b.key == b.scan.analysis.key)
            && forall i, j | 0 <= i < j < |run.buys| ::
                 && (run.buys[i].symbol == run.buys[j].symbol ==>
                     run.buys[j].scan.begun - run.buys[i].scan.ended >= cooldown)
                 && (run.buys[i].key != "" ==> run.buys[i].key != run.buys[j].key)
    decreases |scans|
  {
    if scans != [] {
      var n := |scans| - 1;
      var earlier, x := scans[..n], scans[n];
      BuysAreSpaced(earlier, cooldown);
      var before, run := ScanAll(earlier, cooldown), ScanAll(scans, cooldown);
      forall b | b in run.buys
        ensures RemembersBuy(run.memory, b) && exists i | 0 <= i < |scans| :: scans[i] == b.scan
      {
        if b in before.buys {
          var i :| 0 <= i < |earlier| && earlier[i] == b.scan;
          assert scans[i] == b.scan;
        } else {
          assert scans[n] == b.scan;
        }
      }
    }
  }
}
