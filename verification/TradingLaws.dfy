/** From signal to trade over whole runs of the live runtime: whose order reaches the exchange, and which
    order a trade belongs to. */
module TradingLaws {
  import opened Common
  import opened Ledger
  import opened Exposure
  import opened PreTradeRisk
  import opened Execution
  import opened ExecutionLaws
  import opened OrderLaws
  import opened Strategy
  import opened StrategyLaws
  import opened KillSwitch
  import opened EventBus
  import opened Runtime
  import opened RuntimeLaws

  // ---------- every trade belongs to an order sent ----------

  predicate Belongs(t: Trade, s: SentOrder) {
    t.symbol == s.symbol && t.side == s.side
  }

  /** The trades are those of some of the orders sent, in the same order, at most one each. */
  predicate Matched(sent: seq<SentOrder>, trades: seq<Trade>)
    decreases |sent|
  {
    if sent == [] then trades == []
    else
      var earlier := sent[..|sent| - 1];
      || Matched(earlier, trades)
      || (trades != [] && Belongs(trades[|trades| - 1], sent[|sent| - 1]) && Matched(earlier, trades[..|trades| - 1]))
  }

  lemma MatchedGrows(sent: seq<SentOrder>, trades: seq<Trade>, s: SentOrder)
    requires Matched(sent, trades)
    ensures Matched(sent + [s], trades)
    ensures forall t | Belongs(t, s) :: Matched(sent + [s], trades + [t])
  {
    assert (sent + [s])[..|sent|] == sent;
    forall t | Belongs(t, s) ensures Matched(sent + [s], trades + [t]) {
      assert (trades + [t])[..|trades|] == trades;
    }
  }

  lemma HandlingMatches(s: Setup, o: Outside, w: World, topic: string, e: Body)
    requires ValidSetup(s) && Matched(w.sent, w.ledger.trades)
    ensures var after := Handle(s, o, w, topic, e).world;
            Matched(after.sent, after.ledger.trades)
  {
    hide Matched, SubmitOf, Belongs;
    if topic == "ORDER_REQUEST" && e.OrderRequest? {
      var env := o.surroundings(w.clock);
      var r := Submission(s, o, w, e);
      SubmitEffects(e.order, w.ledger, e.marks, env, s.execution);
      SentIff(e.order, w.ledger, e.marks, env, s.execution);
      BooksItsOwnFill(e.order, w.ledger, e.marks, env, s.execution);
      if r.sent.Some? {
        MatchedGrows(w.sent, w.ledger.trades, r.sent.value);
        if |r.ledger.trades| > |w.ledger.trades| {
          var t := r.ledger.trades[|w.ledger.trades|];
          assert r.ledger.trades == w.ledger.trades + [t];
          assert Belongs(t, r.sent.value) by { OwnTrade(t, r.sent.value); }
        } else {
          SameTrades(e.order, w.ledger, e.marks, env, s.execution);
        }
      } else {
        assert w.sent + [] == w.sent;
      }
    } else if topic == "EXECUTION_REPORT" && e.ExecutionReport? {
      ReportPublishesRiskEvents(s, o, w, e);
    } else {
      MarketHandling(s, o, w, topic, e);
    }
  }

  lemma OwnTrade(t: Trade, s: SentOrder)
    requires t.symbol == s.symbol && t.side == s.side
    ensures Belongs(t, s)
  {
  }

  lemma SameTrades(o: OrderState, st: LedgerState, marks: map<string, real>, env: Surroundings, c: Settings)
    requires ValidSettings(c)
    requires |SubmitOf(o, st, marks, env, c).ledger.trades| <= |st.trades|
    ensures SubmitOf(o, st, marks, env, c).ledger.trades == st.trades
  {
    hide SubmitOf;
    SubmitEffects(o, st, marks, env, c);
  }

  /** Over every run, each trade in the ledger belongs to an order given to the exchange, by symbol and side,
      and no order has two. */
  lemma {:induction false} TradesMatchOrders(s: Setup, o: Outside, sys: System, steps: seq<Step>)
    requires ValidSetup(s) && Runs(s, o, sys, steps)
    requires Matched(sys.bus.world.sent, sys.bus.world.ledger.trades)
    ensures var w := DoAll(s, o, sys, steps).bus.world;
            Matched(w.sent, w.ledger.trades)
    decreases |steps|
  {
    hide Matched, Handle, Dispatch, PublishedBy;
    if steps != [] {
      var step := steps[0];
      if step == Dispatched {
        DispatchIs(s, o, sys.bus);
        if sys.bus.queue[0].Event? {
          HandlingMatches(s, o, sys.bus.world, sys.bus.queue[0].topic, sys.bus.queue[0].body);
        }
      } else {
        StepAdds(s, o, sys, step);
      }
      TradesMatchOrders(s, o, Do(s, o, sys, step), steps[1..]);
    }
  }

  // ---------- whose order a signal becomes ----------

  /** With the switch active, an order book makes the strategy decide on the ledger's own position in its
      symbol, and its signal becomes a fresh order of the same symbol, side, quantity and price, of the
      configured type, unless it would not validate; with the switch triggered nothing happens. */
  lemma SignalBecomesOrder(s: Setup, o: Outside, w: World, view: BookView)
    ensures var h := Handle(s, o, w, "ORDERBOOK_SNAPSHOT", OrderbookSnapshot(view));
            var st := w.ledger.holdings;
            var held := if view.symbol !in st then None
                        else Some(Held(st[view.symbol].quantity, st[view.symbol].averageEntry));
            var (next, signal) :=
              OrderbookStep(s.strategy, w.strategy, w.kill.reason.None?, view, o.readings(w.clock), held);
            && h.world.strategy == next
            && (h.published != [] <==> signal.Some? && Complete(s.strategy, signal.value))
            && (h.published != [] ==>
                && |h.published| == 1 && h.published[0].OrderRequest?
                && (var order, x := h.published[0].order, signal.value;
                    order.symbol == x.symbol && order.side == x.side && order.quantity == x.quantity
                    && order.price == x.price && order.orderType == s.strategy.orderType && order.status == Created
                    && order.filledQuantity == order.averageFillPrice == 0.0)
                && h.published[0].marks == o.marks(w.clock))
  {
    hide OrderbookStep;
  }

  /** A signal that validates as an order. */
  predicate Complete(c: Config, x: Signal) {
    x.symbol != "" && x.quantity > 0.0
    && (match c.orderType
        case Market => true
        case Limit => x.price.Some? && x.price.value > 0.0)
  }

  /** A request is submitted as it stands, with its own marks, on the ledger there is; what that sends is added
      to the orders sent, and its report is published. */
  lemma RequestIsSubmitted(s: Setup, o: Outside, w: World, order: OrderState, marks: map<string, real>)
    requires ValidSetup(s)
    ensures var h := Handle(s, o, w, "ORDER_REQUEST", OrderRequest(order, marks));
            var r := SubmitOf(order, w.ledger, marks, o.surroundings(w.clock), s.execution);
            && h.world.ledger == r.ledger && h.world.strategy == w.strategy && h.world.kill == w.kill
            && h.world.sent == (if r.sent.Some? then w.sent + [r.sent.value] else w.sent)
            && h.published == (if r.event.Some? then [ExecutionReport(r.event.value)] else [])
  {
    hide SubmitOf;
  }

  /** So an order published while the ledger holds the symbol closes exactly that holding, and one published
      while it does not is an entry. */
  lemma OrdersCloseOrEnter(s: Setup, o: Outside, w: World, view: BookView)
    requires Handle(s, o, w, "ORDERBOOK_SNAPSHOT", OrderbookSnapshot(view)).published != []
    ensures var order := Handle(s, o, w, "ORDERBOOK_SNAPSHOT", OrderbookSnapshot(view)).published[0].order;
            var st := w.ledger.holdings;
            && w.kill.reason.None? && order.symbol == view.symbol
            && (view.symbol in st && st[view.symbol].quantity > 0.0 ==>
                order.side == Sell && order.quantity == st[view.symbol].quantity)
            && (view.symbol in st && st[view.symbol].quantity < 0.0 ==>
                order.side == Buy && order.quantity == -st[view.symbol].quantity)
  {
    hide Handle, FlatStep, HoldingStep, TickStep, Complete;
    SignalBecomesOrder(s, o, w, view);
    var st := w.ledger.holdings;
    var held := if view.symbol !in st then None
                else Some(Held(st[view.symbol].quantity, st[view.symbol].averageEntry));
    var r := o.readings(w.clock);
    var pushed := TickStep(s.strategy, w.strategy, view.symbol, view.mid);
    FlatEffects(s.strategy, pushed, view, r);
    if held.Some? && held.value.quantity != 0.0 {
      HoldingEffects(s.strategy, pushed, held.value, view, r);
    }
  }

  /** A market tick reaches the strategy's window of its symbol, and nothing else. */
  lemma TickReachesStrategy(s: Setup, o: Outside, w: World, symbol: string, mid: real)
    ensures var h := Handle(s, o, w, "MARKET_TICK", MarketTick(symbol, mid));
            && h.published == [] && h.world == w.(strategy := h.world.strategy)
            && (symbol != "" && mid > 0.0 && s.strategy.rollingWindow > 0 ==>
                symbol in h.world.strategy.mids
                && (var window := h.world.strategy.mids[symbol]; window != [] && window[|window| - 1] == mid))
            && (symbol == "" || mid <= 0.0 ==> h.world == w)
  {
  }

  /** Each breach of a report becomes one risk event, in order. */
  lemma BreachesBecomeEvents(s: Setup, o: Outside, w: World, breaches: seq<RiskBreach>)
    ensures var h := Handle(s, o, w, "EXECUTION_REPORT", ExecutionReport(breaches));
            && |h.published| == |breaches|
            && forall i | 0 <= i < |breaches| :: h.published[i].RiskEvent? && h.published[i].breach == breaches[i]
  {
    hide KillAfter;
  }
}
