/** Exactly when the live strategy signals: every exit and entry, told on the window, the quotes, the
    configuration and the ledger's profit. */
module SignalLaws {
  import opened Common
  import opened Ledger
  import opened Strategy
  import opened StrategyLaws
  import opened ExitLaws

  // ---------- what comes before every decision ----------

  function Following(st: State, symbol: string, mid: real, cap: nat): seq<real> {
    var all := (if symbol in st.mids then st.mids[symbol] else []) + [mid];
    if |all| > cap then all[|all| - cap..] else all
  }

  /** An order book the strategy acts on: the switch active, a named symbol with a price, enough history, a
      narrow enough spread, and not the symbol kept for watching only. */
  predicate Ready(c: Config, st: State, active: bool, b: BookView) {
    && active && b.symbol != "" && b.mid > 0.0
    && |Following(st, b.symbol, b.mid, c.rollingWindow)| >= c.minObservations
    && b.spreadBps <= c.maxSpreadBps
    && (b.symbol == c.btcSymbol ==> c.tradeBtc)
  }

  lemma ReadyMeans(c: Config, st: State, active: bool, b: BookView, r: Readings, held: Option<Held>)
    ensures var pushed := TickStep(c, st, b.symbol, b.mid);
            && (b.symbol != "" && b.mid > 0.0 ==>
                pushed == st.(mids := st.mids[b.symbol := Following(st, b.symbol, b.mid, c.rollingWindow)]))
            && (Ready(c, st, active, b) ==>
                OrderbookStep(c, st, active, b, r, held)
                  == (if held.None? || held.value.quantity == 0.0 then FlatStep(c, pushed, b, r)
                      else HoldingStep(c, pushed, held.value, b, r)))
            && (!Ready(c, st, active, b) ==> OrderbookStep(c, st, active, b, r, held).1.None?)
  {
    hide FlatStep, HoldingStep;
  }

  /** What a limit order is priced at: the best quote on its own side, where there is one. */
  function PriceAsked(c: Config, side: Side, b: BookView): Option<real> {
    match (c.orderType, side)
    case (Market, _) => None
    case (Limit, Buy) => if b.bestBid > 0.0 then Some(b.bestBid) else None
    case (Limit, Sell) => if b.bestAsk > 0.0 then Some(b.bestAsk) else None
  }

  // ---------- exits ----------

  /** Closing now: a long sells at the bid, a short buys at the ask; the mid stands in for a missing quote. */
  function ClosingPrice(h: Held, b: BookView): real {
    if h.quantity > 0.0 && b.bestBid > 0.0 then b.bestBid
    else if h.quantity <= 0.0 && b.bestAsk > 0.0 then b.bestAsk
    else b.mid
  }

  /** The ledger's gross profit of closing the whole position now. */
  function ClosingProfit(h: Held, b: BookView): real {
    PnlOn(Holding(h.quantity, h.averageEntry, 0.0, 0.0), ClosingPrice(h, b), Abs(h.quantity))
  }

  /** A number of basis points of what the position cost. */
  function OfCost(h: Held, bps: real): real {
    Worth(Worth(Abs(h.quantity), h.averageEntry), bps / 10000.0)
  }

  predicate GainsAtLeast(h: Held, b: BookView, bps: real) {
    ClosingProfit(h, b) >= OfCost(h, bps)
  }

  predicate GainsAtMost(h: Held, b: BookView, bps: real) {
    ClosingProfit(h, b) <= OfCost(h, bps)
  }

  /** Fees of both legs and slippage. */
  function CostBps(c: Config): real {
    if c.takerFeeBps + c.takerFeeBps + c.slippageBps > 0.0 then c.takerFeeBps + c.takerFeeBps + c.slippageBps else 0.0
  }

  predicate TakesProfit(c: Config, h: Held, b: BookView) {
    && GainsAtLeast(h, b, c.takeProfitBps)
    && GainsAtLeast(h, b, CostBps(c) + c.minProfitBps)
    && GainsAtLeast(h, b, CostBps(c) + CostBps(c) + c.profitBufferBps)
  }

  predicate StopsLoss(c: Config, h: Held, b: BookView, r: Readings) {
    if c.dynamicStop then
      && GainsAtMost(h, b, -c.dynamicStopMinBps)
      && (GainsAtMost(h, b, -c.dynamicStopMaxBps)
          || GainsAtMost(h, b, -Worth(r.volatilityBps, c.dynamicStopMultiplier)))
    else GainsAtMost(h, b, -c.stopLossBps)
  }

  predicate HasReverted(c: Config, h: Held, b: BookView, r: Readings) {
    && (h.quantity > 0.0 ==> r.zscore + c.exitZ >= 0.0) && (h.quantity < 0.0 ==> r.zscore <= c.exitZ)
    && GainsAtLeast(h, b, c.minProfitBps) && GainsAtLeast(h, b, CostBps(c) + c.profitBufferBps)
  }

  predicate HasExpired(c: Config, st: State, h: Held, b: BookView, r: Readings) {
    && c.maxHold > 0.0 && b.symbol in st.seenAt && r.now >= st.seenAt[b.symbol] + c.maxHold
    && GainsAtLeast(h, b, 0.0)
  }

  /** An exit of a kind is due when its test holds and none before it does. */
  predicate Due(c: Config, st: State, h: Held, b: BookView, r: Readings, kind: ExitKind) {
    match kind
    case TakeProfit => TakesProfit(c, h, b)
    case StopLoss => !TakesProfit(c, h, b) && StopsLoss(c, h, b, r)
    case MeanReversionProfit => !TakesProfit(c, h, b) && !StopsLoss(c, h, b, r) && HasReverted(c, h, b, r)
    case TimeStop =>
      && !TakesProfit(c, h, b) && !StopsLoss(c, h, b, r) && !HasReverted(c, h, b, r)
      && HasExpired(c, st, h, b, r)
  }

  /** The last exit signal of the symbol is at least 5 seconds old, and at least 30 or the cooldown. */
  predicate MayExit(c: Config, st: State, b: BookView, r: Readings) {
    b.symbol in st.lastExit ==>
      var since := r.now - st.lastExit[b.symbol];
      since >= 5.0 && (since >= 30.0 || since >= c.cooldown)
  }

  /** Basis points and profit over cost are the same thing. */
  lemma GainMeans(h: Held, b: BookView, bps: real)
    requires h.averageEntry > 0.0 && h.quantity != 0.0
    ensures GainsAtLeast(h, b, bps) <==> PnlBps(h, JudgedAt(h, b)) >= bps
    ensures GainsAtMost(h, b, bps) <==> PnlBps(h, JudgedAt(h, b)) <= bps
  {
    hide Worth, PnlBps, PnlOn;
    var full := Holding(h.quantity, h.averageEntry, 0.0, 0.0);
    assert HeldOf(full) == h && JudgedAt(h, b) == ClosingPrice(h, b);
    BpsMeans(full, ClosingPrice(h, b));
    WorthSign(Abs(h.quantity), h.averageEntry);
    CompareWorth(Worth(Abs(h.quantity), h.averageEntry), PnlBps(h, JudgedAt(h, b)) / 10000.0, bps / 10000.0);
  }

  lemma CompareWorth(k: real, x: real, y: real)
    requires k > 0.0
    ensures Worth(k, x) >= Worth(k, y) <==> x >= y
    ensures Worth(k, x) <= Worth(k, y) <==> x <= y
  {
    hide Worth;
    WorthGap(k, x, y);
    PositiveProduct(k, x - y);
  }

  lemma ThresholdsMean(c: Config, volatilityBps: real, x: real)
    ensures x >= TakeProfitThresholdBps(c) <==>
        x >= c.takeProfitBps && x >= CostBps(c) + c.minProfitBps && x >= CostBps(c) + CostBps(c) + c.profitBufferBps
    ensures x >= RequiredMinProfitBps(c) <==> x >= c.minProfitBps && x >= CostBps(c) + c.profitBufferBps
    ensures x <= -StopThresholdBps(c, volatilityBps) <==>
        if c.dynamicStop then
          x <= -c.dynamicStopMinBps
          && (x <= -c.dynamicStopMaxBps || x <= -Worth(volatilityBps, c.dynamicStopMultiplier))
        else x <= -c.stopLossBps
  {
  }

  lemma EdgeThresholdMeans(c: Config, x: real)
    ensures x >= RequiredEdgeBps(c) <==>
        x >= c.minProfitBps && x >= CostBps(c) + c.profitBufferBps && x >= Worth(CostBps(c), c.edgeMultiplier)
  {
    assert CostBps(c) == RoundTripCostBps(c);
  }

  /** The exit decision is the first exit due. */
  lemma ReasonIsDue(c: Config, st: State, h: Held, b: BookView, r: Readings, kind: ExitKind)
    requires h.averageEntry > 0.0 && h.quantity != 0.0
    ensures var age := r.now - (if b.symbol in st.seenAt then st.seenAt[b.symbol] else r.now);
            ExitReason(c, h, PnlBps(h, JudgedAt(h, b)), r, age) == Some(kind) <==> Due(c, st, h, b, r, kind)
  {
    hide PnlBps, GainsAtLeast, GainsAtMost, JudgedAt, TakeProfitThresholdBps, RequiredMinProfitBps, StopThresholdBps,
         CostBps, Worth;
    var x := PnlBps(h, JudgedAt(h, b));
    ThresholdsMean(c, r.volatilityBps, x);
    GainMeans(h, b, c.takeProfitBps);
    GainMeans(h, b, CostBps(c) + c.minProfitBps);
    GainMeans(h, b, CostBps(c) + CostBps(c) + c.profitBufferBps);
    GainMeans(h, b, -c.stopLossBps);
    GainMeans(h, b, -c.dynamicStopMinBps);
    GainMeans(h, b, -c.dynamicStopMaxBps);
    GainMeans(h, b, -Worth(r.volatilityBps, c.dynamicStopMultiplier));
    GainMeans(h, b, c.minProfitBps);
    GainMeans(h, b, CostBps(c) + c.profitBufferBps);
    GainMeans(h, b, 0.0);
    assert TakesProfit(c, h, b) <==> x >= TakeProfitThresholdBps(c);
    assert StopsLoss(c, h, b, r) <==> x <= -StopThresholdBps(c, r.volatilityBps);
    assert GainsAtLeast(h, b, c.minProfitBps) && GainsAtLeast(h, b, CostBps(c) + c.profitBufferBps)
      <==> x >= RequiredMinProfitBps(c);
    assert HasReverted(c, h, b, r) <==>
      (if h.quantity > 0.0 then r.zscore >= -c.exitZ else r.zscore <= c.exitZ) && x >= RequiredMinProfitBps(c);
  }

  /** While a position is held, an exit of each kind is signalled if and only if the strategy is ready, may
      exit, the position has an entry price, and that exit is due; it closes the whole position at the quote
      on its own side. */
  lemma ExitsExactly(
    c: Config, st: State, active: bool, b: BookView, r: Readings, h: Held, kind: ExitKind)
    requires ValidConfig(c) && h.quantity != 0.0
    ensures var signal := OrderbookStep(c, st, active, b, r, Some(h)).1;
            var side := if h.quantity > 0.0 then Sell else Buy;
            && (signal.Some? && signal.value.kind == Exit(kind) <==>
                && Ready(c, st, active, b) && MayExit(c, st, b, r) && h.averageEntry > 0.0
                && Due(c, st, h, b, r, kind))
            && (signal.Some? ==>
                signal.value == Signal(b.symbol, side, Abs(h.quantity), PriceAsked(c, side, b), signal.value.kind)
                && signal.value.kind.Exit?)
  {
    hide OrderbookStep, TickStep, PnlBps, JudgedAt, ExitReason, Due, Ready, BlockFor;
    ReadyMeans(c, st, active, b, r, Some(h));
    if Ready(c, st, active, b) {
      ReadyHasSymbol(c, st, active, b);
      HoldingMeans(c, TickStep(c, st, b.symbol, b.mid), b, r, h, kind);
      DueReadsClock(c, st, TickStep(c, st, b.symbol, b.mid), h, b, r, kind);
    }
  }

  lemma ReadyHasSymbol(c: Config, st: State, active: bool, b: BookView)
    requires Ready(c, st, active, b)
    ensures b.symbol != "" && b.mid > 0.0
  {
  }

  lemma DueReadsClock(c: Config, x: State, y: State, h: Held, b: BookView, r: Readings, kind: ExitKind)
    requires x.seenAt == y.seenAt
    ensures Due(c, x, h, b, r, kind) == Due(c, y, h, b, r, kind)
  {
    hide TakesProfit, StopsLoss, HasReverted, GainsAtLeast;
  }

  lemma HoldingMeans(c: Config, st: State, b: BookView, r: Readings, h: Held, kind: ExitKind)
    requires h.quantity != 0.0
    ensures var signal := HoldingStep(c, st, h, b, r).1;
            var side := if h.quantity > 0.0 then Sell else Buy;
            && (signal.Some? && signal.value.kind == Exit(kind) <==>
                MayExit(c, st, b, r) && h.averageEntry > 0.0 && Due(c, st, h, b, r, kind))
            && (signal.Some? ==>
                signal.value == Signal(b.symbol, side, Abs(h.quantity), PriceAsked(c, side, b), signal.value.kind)
                && signal.value.kind.Exit?)
  {
    hide PnlBps, JudgedAt, ExitReason, Due, BlockFor;
    if h.averageEntry > 0.0 {
      ReasonIsDue(c, st, h, b, r, kind);
      var seen := if b.symbol in st.seenAt then st else st.(seenAt := st.seenAt[b.symbol := r.now]);
      assert (if b.symbol in st.seenAt then st.seenAt[b.symbol] else r.now) == seen.seenAt[b.symbol];
    }
  }

  /** In particular, with a fixed stop, a loss at the stop is always cut. */
  lemma StopLossIsSignalled(c: Config, st: State, active: bool, b: BookView, r: Readings, h: Held)
    requires ValidConfig(c) && h.quantity != 0.0 && h.averageEntry > 0.0 && !c.dynamicStop
    requires Ready(c, st, active, b) && MayExit(c, st, b, r)
    requires PnlBps(h, ClosingPrice(h, b)) <= -c.stopLossBps
    ensures var signal := OrderbookStep(c, st, active, b, r, Some(h)).1;
            signal.Some? && signal.value.kind == Exit(StopLoss)
  {
    hide OrderbookStep, PnlBps, GainsAtLeast, GainsAtMost, Ready, MayExit;
    assert JudgedAt(h, b) == ClosingPrice(h, b);
    GainMeans(h, b, c.takeProfitBps);
    GainMeans(h, b, -c.stopLossBps);
    ExitsExactly(c, st, active, b, r, h, StopLoss);
  }

  // ---------- entries ----------

  /** From its oldest price the window fell by at least so many basis points. A window without a usable
      oldest price counts as flat. */
  predicate HasFallen(window: seq<real>, bps: real) {
    if |window| >= 2 && window[0] > 0.0 then window[0] - window[|window| - 1] >= Worth(window[0], bps / 10000.0)
    else bps <= 0.0
  }

  /** The watched symbol lets others trade: not in free fall and not too volatile, or not known well enough
      where that is tolerated. */
  predicate MarketIsCalm(c: Config, st: State, volatilityBps: real) {
    c.btcFilter ==>
      var window := if c.btcSymbol in st.mids then st.mids[c.btcSymbol] else [];
      if |window| < c.btcMinObservations then !c.btcRequireData
      else !HasFallen(window, Abs(c.btcDangerDropBps)) && volatilityBps < c.btcMaxVolatilityBps
  }

  /** The window's average lies at least so many basis points above the price, or none are asked for. */
  predicate HasEdge(window: seq<real>, mid: real, bps: real)
    requires window != []
  {
    var gap := Total(window) / |window| as real - mid;
    if gap > 0.0 then gap >= Worth(mid, bps / 10000.0) else bps <= 0.0
  }

  /** The last few imbalances, the new one included, all reach the threshold. */
  predicate KeepsLeaning(c: Config, earlier: seq<real>, imbalance: real) {
    var all := earlier + [imbalance];
    |all| >= c.confirmSnapshots
    && forall i | |all| - c.confirmSnapshots <= i < |all| :: all[i] >= c.imbalanceThreshold
  }

  predicate MayEnter(c: Config, st: State, b: BookView, r: Readings) {
    && (b.symbol in st.blockedUntil ==> r.now >= st.blockedUntil[b.symbol])
    && !HasFallen(WindowOf(st.mids, b.symbol), c.badDropBps)
    && (b.symbol in st.lastEntry && c.cooldown > 0.0 ==> r.now >= st.lastEntry[b.symbol] + c.cooldown)
    && MarketIsCalm(c, st, r.btcVolatilityBps)
  }

  predicate BuyIsDue(c: Config, st: State, b: BookView, r: Readings) {
    var window := WindowOf(st.mids, b.symbol);
    && window != [] && r.zscore + c.entryZ <= 0.0
    && HasEdge(window, b.mid, c.minProfitBps) && HasEdge(window, b.mid, CostBps(c) + c.profitBufferBps)
    && HasEdge(window, b.mid, Worth(CostBps(c), c.edgeMultiplier))
    && KeepsLeaning(c, WindowOf(st.imbalances, b.symbol), b.imbalance)
  }

  predicate SellIsDue(c: Config, b: BookView, r: Readings) {
    c.allowShort && r.zscore >= c.entryZ && b.imbalance + c.imbalanceThreshold <= 0.0
  }

  lemma FallMeans(window: seq<real>, bps: real)
    ensures RecentReturnBps(window) <= -bps <==> HasFallen(window, bps)
  {
    if |window| >= 2 && window[0] > 0.0 {
      var part := (window[|window| - 1] - window[0]) / window[0];
      assert part * window[0] == window[|window| - 1] - window[0];
      ReturnMeans(part, window[0], bps);
    }
  }

  lemma ReturnMeans(part: real, first: real, bps: real)
    requires first > 0.0
    ensures part * 10000.0 <= -bps <==> -(part * first) >= Worth(first, bps / 10000.0)
  {
    CompareScaled(part, -(bps / 10000.0), first);
    assert -(bps / 10000.0) * first == -Worth(first, bps / 10000.0);
  }

  lemma EdgeMeans(window: seq<real>, mid: real, bps: real)
    requires window != [] && mid > 0.0
    ensures ExpectedEdgeBps(window, mid) >= bps <==> HasEdge(window, mid, bps)
  {
    hide Total;
    var gap := Total(window) / |window| as real - mid;
    if gap > 0.0 {
      var part := gap / mid;
      assert part * mid == gap;
      ReturnMeans(-part, mid, bps);
    }
  }

  lemma CalmMeans(c: Config, st: State, volatilityBps: real)
    ensures BtcAllows(c, st, volatilityBps) <==> MarketIsCalm(c, st, volatilityBps)
  {
    hide RecentReturnBps, HasFallen;
    FallMeans(WindowOf(st.mids, c.btcSymbol), Abs(c.btcDangerDropBps));
  }

  lemma LeaningMeans(c: Config, st: State, b: BookView)
    requires c.confirmSnapshots >= 1
    ensures var seen := Pushed(st.imbalances, b.symbol, b.imbalance, c.confirmSnapshots)[b.symbol];
            Confirmed(c, seen, true) && b.imbalance >= c.imbalanceThreshold <==>
            KeepsLeaning(c, WindowOf(st.imbalances, b.symbol), b.imbalance)
  {
    hide LastOf, WindowOf;
    var all := WindowOf(st.imbalances, b.symbol) + [b.imbalance];
    LastReach(all, c.confirmSnapshots, c.imbalanceThreshold);
    assert all[|all| - 1] == b.imbalance;
  }

  lemma LastReach(all: seq<real>, n: nat, least: real)
    ensures |LastOf(all, n)| >= n && (forall x | x in LastOf(all, n) :: x >= least) <==>
        |all| >= n && forall i | |all| - n <= i < |all| :: all[i] >= least
  {
    var last := LastOf(all, n);
    if |all| >= n && forall x | x in last :: x >= least {
      forall i | |all| - n <= i < |all| ensures all[i] >= least {
        assert last[i - (|all| - n)] in last;
      }
    }
  }

  lemma DecisionMeans(c: Config, st: State, b: BookView, r: Readings)
    requires ValidConfig(c) && b.mid > 0.0 && WindowOf(st.mids, b.symbol) != []
    ensures var signal := EntryDecision(c, st, b, r.zscore).1;
            && (signal.Some? <==> BuyIsDue(c, st, b, r) || SellIsDue(c, b, r))
            && (signal.Some? ==>
                var side := if BuyIsDue(c, st, b, r) then Buy else Sell;
                signal.value
                  == Signal(b.symbol, side, signal.value.quantity, PriceAsked(c, side, b), Entry))
  {
    hide Pushed, Confirmed, ExpectedEdgeBps, HasEdge, KeepsLeaning, WindowOf, RequiredEdgeBps, CostBps, Worth;
    EdgeThresholdMeans(c, ExpectedEdgeBps(WindowOf(st.mids, b.symbol), b.mid));
    var window := WindowOf(st.mids, b.symbol);
    EdgeMeans(window, b.mid, c.minProfitBps);
    EdgeMeans(window, b.mid, CostBps(c) + c.profitBufferBps);
    EdgeMeans(window, b.mid, Worth(CostBps(c), c.edgeMultiplier));
    LeaningMeans(c, st, b);
    PushedHolds(st.imbalances, b.symbol, b.imbalance, c.confirmSnapshots);
    PositiveQuantity(c, b);
    assert BuyIsDue(c, st, b, r) <==>
      r.zscore <= -c.entryZ && ExpectedEdgeBps(window, b.mid) >= RequiredEdgeBps(c)
      && Confirmed(c, Pushed(st.imbalances, b.symbol, b.imbalance, c.confirmSnapshots)[b.symbol], true)
      && b.imbalance >= c.imbalanceThreshold;
  }

  lemma PositiveQuantity(c: Config, b: BookView)
    requires ValidConfig(c) && b.mid > 0.0
    ensures EntryQuantity(c, b.mid) > 0.0
  {
    var notional := Min(Max(c.targetNotional, c.minOrderNotional), c.maxPositionNotional);
    var q := notional / b.mid;
    assert q * b.mid == notional;
    if q <= 0.0 {
      ScaleMono(q, 0.0, b.mid);
    }
  }

  lemma FlatMeans(c: Config, st: State, b: BookView, r: Readings)
    requires ValidConfig(c) && b.mid > 0.0 && WindowOf(st.mids, b.symbol) != []
    ensures var signal := FlatStep(c, st, b, r).1;
            && (signal.Some? <==> MayEnter(c, st, b, r) && (BuyIsDue(c, st, b, r) || SellIsDue(c, b, r)))
            && (signal.Some? ==>
                var side := if BuyIsDue(c, st, b, r) then Buy else Sell;
                signal.value == Signal(b.symbol, side, signal.value.quantity, PriceAsked(c, side, b), Entry))
  {
    hide EntryDecision, RecentReturnBps, BtcAllows, HasFallen, MarketIsCalm, BuyIsDue, SellIsDue, WindowOf, BlockFor;
    FallMeans(WindowOf(st.mids, b.symbol), c.badDropBps);
    CalmMeans(c, st, r.btcVolatilityBps);
    var checked := BlockChecked(st.(seenAt := st.seenAt - {b.symbol}), b.symbol, r.now);
    DecisionMeans(c, checked, b, r);
    DueReads(c, checked, st, b, r);
  }

  lemma DueReads(c: Config, x: State, y: State, b: BookView, r: Readings)
    requires x.mids == y.mids && x.imbalances == y.imbalances
    ensures BuyIsDue(c, x, b, r) == BuyIsDue(c, y, b, r)
  {
    hide HasEdge, WindowOf, KeepsLeaning;
  }

  /** While nothing is held, an entry is signalled if and only if the strategy is ready, may enter, and a buy
      or a sell is due; all of it judged on the window that already holds the new price. */
  lemma EntersExactly(
    c: Config, st: State, active: bool, b: BookView, r: Readings, held: Option<Held>)
    requires ValidConfig(c) && (held.None? || held.value.quantity == 0.0)
    ensures var signal := OrderbookStep(c, st, active, b, r, held).1;
            var pushed := st.(mids := st.mids[b.symbol := Following(st, b.symbol, b.mid, c.rollingWindow)]);
            && (signal.Some? <==>
                && Ready(c, st, active, b) && MayEnter(c, pushed, b, r)
                && (BuyIsDue(c, pushed, b, r) || SellIsDue(c, b, r)))
            && (signal.Some? ==>
                var side := if BuyIsDue(c, pushed, b, r) then Buy else Sell;
                signal.value == Signal(b.symbol, side, signal.value.quantity, PriceAsked(c, side, b), Entry))
  {
    hide OrderbookStep, FlatStep, MayEnter, BuyIsDue, SellIsDue;
    ReadyMeans(c, st, active, b, r, held);
    if Ready(c, st, active, b) {
      FlatMeans(c, TickStep(c, st, b.symbol, b.mid), b, r);
    }
  }

  // ---------- what is remembered ----------

  /** A window that fell too far blocks a flat symbol from that moment for the loss cooldown. */
  lemma BadTrendBlocks(
    c: Config, st: State, active: bool, b: BookView, r: Readings, held: Option<Held>, t: real)
    requires ValidConfig(c) && (held.None? || held.value.quantity == 0.0) && Ready(c, st, active, b)
    requires HasFallen(Following(st, b.symbol, b.mid, c.rollingWindow), c.badDropBps)
    requires b.symbol in st.blockedUntil ==> r.now >= st.blockedUntil[b.symbol]
    requires 0.0 <= r.now <= r.stamp <= t < r.stamp + c.lossCooldown
    ensures var (after, signal) := OrderbookStep(c, st, active, b, r, held);
            signal.None? && b.symbol in after.blockedUntil && t < after.blockedUntil[b.symbol]
  {
    hide OrderbookStep, RecentReturnBps, BtcAllows, EntryDecision, HasFallen;
    ReadyMeans(c, st, active, b, r, held);
    FallMeans(Following(st, b.symbol, b.mid, c.rollingWindow), c.badDropBps);
  }

  /** The time a position was first seen is kept while it is held and forgotten once it is not. */
  lemma FirstSeenIsKept(c: Config, st: State, active: bool, b: BookView, r: Readings, held: Option<Held>)
    requires ValidConfig(c) && Ready(c, st, active, b)
    ensures var after := OrderbookStep(c, st, active, b, r, held).0;
            && (held.None? || held.value.quantity == 0.0 ==> after.seenAt == st.seenAt - {b.symbol})
            && (held.Some? && held.value.quantity != 0.0 ==>
                after.seenAt == (if b.symbol in st.seenAt || !MayExit(c, st, b, r) then st.seenAt
                                 else st.seenAt[b.symbol := r.now]))
  {
    hide OrderbookStep, FlatStep, HoldingStep, MayExit, TickStep;
    ReadyMeans(c, st, active, b, r, held);
    var pushed := TickStep(c, st, b.symbol, b.mid);
    if held.None? || held.value.quantity == 0.0 {
      FlatForgets(c, pushed, b, r);
    } else {
      HoldingRemembers(c, pushed, held.value, b, r);
      assert MayExit(c, pushed, b, r) == MayExit(c, st, b, r) by { SameExits(c, pushed, st, b, r); }
    }
  }

  lemma SameExits(c: Config, x: State, y: State, b: BookView, r: Readings)
    requires x.lastExit == y.lastExit
    ensures MayExit(c, x, b, r) == MayExit(c, y, b, r)
  {
  }

  lemma FlatForgets(c: Config, st: State, b: BookView, r: Readings)
    ensures FlatStep(c, st, b, r).0.seenAt == st.seenAt - {b.symbol}
  {
    hide RecentReturnBps, BtcAllows, EntryDecision, WindowOf;
    EntryEffects(c, BlockChecked(st.(seenAt := st.seenAt - {b.symbol}), b.symbol, r.now), b, r.zscore);
  }

  lemma HoldingRemembers(c: Config, st: State, h: Held, b: BookView, r: Readings)
    requires ValidConfig(c) && h.quantity != 0.0
    ensures HoldingStep(c, st, h, b, r).0.seenAt
         == (if b.symbol in st.seenAt || !MayExit(c, st, b, r) then st.seenAt else st.seenAt[b.symbol := r.now])
  {
    hide ExitDecision;
  }

  /** A block that has run out is forgotten the next time the flat symbol is looked at, unless a new one
      follows it. */
  lemma ExpiredBlockIsForgotten(c: Config, st: State, active: bool, b: BookView, r: Readings, held: Option<Held>)
    requires ValidConfig(c) && (held.None? || held.value.quantity == 0.0) && Ready(c, st, active, b)
    requires !HasFallen(Following(st, b.symbol, b.mid, c.rollingWindow), c.badDropBps)
    ensures var after := OrderbookStep(c, st, active, b, r, held).0;
            after.blockedUntil
              == (if b.symbol in st.blockedUntil && r.now >= st.blockedUntil[b.symbol]
                  then st.blockedUntil - {b.symbol} else st.blockedUntil)
  {
    hide OrderbookStep, RecentReturnBps, BtcAllows, EntryDecision, HasFallen;
    ReadyMeans(c, st, active, b, r, held);
    FallMeans(Following(st, b.symbol, b.mid, c.rollingWindow), c.badDropBps);
    var pushed := TickStep(c, st, b.symbol, b.mid);
    EntryEffects(c, BlockChecked(pushed.(seenAt := pushed.seenAt - {b.symbol}), b.symbol, r.now), b, r.zscore);
  }

  /** Whenever a buy is otherwise due the imbalance is remembered, so that a later one can confirm it. */
  lemma ImbalanceIsRemembered(c: Config, st: State, b: BookView, zscore: real)
    requires ValidConfig(c) && b.mid > 0.0
    ensures var after := EntryDecision(c, st, b, zscore).0;
            var window, n := WindowOf(st.mids, b.symbol), c.confirmSnapshots;
            if zscore + c.entryZ <= 0.0 && window != [] && HasEdge(window, b.mid, c.minProfitBps)
               && HasEdge(window, b.mid, CostBps(c) + c.profitBufferBps)
               && HasEdge(window, b.mid, Worth(CostBps(c), c.edgeMultiplier)) then
              var all := (if b.symbol in st.imbalances then st.imbalances[b.symbol] else []) + [b.imbalance];
              after.imbalances == st.imbalances[b.symbol := if |all| > n then all[|all| - n..] else all]
            else window != [] ==> after == st
  {
    hide Confirmed, ExpectedEdgeBps, HasEdge, CostBps, RequiredEdgeBps, Worth;
    EdgeThresholdMeans(c, ExpectedEdgeBps(WindowOf(st.mids, b.symbol), b.mid));
    PositiveQuantity(c, b);
    var window := WindowOf(st.mids, b.symbol);
    if window != [] {
      EdgeMeans(window, b.mid, c.minProfitBps);
      EdgeMeans(window, b.mid, CostBps(c) + c.profitBufferBps);
      EdgeMeans(window, b.mid, Worth(CostBps(c), c.edgeMultiplier));
    }
  }
}
