/** strategies/mean_reversion_imbalance.py: the live strategy's windows, cooldowns, blocks and
    exit thresholds. The z-score and the volatility of a window, and the clock readings of one
    call, are inputs; `now` is read by the gates and `stamp`, not earlier, by what is recorded. */
module Strategy {
  import opened Common

  datatype Config = Config(
    targetNotional: real,
    maxPositionNotional: real,
    minOrderNotional: real,
    rollingWindow: nat,
    minObservations: nat,
    entryZ: real,
    exitZ: real,
    imbalanceThreshold: real,
    maxSpreadBps: real,
    cooldown: real,
    orderType: OrderType,
    takeProfitBps: real,
    stopLossBps: real,
    minProfitBps: real,
    maxHold: real,
    cooldownAfterExit: real,
    lossCooldown: real,
    badDropBps: real,
    takerFeeBps: real,
    slippageBps: real,
    edgeMultiplier: real,
    profitBufferBps: real,
    confirmSnapshots: nat,
    dynamicStop: bool,
    dynamicStopMinBps: real,
    dynamicStopMaxBps: real,
    dynamicStopMultiplier: real,
    btcFilter: bool,
    btcRequireData: bool,
    btcSymbol: string,
    tradeBtc: bool,
    btcMinObservations: nat,
    btcDangerDropBps: real,
    btcMaxVolatilityBps: real,
    allowShort: bool)

  /** What the constructor insists on or arranges. */
  predicate ValidConfig(c: Config) {
    && c.targetNotional > 0.0 && c.maxPositionNotional > 0.0
    && 0.0 <= c.minOrderNotional <= c.maxPositionNotional
    && 5 <= c.minObservations <= c.rollingWindow
    && 0.0 <= c.exitZ < c.entryZ
    && 0.0 < c.imbalanceThreshold <= 1.0
    && c.maxSpreadBps > 0.0 && c.cooldown >= 0.0
    && c.takeProfitBps > 0.0 && c.stopLossBps > 0.0 && c.minProfitBps >= 0.0
    && c.maxHold >= 0.0 && c.cooldownAfterExit >= 0.0 && c.lossCooldown >= 0.0 && c.badDropBps >= 0.0
    && c.confirmSnapshots >= 1 && c.btcMinObservations >= 5
  }

  // ---------- thresholds ----------

  function RoundTripCostBps(c: Config): real {
    Max(0.0, c.takerFeeBps * 2.0 + c.slippageBps)
  }

  function RequiredMinProfitBps(c: Config): real {
    Max(c.minProfitBps, RoundTripCostBps(c) + c.profitBufferBps)
  }

  function RequiredEdgeBps(c: Config): real {
    Max(RequiredMinProfitBps(c), RoundTripCostBps(c) * c.edgeMultiplier)
  }

  function TakeProfitThresholdBps(c: Config): real {
    Max(c.takeProfitBps, RoundTripCostBps(c) + RequiredMinProfitBps(c))
  }

  function StopThresholdBps(c: Config, volatilityBps: real): real {
    if !c.dynamicStop then c.stopLossBps
    else Max(c.dynamicStopMinBps, Min(c.dynamicStopMaxBps, volatilityBps * c.dynamicStopMultiplier))
  }

  function ExitCooldown(c: Config): real {
    Max(5.0, Min(c.cooldown, 30.0))
  }

  // ---------- windows ----------

  /** The last n elements: what a bounded deque still holds. */
  function LastOf(s: seq<real>, n: nat): seq<real> {
    if |s| <= n then s else s[|s| - n..]
  }

  function WindowOf(windows: map<string, seq<real>>, symbol: string): seq<real> {
    if symbol in windows then windows[symbol] else []
  }

  function Pushed(windows: map<string, seq<real>>, symbol: string, value: real, cap: nat): map<string, seq<real>> {
    windows[symbol := LastOf(WindowOf(windows, symbol) + [value], cap)]
  }

  function Total(values: seq<real>): real {
    if values == [] then 0.0 else values[0] + Total(values[1..])
  }

  function RecentReturnBps(history: seq<real>): real {
    if |history| < 2 || history[0] <= 0.0 then 0.0
    else ((history[|history| - 1] - history[0]) / history[0]) * 10000.0
  }

  function ExpectedEdgeBps(history: seq<real>, mid: real): real {
    if history == [] || mid <= 0.0 then 0.0
    else
      var average := Total(history) / |history| as real;
      if average <= mid then 0.0 else ((average - mid) / mid) * 10000.0
  }

  // ---------- inputs and outputs of one call ----------

  datatype BookView = BookView(
    symbol: string, mid: real, spreadBps: real, imbalance: real, bestBid: real, bestAsk: real)

  datatype Readings = Readings(zscore: real, volatilityBps: real, btcVolatilityBps: real, now: real, stamp: real)

  datatype Held = Held(quantity: real, averageEntry: real)

  datatype ExitKind = TakeProfit | StopLoss | MeanReversionProfit | TimeStop

  datatype SignalKind = Entry | Exit(why: ExitKind)

  datatype Signal = Signal(symbol: string, side: Side, quantity: real, price: Option<real>, kind: SignalKind)

  datatype State = State(
    mids: map<string, seq<real>>,
    lastEntry: map<string, real>,
    lastExit: map<string, real>,
    seenAt: map<string, real>,
    blockedUntil: map<string, real>,
    imbalances: map<string, seq<real>>)

  const FRESH := State(map[], map[], map[], map[], map[], map[])

  function EntryQuantity(c: Config, mid: real): real {
    var notional := Min(Max(c.targetNotional, c.minOrderNotional), c.maxPositionNotional);
    if mid <= 0.0 || notional < c.minOrderNotional then 0.0 else notional / mid
  }

  function OrderPrice(c: Config, side: Side, b: BookView): Option<real> {
    if c.orderType == Market then None
    else if side == Buy then (if b.bestBid > 0.0 then Some(b.bestBid) else None)
    else (if b.bestAsk > 0.0 then Some(b.bestAsk) else None)
  }

  // ---------- gates ----------

  predicate OnCooldown(store: map<string, real>, symbol: string, seconds: real, now: real) {
    seconds > 0.0 && symbol in store && now - store[symbol] < seconds
  }

  predicate Blocked(st: State, symbol: string, now: real) {
    symbol in st.blockedUntil && now < st.blockedUntil[symbol]
  }

  /** Checking a block forgets it once it has run out. */
  function BlockChecked(st: State, symbol: string, now: real): State {
    if symbol in st.blockedUntil && now >= st.blockedUntil[symbol]
    then st.(blockedUntil := st.blockedUntil - {symbol})
    else st
  }

  function BlockFor(st: State, symbol: string, seconds: real, at: real): State {
    if seconds <= 0.0 then st
    else
      var earlier := if symbol in st.blockedUntil then st.blockedUntil[symbol] else 0.0;
      st.(blockedUntil := st.blockedUntil[symbol := Max(earlier, at + seconds)])
  }

  predicate BtcAllows(c: Config, st: State, btcVolatilityBps: real) {
    !c.btcFilter ||
    (var history := WindowOf(st.mids, c.btcSymbol);
     if |history| < c.btcMinObservations then !c.btcRequireData
     else RecentReturnBps(history) > -Abs(c.btcDangerDropBps) && btcVolatilityBps < c.btcMaxVolatilityBps)
  }

  predicate Agrees(c: Config, imbalance: real, positive: bool) {
    if positive then imbalance >= c.imbalanceThreshold else imbalance <= -c.imbalanceThreshold
  }

  predicate Confirmed(c: Config, window: seq<real>, positive: bool) {
    |window| >= c.confirmSnapshots && forall x | x in window :: Agrees(c, x, positive)
  }

  // ---------- entries ----------

  /** The entry decision; asking for confirmation remembers the imbalance. */
  function EntryDecision(c: Config, st: State, b: BookView, zscore: real): (State, Option<Signal>) {
    var quantity := EntryQuantity(c, b.mid);
    if quantity <= 0.0 then (st, None)
    else if zscore <= -c.entryZ then
      if ExpectedEdgeBps(WindowOf(st.mids, b.symbol), b.mid) < RequiredEdgeBps(c) then (st, None)
      else
        var seen := st.(imbalances := Pushed(st.imbalances, b.symbol, b.imbalance, c.confirmSnapshots));
        if !Confirmed(c, seen.imbalances[b.symbol], true) || b.imbalance < c.imbalanceThreshold then (seen, None)
        else (seen, Some(Signal(b.symbol, Buy, quantity, OrderPrice(c, Buy, b), Entry)))
    else if c.allowShort && zscore >= c.entryZ && b.imbalance <= -c.imbalanceThreshold then
      (st, Some(Signal(b.symbol, Sell, quantity, OrderPrice(c, Sell, b), Entry)))
    else (st, None)
  }

  function FlatStep(c: Config, st: State, b: BookView, r: Readings): (State, Option<Signal>) {
    var checked := BlockChecked(st.(seenAt := st.seenAt - {b.symbol}), b.symbol, r.now);
    if Blocked(st, b.symbol, r.now) then (checked, None)
    else if RecentReturnBps(WindowOf(st.mids, b.symbol)) <= -c.badDropBps then
      (BlockFor(checked, b.symbol, c.lossCooldown, r.stamp), None)
    else if OnCooldown(st.lastEntry, b.symbol, c.cooldown, r.now) then (checked, None)
    else if !BtcAllows(c, st, r.btcVolatilityBps) then (checked, None)
    else
      var (after, signal) := EntryDecision(c, checked, b, r.zscore);
      (if signal.Some? then after.(lastEntry := after.lastEntry[b.symbol := r.stamp]) else after, signal)
  }

  // ---------- exits ----------

  /** The price an exit is judged at: the bid for a long, the ask for a short, else the mid. */
  function JudgedAt(h: Held, b: BookView): real {
    if h.quantity > 0.0 then (if b.bestBid > 0.0 then b.bestBid else b.mid)
    else (if b.bestAsk > 0.0 then b.bestAsk else b.mid)
  }

  /** Profit in basis points of the entry price. */
  function PnlBps(h: Held, price: real): real
    requires h.averageEntry > 0.0
  {
    if h.quantity > 0.0 then ((price - h.averageEntry) / h.averageEntry) * 10000.0
    else ((h.averageEntry - price) / h.averageEntry) * 10000.0
  }

  function ExitReason(c: Config, h: Held, pnlBps: real, r: Readings, age: real): Option<ExitKind> {
    if pnlBps >= TakeProfitThresholdBps(c) then Some(TakeProfit)
    else if pnlBps <= -StopThresholdBps(c, r.volatilityBps) then Some(StopLoss)
    else if (if h.quantity > 0.0 then r.zscore >= -c.exitZ else r.zscore <= c.exitZ)
            && pnlBps >= RequiredMinProfitBps(c) then Some(MeanReversionProfit)
    else if c.maxHold > 0.0 && age >= c.maxHold && pnlBps >= 0.0 then Some(TimeStop)
    else None
  }

  function ExitDecision(c: Config, st: State, h: Held, b: BookView, r: Readings): Option<Signal>
    requires h.quantity != 0.0
  {
    if h.averageEntry <= 0.0 then None
    else
      var age := r.now - (if b.symbol in st.seenAt then st.seenAt[b.symbol] else r.now);
      var why := ExitReason(c, h, PnlBps(h, JudgedAt(h, b)), r, age);
      var side := if h.quantity > 0.0 then Sell else Buy;
      if why.None? then None
      else Some(Signal(b.symbol, side, Abs(h.quantity), OrderPrice(c, side, b), Exit(why.value)))
  }

  function BlockAfter(c: Config, why: ExitKind): real {
    match why
    case TakeProfit => c.cooldownAfterExit
    case StopLoss => c.lossCooldown
    case MeanReversionProfit => 0.0
    case TimeStop => c.cooldownAfterExit
  }

  function HoldingStep(c: Config, st: State, h: Held, b: BookView, r: Readings): (State, Option<Signal>)
    requires h.quantity != 0.0
  {
    if OnCooldown(st.lastExit, b.symbol, ExitCooldown(c), r.now) then (st, None)
    else
      var seen := if b.symbol in st.seenAt then st else st.(seenAt := st.seenAt[b.symbol := r.now]);
      var signal := ExitDecision(c, seen, h, b, r);
      if signal.None? then (seen, None)
      else
        var stamped := seen.(lastExit := seen.lastExit[b.symbol := r.stamp]);
        (BlockFor(stamped, b.symbol, BlockAfter(c, signal.value.kind.why), r.stamp), signal)
  }

  // ---------- one tick, one order book ----------

  function TickStep(c: Config, st: State, symbol: string, mid: real): State {
    if symbol == "" || mid <= 0.0 then st
    else st.(mids := Pushed(st.mids, symbol, mid, c.rollingWindow))
  }

  /** One order book: `active` is the kill switch, `held` the ledger's position in the symbol. */
  function OrderbookStep(c: Config, st: State, active: bool, b: BookView, r: Readings, held: Option<Held>)
    : (State, Option<Signal>)
  {
    if !active || b.symbol == "" || b.mid <= 0.0 then (st, None)
    else
      var pushed := TickStep(c, st, b.symbol, b.mid);
      if |WindowOf(pushed.mids, b.symbol)| < c.minObservations then (pushed, None)
      else if b.spreadBps > c.maxSpreadBps then (pushed, None)
      else if b.symbol == c.btcSymbol && !c.tradeBtc then (pushed, None)
      else if held.None? || held.value.quantity == 0.0 then FlatStep(c, pushed, b, r)
      else HoldingStep(c, pushed, held.value, b, r)
  }

  // ---------- the mutable strategy ----------

  class MeanReversionImbalanceStrategy {
    const config: Config
    var midHistory: map<string, seq<real>>
    var lastEntrySignalAt: map<string, real>
    var lastExitSignalAt: map<string, real>
    var positionSeenAt: map<string, real>
    var blockedUntil: map<string, real>
    var imbalanceHistory: map<string, seq<real>>

    function Current(): State
      reads this
    {
      State(midHistory, lastEntrySignalAt, lastExitSignalAt, positionSeenAt, blockedUntil, imbalanceHistory)
    }

    constructor (config: Config)
      requires ValidConfig(config)
      ensures Current() == FRESH && this.config == config
    {
      this.config := config;
      midHistory, lastEntrySignalAt, lastExitSignalAt := map[], map[], map[];
      positionSeenAt, blockedUntil, imbalanceHistory := map[], map[], map[];
    }

    method AppendMid(symbol: string, mid: real)
      modifies this`midHistory
      ensures midHistory == Pushed(old(midHistory), symbol, mid, config.rollingWindow)
    {
      var window := if symbol in midHistory then midHistory[symbol] else [];
      window := window + [mid];
      if |window| > config.rollingWindow {
        window := window[|window| - config.rollingWindow..];
      }
      midHistory := midHistory[symbol := window];
    }

    method OnMarketTick(symbol: string, mid: real)
      modifies this`midHistory
      ensures Current() == TickStep(config, old(Current()), symbol, mid)
    {
      if symbol == "" || mid <= 0.0 { return; }
      AppendMid(symbol, mid);
    }

    method BlockSymbol(symbol: string, seconds: real, at: real)
      modifies this`blockedUntil
      ensures Current() == BlockFor(old(Current()), symbol, seconds, at)
    {
      if seconds <= 0.0 { return; }
      var earlier := if symbol in blockedUntil then blockedUntil[symbol] else 0.0;
      blockedUntil := blockedUntil[symbol := Max(earlier, at + seconds)];
    }

    method IsSymbolBlocked(symbol: string, now: real) returns (blocked: bool)
      modifies this`blockedUntil
      ensures blocked == Blocked(old(Current()), symbol, now)
      ensures Current() == BlockChecked(old(Current()), symbol, now)
    {
      if symbol !in blockedUntil { return false; }
      if now >= blockedUntil[symbol] {
        blockedUntil := blockedUntil - {symbol};
        return false;
      }
      return true;
    }

    method ImbalanceConfirmed(symbol: string, imbalance: real, positive: bool) returns (confirmed: bool)
      modifies this`imbalanceHistory
      ensures imbalanceHistory == Pushed(old(imbalanceHistory), symbol, imbalance, config.confirmSnapshots)
      ensures confirmed == Confirmed(config, imbalanceHistory[symbol], positive)
    {
      var window := if symbol in imbalanceHistory then imbalanceHistory[symbol] else [];
      window := LastOf(window + [imbalance], config.confirmSnapshots);
      imbalanceHistory := imbalanceHistory[symbol := window];
      if |window| < config.confirmSnapshots { return false; }
      for i := 0 to |window|
        invariant forall x | x in window[..i] :: Agrees(config, x, positive)
      {
        assert window[i] in window;
        if !Agrees(config, window[i], positive) { return false; }
        assert window[..i + 1] == window[..i] + [window[i]];
      }
      assert window[..|window|] == window;
      return true;
    }

    method BuildEntrySignal(b: BookView, zscore: real) returns (signal: Option<Signal>)
      modifies this`imbalanceHistory
      ensures (Current(), signal) == EntryDecision(config, old(Current()), b, zscore)
    {
      hide Pushed, Confirmed, ExpectedEdgeBps, RequiredEdgeBps, EntryQuantity;
      var quantity := EntryQuantity(config, b.mid);
      if quantity <= 0.0 { return None; }
      if zscore <= -config.entryZ {
        if ExpectedEdgeBps(WindowOf(midHistory, b.symbol), b.mid) < RequiredEdgeBps(config) { return None; }
        PushedHolds(imbalanceHistory, b.symbol, b.imbalance, config.confirmSnapshots);
        var confirmed := ImbalanceConfirmed(b.symbol, b.imbalance, true);
        if !confirmed || b.imbalance < config.imbalanceThreshold { return None; }
        return Some(Signal(b.symbol, Buy, quantity, OrderPrice(config, Buy, b), Entry));
      }
      if config.allowShort && zscore >= config.entryZ && b.imbalance <= -config.imbalanceThreshold {
        return Some(Signal(b.symbol, Sell, quantity, OrderPrice(config, Sell, b), Entry));
      }
      return None;
    }

    method WhenFlat(b: BookView, r: Readings) returns (signal: Option<Signal>)
      modifies this
      ensures (Current(), signal) == FlatStep(config, old(Current()), b, r)
    {
      hide EntryDecision, BtcAllows, RecentReturnBps;
      positionSeenAt := positionSeenAt - {b.symbol};
      var blocked := IsSymbolBlocked(b.symbol, r.now);
      if blocked { return None; }
      if RecentReturnBps(WindowOf(midHistory, b.symbol)) <= -config.badDropBps {
        BlockSymbol(b.symbol, config.lossCooldown, r.stamp);
        return None;
      }
      if OnCooldown(lastEntrySignalAt, b.symbol, config.cooldown, r.now) { return None; }
      OnlyMidsMatter(config, old(Current()), Current(), r.btcVolatilityBps);
      if !BtcAllows(config, Current(), r.btcVolatilityBps) { return None; }
      signal := BuildEntrySignal(b, r.zscore);
      if signal.Some? {
        lastEntrySignalAt := lastEntrySignalAt[b.symbol := r.stamp];
      }
    }

    method WhenHolding(h: Held, b: BookView, r: Readings) returns (signal: Option<Signal>)
      requires h.quantity != 0.0
      modifies this
      ensures (Current(), signal) == HoldingStep(config, old(Current()), h, b, r)
    {
      hide ExitDecision;
      if OnCooldown(lastExitSignalAt, b.symbol, ExitCooldown(config), r.now) { return None; }
      if b.symbol !in positionSeenAt {
        positionSeenAt := positionSeenAt[b.symbol := r.now];
      }
      signal := ExitDecision(config, Current(), h, b, r);
      if signal.Some? {
        ExitsAreExits(config, Current(), h, b, r);
        lastExitSignalAt := lastExitSignalAt[b.symbol := r.stamp];
        match signal.value.kind.why {
          case TakeProfit => BlockSymbol(b.symbol, config.cooldownAfterExit, r.stamp);
          case StopLoss => BlockSymbol(b.symbol, config.lossCooldown, r.stamp);
          case MeanReversionProfit =>
          case TimeStop => BlockSymbol(b.symbol, config.cooldownAfterExit, r.stamp);
        }
      }
    }

    method OnOrderbook(active: bool, b: BookView, r: Readings, held: Option<Held>) returns (signal: Option<Signal>)
      modifies this
      ensures (Current(), signal) == OrderbookStep(config, old(Current()), active, b, r, held)
    {
      hide FlatStep, HoldingStep, Pushed;
      if !active || b.symbol == "" || b.mid <= 0.0 { return None; }
      AppendMid(b.symbol, b.mid);
      if |WindowOf(midHistory, b.symbol)| < config.minObservations { return None; }
      if b.spreadBps > config.maxSpreadBps { return None; }
      if b.symbol == config.btcSymbol && !config.tradeBtc { return None; }
      if held.None? || held.value.quantity == 0.0 {
        signal := WhenFlat(b, r);
      } else {
        signal := WhenHolding(held.value, b, r);
      }
    }
  }

  lemma PushedHolds(windows: map<string, seq<real>>, symbol: string, value: real, cap: nat)
    ensures symbol in Pushed(windows, symbol, value, cap)
  {
  }

  lemma OnlyMidsMatter(c: Config, x: State, y: State, btcVolatilityBps: real)
    requires x.mids == y.mids
    ensures BtcAllows(c, x, btcVolatilityBps) == BtcAllows(c, y, btcVolatilityBps)
  {
    hide RecentReturnBps;
  }

  lemma ExitsAreExits(c: Config, st: State, h: Held, b: BookView, r: Readings)
    requires h.quantity != 0.0 && ExitDecision(c, st, h, b, r).Some?
    ensures ExitDecision(c, st, h, b, r).value.kind.Exit?
  {
    hide ExitReason, PnlBps;
  }
}
