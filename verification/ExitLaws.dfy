/** What the live strategy's exit thresholds promise on the ledger. */
module ExitLaws {
  import opened Common
  import opened Ledger
  import opened LedgerLaws
  import opened Strategy
  import SimExchange

  function HeldOf(h: Holding): Held {
    Held(h.quantity, h.averageEntry)
  }

  function ExitFill(h: Holding, symbol: string, price: real, fee: real): Fill {
    Fill(symbol, Some(if h.quantity > 0.0 then Sell else Buy), Abs(h.quantity), price, fee)
  }

  /** A complete fill of an exit signal removes the position and realises exactly its gross profit
      less the fee. */
  lemma ExitFlattens(st: LedgerState, symbol: string, price: real, fee: real, eps: real)
    requires eps >= 0.0 && WellFormed(st, eps) && symbol in st.holdings && symbol != "" && price > 0.0
    ensures var h := st.holdings[symbol];
            var after := Apply(st, ExitFill(h, symbol, price, fee), eps);
            && after.holdings == st.holdings - {symbol}
            && after.realizedTotal == st.realizedTotal + PnlOn(h, price, Abs(h.quantity)) - fee
  {
    hide PnlOn, Blended;
  }

  /** Profit of a unit of the position at a price, in terms of its basis points. */
  lemma BpsMeans(h: Holding, price: real)
    requires h.averageEntry > 0.0 && h.quantity != 0.0
    ensures var bps := PnlBps(HeldOf(h), price);
            PnlOn(h, price, Abs(h.quantity)) == Worth(Worth(Abs(h.quantity), h.averageEntry), bps / 10000.0)
            && price == (if h.quantity > 0.0 then h.averageEntry + Worth(h.averageEntry, bps / 10000.0)
                         else h.averageEntry - Worth(h.averageEntry, bps / 10000.0))
  {
    var e, q := h.averageEntry, Abs(h.quantity);
    var gap := if h.quantity > 0.0 then price - e else e - price;
    var part := gap / e;
    assert part * e == gap;
    assert PnlBps(HeldOf(h), price) / 10000.0 == part;
    assert PnlOn(h, price, q) == gap * q;
    Reorder(q, e, part);
  }

  lemma Reorder(q: real, e: real, part: real)
    ensures (part * e) * q == (q * e) * part && e * part == part * e
  {
  }

  /** Only a stop loss can realise a gross loss at the price it was judged on. */
  lemma OnlyStopLossLoses(c: Config, st: State, h: Holding, b: BookView, r: Readings)
    requires ValidConfig(c) && h.quantity != 0.0 && ExitDecision(c, st, HeldOf(h), b, r).Some?
    ensures var s := ExitDecision(c, st, HeldOf(h), b, r).value;
            && h.averageEntry > 0.0 && s.kind.Exit?
            && (s.kind.why != StopLoss ==> PnlOn(h, JudgedAt(HeldOf(h), b), Abs(h.quantity)) >= 0.0)
            && (s.kind.why == StopLoss && !c.dynamicStop ==> PnlOn(h, JudgedAt(HeldOf(h), b), Abs(h.quantity)) < 0.0)
  {
    hide PnlOn, Worth, PnlBps, JudgedAt;
    var price := JudgedAt(HeldOf(h), b);
    var part := PnlBps(HeldOf(h), price) / 10000.0;
    BpsMeans(h, price);
    var cost := Worth(Abs(h.quantity), h.averageEntry);
    WorthSign(Abs(h.quantity), h.averageEntry);
    WorthMonoPrice(cost, Min(part, 0.0), Max(part, 0.0));
    WorthZero(cost);
    PositiveProduct(cost, part);
  }

  lemma PositiveProduct(x: real, y: real)
    requires x > 0.0
    ensures y > 0.0 <==> Worth(x, y) > 0.0
    ensures y < 0.0 <==> Worth(x, y) < 0.0
  {
    WorthSign(y, x);
    assert Worth(x, y) == Worth(y, x);
  }

  /** The taker fee charged on a notional. */
  function TakerFee(c: Config, notional: real): real {
    Worth(notional, c.takerFeeBps / 10000.0)
  }

  /** Fills that build a position from flat, the first above the dust limit, all charged the taker fee. */
  predicate Builds(c: Config, fills: seq<Fill>, symbol: string, side: Side, eps: real) {
    && (fills != [] ==> fills[0].quantity > eps)
    && (forall f | f in fills ::
          Accepted(f) && f.symbol == symbol && f.side == Some(side)
          && f.fee == TakerFee(c, Worth(f.quantity, f.price)))
  }

  /** Built by any number of fills on one side, a position has cost exactly the taker fee on its size
      at its average entry. */
  lemma {:induction false} BuiltPosition(
    c: Config, st: LedgerState, fills: seq<Fill>, symbol: string, side: Side, eps: real)
    requires eps >= 0.0 && fills != [] && symbol !in st.holdings && Builds(c, fills, symbol, side, eps)
    ensures var after := Replay(st, fills, eps);
            && symbol in after.holdings && SoundHolding(after.holdings[symbol], eps)
            && (after.holdings[symbol].quantity > 0.0 <==> side == Buy)
            && after.realizedTotal == st.realizedTotal
                 - TakerFee(c, Worth(Abs(after.holdings[symbol].quantity), after.holdings[symbol].averageEntry))
  {
    hide Worth, PnlOn, Blended;
    var earlier, f := fills[..|fills| - 1], fills[|fills| - 1];
    assert f in fills;
    NothingClosed(Before(Replay(st, earlier, eps), symbol), f.price);
    if earlier == [] {
      assert Replay(st, earlier, eps) == st;
    } else {
      BuiltPosition(c, st, earlier, symbol, side, eps);
      AddedFill(c, Replay(st, earlier, eps), f, eps);
    }
  }

  lemma AddedFill(c: Config, st: LedgerState, f: Fill, eps: real)
    requires eps >= 0.0 && Accepted(f) && f.symbol in st.holdings && SoundHolding(st.holdings[f.symbol], eps)
    requires !Opposite(st.holdings[f.symbol].quantity, Delta(f))
    requires f.fee == TakerFee(c, Worth(f.quantity, f.price))
    ensures var h := st.holdings[f.symbol];
            var after := Settled(h, Delta(f), f.price, f.fee, eps);
            && SoundHolding(after, eps) && (after.quantity > 0.0 <==> h.quantity > 0.0)
            && TakerFee(c, Worth(Abs(after.quantity), after.averageEntry))
                 == TakerFee(c, Worth(Abs(h.quantity), h.averageEntry)) + f.fee
  {
    hide PnlOn, Blended;
    var h, rate := st.holdings[f.symbol], c.takerFeeBps / 10000.0;
    BlendedPrice(Abs(h.quantity), h.averageEntry, Abs(Delta(f)), f.price);
    WorthSum(Worth(Abs(h.quantity), h.averageEntry), Worth(f.quantity, f.price), rate);
  }

  /** Round-trip profit after taker fees on both legs: positive exactly when the basis points gained,
      weighed for the fee on the exit notional, exceed twice the fee. */
  lemma RoundTrip(c: Config, h: Holding, price: real)
    requires h.averageEntry > 0.0 && h.quantity != 0.0
    ensures var bps := PnlBps(HeldOf(h), price);
            var rate := c.takerFeeBps / 10000.0;
            var net := PnlOn(h, price, Abs(h.quantity))
              - TakerFee(c, Worth(Abs(h.quantity), h.averageEntry)) - TakerFee(c, Worth(Abs(h.quantity), price));
            net > 0.0 <==>
              Worth(bps, if h.quantity > 0.0 then 1.0 - rate else 1.0 + rate) > 2.0 * c.takerFeeBps
  {
    hide PnlOn, PnlBps;
    var bps, rate := PnlBps(HeldOf(h), price), c.takerFeeBps / 10000.0;
    var cost, part := Worth(Abs(h.quantity), h.averageEntry), bps / 10000.0;
    BpsMeans(h, price);
    WorthSign(Abs(h.quantity), h.averageEntry);
    var factor := part * (if h.quantity > 0.0 then 1.0 - rate else 1.0 + rate) - 2.0 * rate;
    FactorOfCost(Abs(h.quantity), h.averageEntry, part, rate);
    PositiveProduct(cost, factor);
  }

  lemma FactorOfCost(q: real, e: real, part: real, rate: real)
    ensures (q * e) * part - (q * e) * rate - (q * (e + e * part)) * rate
         == (q * e) * (part * (1.0 - rate) - 2.0 * rate)
    ensures (q * e) * part - (q * e) * rate - (q * (e - e * part)) * rate
         == (q * e) * (part * (1.0 + rate) - 2.0 * rate)
  {
    var n := q * e;
    assert q * (e + e * part) == n + n * part;
    assert q * (e - e * part) == n - n * part;
  }

  lemma ThresholdCoversFees(c: Config)
    requires ValidConfig(c) && c.slippageBps >= 0.0 && c.profitBufferBps >= 0.0
    ensures TakeProfitThresholdBps(c) > 0.0 && TakeProfitThresholdBps(c) >= 4.0 * c.takerFeeBps
  {
  }

  /** Every take-profit exit, long or short, of a position built from flat by any number of fills that
      fills completely at the price it was judged on realises a strictly positive round-trip profit
      after the taker fee on all legs, for every taker fee below 50% (and no rebate beyond 100%). */
  lemma TakeProfitPays(
    c: Config, before: LedgerState, fills: seq<Fill>, symbol: string, side: Side,
    st: State, b: BookView, r: Readings, eps: real)
    requires ValidConfig(c) && c.slippageBps >= 0.0 && c.profitBufferBps >= 0.0 && -10000.0 <= c.takerFeeBps < 5000.0
    requires eps >= 0.0 && WellFormed(before, eps) && fills != [] && symbol !in before.holdings
    requires Builds(c, fills, symbol, side, eps) && b.symbol == symbol
    ensures var whole := Replay(before, fills, eps);
            var h := Before(whole, symbol);
            var price := JudgedAt(HeldOf(h), b);
            h.quantity != 0.0 && h.averageEntry > 0.0 &&
            (price > 0.0 && ExitDecision(c, st, HeldOf(h), b, r).Some?
             && ExitDecision(c, st, HeldOf(h), b, r).value.kind == Exit(TakeProfit) ==>
               var fee := TakerFee(c, Worth(Abs(h.quantity), price));
               Apply(whole, ExitFill(h, symbol, price, fee), eps).realizedTotal > before.realizedTotal)
  {
    hide PnlOn, Worth, PnlBps, Apply, JudgedAt, TakeProfitThresholdBps, StopThresholdBps;
    BuiltPosition(c, before, fills, symbol, side, eps);
    ReplayKeepsWellFormed(before, fills, eps);
    var whole := Replay(before, fills, eps);
    var h := whole.holdings[symbol];
    var price := JudgedAt(HeldOf(h), b);
    var decision := ExitDecision(c, st, HeldOf(h), b, r);
    if price > 0.0 && decision.Some? && decision.value.kind == Exit(TakeProfit) {
      assert fills[0] in fills;
      var fee := TakerFee(c, Worth(Abs(h.quantity), price));
      var bps := PnlBps(HeldOf(h), price);
      ExitFlattens(whole, symbol, price, fee, eps);
      RoundTrip(c, h, price);
      ThresholdCoversFees(c);
      EnoughBps(bps, c.takerFeeBps);
    }
  }

  lemma EnoughBps(bps: real, feeBps: real)
    requires bps > 0.0 && bps >= 4.0 * feeBps && -10000.0 <= feeBps < 5000.0
    ensures Worth(bps, 1.0 - feeBps / 10000.0) > 2.0 * feeBps
    ensures Worth(bps, 1.0 + feeBps / 10000.0) > 2.0 * feeBps
  {
    WeighedBps(bps, feeBps, 1.0 - feeBps / 10000.0);
    WeighedBps(bps, feeBps, 1.0 + feeBps / 10000.0);
  }

  lemma WeighedBps(bps: real, feeBps: real, k: real)
    requires bps > 0.0 && bps >= 4.0 * feeBps && k >= 0.0
    requires feeBps >= 0.0 ==> k > 0.5
    ensures Worth(bps, k) > 2.0 * feeBps
  {
    if feeBps > 0.0 {
      ScaleMono(4.0 * feeBps, bps, k);
      ScaleStrict(0.5, k, 4.0 * feeBps);
      assert k * (4.0 * feeBps) == (4.0 * feeBps) * k;
    } else if feeBps == 0.0 {
      ScaleStrict(0.0, k, bps);
    } else {
      ScaleMono(0.0, k, bps);
    }
  }

  /** At a taker fee of 50% the promise fails: a long judged exactly at its threshold breaks even. */
  lemma HalfFeeBreaksEven(c: Config, h: Holding)
    requires ValidConfig(c) && c.takerFeeBps == 5000.0 && c.slippageBps == 0.0 && c.profitBufferBps == 0.0
    requires c.minProfitBps <= 10000.0 && c.takeProfitBps <= 20000.0
    requires h.quantity > 0.0 && h.averageEntry > 0.0
    ensures var price := 3.0 * h.averageEntry;
            && PnlBps(HeldOf(h), price) == TakeProfitThresholdBps(c)
            && PnlOn(h, price, h.quantity)
                 == TakerFee(c, Worth(h.quantity, h.averageEntry)) + TakerFee(c, Worth(h.quantity, price))
  {
    var e := h.averageEntry;
    assert (3.0 * e - e) / e == 2.0;
  }

  // ---------- exits filled as market orders ----------

  /** Profit of a position closed at a price, after the taker fee on both legs. */
  function NetRoundTrip(c: Config, h: Holding, price: real): real {
    PnlOn(h, price, Abs(h.quantity))
      - TakerFee(c, Worth(Abs(h.quantity), h.averageEntry)) - TakerFee(c, Worth(Abs(h.quantity), price))
  }

  /** What a unit of cost returns, net, when the gain (a fraction of the entry) is judged at the quote
      and the exit fills at the slipped quote. */
  function UnitReturn(long: bool, gain: real, slippage: real, fee: real): real {
    if long then Worth(Worth(1.0 + gain, 1.0 - slippage), 1.0 - fee) - (1.0 + fee)
    else (1.0 - fee) - Worth(Worth(1.0 - gain, 1.0 + slippage), 1.0 + fee)
  }

  lemma LongReturn(q: real, e: real, gain: real, slippage: real, fee: real)
    ensures var price := Worth(e + Worth(e, gain), 1.0 - slippage);
            Worth(q, price - e) - Worth(Worth(q, e), fee) - Worth(Worth(q, price), fee)
              == Worth(Worth(q, e), UnitReturn(true, gain, slippage, fee))
  {
    var n, u := q * e, (1.0 + gain) * (1.0 - slippage);
    var price := Worth(e + Worth(e, gain), 1.0 - slippage);
    assert price == e * u;
    assert q * price == n * u;
    assert (price - e) * q == n * u - n;
  }

  lemma ShortReturn(q: real, e: real, gain: real, slippage: real, fee: real)
    ensures var price := Worth(e - Worth(e, gain), 1.0 + slippage);
            Worth(q, e - price) - Worth(Worth(q, e), fee) - Worth(Worth(q, price), fee)
              == Worth(Worth(q, e), UnitReturn(false, gain, slippage, fee))
  {
    var n, u := q * e, (1.0 - gain) * (1.0 + slippage);
    var price := Worth(e - Worth(e, gain), 1.0 + slippage);
    assert price == e * u;
    assert q * price == n * u;
    assert (e - price) * q == n - n * u;
  }

  /** The quote at which an exit is filled: that of the other side. */
  function ExitSide(h: Holding): Side {
    if h.quantity > 0.0 then Sell else Buy
  }

  lemma PnlOfAll(h: Holding, price: real)
    ensures PnlOn(h, price, Abs(h.quantity))
         == Worth(Abs(h.quantity), if h.quantity > 0.0 then price - h.averageEntry else h.averageEntry - price)
  {
  }

  /** A round trip filled at the slipped quote earns what its basis points at the quote say. */
  lemma SlippedReturn(c: Config, h: Holding, quote: real, costs: SimExchange.Costs)
    requires h.averageEntry > 0.0 && h.quantity != 0.0
    ensures var gain := PnlBps(HeldOf(h), quote) / 10000.0;
            NetRoundTrip(c, h, SimExchange.Slipped(ExitSide(h), quote, costs))
              == Worth(Worth(Abs(h.quantity), h.averageEntry),
                       UnitReturn(h.quantity > 0.0, gain, costs.slippageBps / 10000.0, c.takerFeeBps / 10000.0))
  {
    hide Worth, PnlBps, UnitReturn, PnlOn;
    BpsMeans(h, quote);
    PnlOfAll(h, SimExchange.Slipped(ExitSide(h), quote, costs));
    var gain := PnlBps(HeldOf(h), quote) / 10000.0;
    var q, e := Abs(h.quantity), h.averageEntry;
    var price := SimExchange.Slipped(ExitSide(h), quote, costs);
    if h.quantity > 0.0 {
      assert price == Worth(e + Worth(e, gain), 1.0 - costs.slippageBps / 10000.0);
      LongReturn(q, e, gain, costs.slippageBps / 10000.0, c.takerFeeBps / 10000.0);
    } else {
      assert price == Worth(e - Worth(e, gain), 1.0 + costs.slippageBps / 10000.0);
      ShortReturn(q, e, gain, costs.slippageBps / 10000.0, c.takerFeeBps / 10000.0);
    }
  }

  /** A configuration whose take-profit threshold covers fee and slippage: a gain of exactly the threshold
      pays. No short can gain its whole entry. */
  predicate CoversSlippage(c: Config, costs: SimExchange.Costs, long: bool) {
    var gain := TakeProfitThresholdBps(c) / 10000.0;
    (!long && gain >= 1.0) || UnitReturn(long, gain, costs.slippageBps / 10000.0, c.takerFeeBps / 10000.0) > 0.0
  }

  /** The quote at which a position has gained a given fraction. */
  function QuoteAt(h: Holding, gain: real): real {
    if h.quantity > 0.0 then h.averageEntry + Worth(h.averageEntry, gain)
    else h.averageEntry - Worth(h.averageEntry, gain)
  }

  lemma QuoteAtGains(h: Holding, bps: real)
    requires h.averageEntry > 0.0 && h.quantity != 0.0
    ensures PnlBps(HeldOf(h), QuoteAt(h, bps / 10000.0)) == bps
    ensures h.quantity > 0.0 && bps > 0.0 ==> QuoteAt(h, bps / 10000.0) > 0.0
    ensures h.quantity < 0.0 ==> (QuoteAt(h, bps / 10000.0) > 0.0 <==> bps < 10000.0)
  {
    var e, part := h.averageEntry, bps / 10000.0;
    assert e * part / e == part;
    if h.quantity < 0.0 {
      assert e - e * part == (1.0 - part) * e;
      WorthSign(1.0 - part, e);
    } else if bps > 0.0 {
      WorthSign(part, e);
    }
  }

  lemma LongReturnFactors(gain: real, slippage: real, fee: real)
    ensures UnitReturn(true, gain, slippage, fee)
         == Worth(1.0 + gain, Worth(1.0 - slippage, 1.0 - fee)) - (1.0 + fee)
  {
    Associates(1.0 + gain, 1.0 - slippage, 1.0 - fee);
  }

  lemma ShortReturnFactors(gain: real, slippage: real, fee: real)
    ensures UnitReturn(false, gain, slippage, fee)
         == (1.0 - fee) - Worth(1.0 - gain, Worth(1.0 + slippage, 1.0 + fee))
  {
    Associates(1.0 - gain, 1.0 + slippage, 1.0 + fee);
  }

  lemma Associates(x: real, y: real, z: real)
    ensures Worth(Worth(x, y), z) == Worth(x, Worth(y, z))
  {
  }

  /** A product above a bound that is not negative stays above it when its larger factor grows. */
  lemma StaysAbove(x: real, y: real, k: real, least: real)
    requires 0.0 <= x <= y && least >= 0.0 && Worth(x, k) > least
    ensures Worth(y, k) > least
  {
    hide Worth;
    if k <= 0.0 {
      WorthMonoPrice(x, k, 0.0);
      WorthZero(x);
    } else {
      WorthMono(x, y, k);
    }
  }

  /** Returns grow with the gain, once they are positive. */
  lemma ReturnGrows(long: bool, less: real, more: real, slippage: real, fee: real)
    requires 0.0 <= less <= more && slippage >= 0.0 && fee >= -1.0 && UnitReturn(long, less, slippage, fee) > 0.0
    ensures UnitReturn(long, more, slippage, fee) > 0.0
  {
    hide UnitReturn, Worth;
    if long {
      LongReturnFactors(less, slippage, fee);
      LongReturnFactors(more, slippage, fee);
      StaysAbove(1.0 + less, 1.0 + more, Worth(1.0 - slippage, 1.0 - fee), 1.0 + fee);
    } else {
      ShortReturnFactors(less, slippage, fee);
      ShortReturnFactors(more, slippage, fee);
      WorthMonoPrice(1.0 + slippage, 0.0, 1.0 + fee);
      WorthZero(1.0 + slippage);
      WorthMono(1.0 - more, 1.0 - less, Worth(1.0 + slippage, 1.0 + fee));
    }
  }

  /** Filled as a market order at the slipped quote, every take-profit of a position pays, at whatever
      quote it is judged, exactly when the configuration's threshold covers fee and slippage. */
  lemma SlippedTakeProfitIff(c: Config, h: Holding, costs: SimExchange.Costs)
    requires ValidConfig(c) && SimExchange.ValidCosts(costs) && c.takerFeeBps >= -10000.0
    requires h.averageEntry > 0.0 && h.quantity != 0.0
    ensures (forall quote: real | quote > 0.0 && PnlBps(HeldOf(h), quote) >= TakeProfitThresholdBps(c) ::
               NetRoundTrip(c, h, SimExchange.Slipped(ExitSide(h), quote, costs)) > 0.0)
        <==> CoversSlippage(c, costs, h.quantity > 0.0)
  {
    hide Worth, PnlBps, UnitReturn, PnlOn, TakerFee, SimExchange.Slipped, QuoteAt, TakeProfitThresholdBps, NetRoundTrip;
    var threshold, long := TakeProfitThresholdBps(c), h.quantity > 0.0;
    var slippage, fee := costs.slippageBps / 10000.0, c.takerFeeBps / 10000.0;
    var cost := Worth(Abs(h.quantity), h.averageEntry);
    assert cost > 0.0 by { WorthSign(Abs(h.quantity), h.averageEntry); }
    assert threshold > 0.0 by { ThresholdIsPositive(c); }
    if CoversSlippage(c, costs, long) {
      forall quote: real | quote > 0.0 && PnlBps(HeldOf(h), quote) >= threshold
        ensures NetRoundTrip(c, h, SimExchange.Slipped(ExitSide(h), quote, costs)) > 0.0
      {
        var bps := PnlBps(HeldOf(h), quote);
        SlippedReturn(c, h, quote, costs);
        ShortGainIsBelowOne(h, quote);
        ReturnGrows(long, threshold / 10000.0, bps / 10000.0, slippage, fee);
        PositiveProduct(cost, UnitReturn(long, bps / 10000.0, slippage, fee));
      }
    } else {
      var quote := QuoteAt(h, threshold / 10000.0);
      QuoteAtGains(h, threshold);
      SlippedReturn(c, h, quote, costs);
      PositiveProduct(cost, UnitReturn(long, threshold / 10000.0, slippage, fee));
    }
  }

  lemma ThresholdIsPositive(c: Config)
    requires ValidConfig(c)
    ensures TakeProfitThresholdBps(c) > 0.0
  {
  }

  lemma ShortGainIsBelowOne(h: Holding, quote: real)
    requires h.averageEntry > 0.0 && quote > 0.0
    ensures h.quantity < 0.0 ==> PnlBps(HeldOf(h), quote) < 10000.0
  {
    var part := (h.averageEntry - quote) / h.averageEntry;
    assert part * h.averageEntry == h.averageEntry - quote;
    if part >= 1.0 {
      ScaleMono(1.0, part, h.averageEntry);
    }
  }

  /** The default threshold covers the slippage it was configured with: for shorts always, for longs when
      fee and slippage together leave more than half of a sale. */
  lemma ThresholdCoversSlippage(c: Config, costs: SimExchange.Costs, long: bool)
    requires ValidConfig(c) && c.takerFeeBps >= 0.0 && c.profitBufferBps >= 0.0
    requires costs.slippageBps == c.slippageBps >= 0.0
    requires long ==> c.takerFeeBps < 10000.0 && c.slippageBps < 10000.0
    requires long ==> Worth(1.0 - c.slippageBps / 10000.0, 1.0 - c.takerFeeBps / 10000.0) > 0.5
    ensures CoversSlippage(c, costs, long)
  {
    hide UnitReturn, TakeProfitThresholdBps, Worth;
    var gain, s, f := TakeProfitThresholdBps(c) / 10000.0, c.slippageBps / 10000.0, c.takerFeeBps / 10000.0;
    assert gain > 0.0 && gain >= 4.0 * f + 2.0 * s by { ThresholdOfCosts(c); }
    if long {
      LongCovers(gain, s, f);
    } else {
      ShortCovers(gain, s, f);
    }
  }

  lemma ThresholdOfCosts(c: Config)
    requires ValidConfig(c) && c.profitBufferBps >= 0.0
    ensures TakeProfitThresholdBps(c) > 0.0
    ensures TakeProfitThresholdBps(c) >= 4.0 * c.takerFeeBps + 2.0 * c.slippageBps
  {
  }

  lemma LongCovers(gain: real, s: real, f: real)
    requires 0.0 <= s < 1.0 && 0.0 <= f < 1.0 && gain > 0.0 && gain >= 4.0 * f + 2.0 * s
    requires Worth(1.0 - s, 1.0 - f) > 0.5
    ensures UnitReturn(true, gain, s, f) > 0.0
  {
    var k, m := (1.0 - s) * (1.0 - f), s * f;
    NotNegativeProduct(s, f);
    LongReturnFactors(gain, s, f);
    assert k == 1.0 - s - f + m;
    LongMargin(gain, k, s, f, m);
  }

  lemma LongMargin(gain: real, k: real, s: real, f: real, m: real)
    requires k == 1.0 - s - f + m && m >= 0.0 && k > 0.5 && gain > 0.0 && gain >= 4.0 * f + 2.0 * s
    ensures (1.0 + gain) * k > 1.0 + f
  {
    ScaleStrict(0.5, k, gain);
    assert (1.0 + gain) * k == k + k * gain;
  }

  lemma ShortCovers(gain: real, s: real, f: real)
    requires s >= 0.0 && f >= 0.0 && gain > 0.0 && gain >= 4.0 * f + 2.0 * s
    ensures gain >= 1.0 || UnitReturn(false, gain, s, f) > 0.0
  {
    if gain < 1.0 {
      var k, m := (1.0 + s) * (1.0 + f), s * f;
      NotNegativeProduct(s, f);
      ShortReturnFactors(gain, s, f);
      assert k == 1.0 + s + f + m;
      ScaleMono(2.0 * s, gain, f);
      assert (2.0 * s) * f == 2.0 * m;
      ShortMargin(gain, k, s, f, m);
    }
  }

  lemma ShortMargin(gain: real, k: real, s: real, f: real, m: real)
    requires k == 1.0 + s + f + m && s >= 0.0 && f >= 0.0 && m >= 0.0 && gain > 0.0
    requires gain >= 4.0 * f + 2.0 * s && gain * f >= 2.0 * m
    ensures (1.0 - gain) * k < 1.0 - f
  {
    ScaleMono(1.0 + f, k, gain);
    assert (1.0 + f) * gain == gain + gain * f;
    assert (1.0 - gain) * k == k - k * gain;
  }

  /** So a take-profit exit of a position built from flat by any number of fills, filled as a market order
      at the slipped quote it was judged at, realises a strictly positive round trip after the taker fee
      on all legs whenever the threshold covers fee and slippage. */
  lemma TakeProfitPaysSlipped(
    c: Config, before: LedgerState, fills: seq<Fill>, symbol: string, side: Side,
    st: State, b: BookView, r: Readings, costs: SimExchange.Costs, eps: real)
    requires ValidConfig(c) && SimExchange.ValidCosts(costs) && c.takerFeeBps >= -10000.0
    requires CoversSlippage(c, costs, side == Buy)
    requires eps >= 0.0 && WellFormed(before, eps) && fills != [] && symbol !in before.holdings && symbol != ""
    requires Builds(c, fills, symbol, side, eps) && b.symbol == symbol
    ensures var whole := Replay(before, fills, eps);
            var h := Before(whole, symbol);
            h.quantity != 0.0 && h.averageEntry > 0.0 &&
            var quote := JudgedAt(HeldOf(h), b);
            var price := SimExchange.Slipped(ExitSide(h), quote, costs);
            (quote > 0.0 && price > 0.0 && ExitDecision(c, st, HeldOf(h), b, r).Some?
             && ExitDecision(c, st, HeldOf(h), b, r).value.kind == Exit(TakeProfit) ==>
               var fee := TakerFee(c, Worth(Abs(h.quantity), price));
               Apply(whole, ExitFill(h, symbol, price, fee), eps).realizedTotal > before.realizedTotal)
  {
    hide PnlOn, Worth, PnlBps, Apply, JudgedAt, TakeProfitThresholdBps, StopThresholdBps, TakerFee, CoversSlippage,
         SimExchange.Slipped;
    BuiltPosition(c, before, fills, symbol, side, eps);
    ReplayKeepsWellFormed(before, fills, eps);
    var whole := Replay(before, fills, eps);
    var h := whole.holdings[symbol];
    var quote := JudgedAt(HeldOf(h), b);
    var price := SimExchange.Slipped(ExitSide(h), quote, costs);
    var decision := ExitDecision(c, st, HeldOf(h), b, r);
    if quote > 0.0 && price > 0.0 && decision.Some? && decision.value.kind == Exit(TakeProfit) {
      ExitFlattens(whole, symbol, price, TakerFee(c, Worth(Abs(h.quantity), price)), eps);
      SlippedTakeProfitIff(c, h, costs);
    }
  }

  // ---------- what an entry promises its exit ----------

  /** An entry's notional at the mid lies between the order minimum and the position maximum, and is the
      target when that does. */
  lemma EntryNotional(c: Config, st: State, b: BookView, zscore: real)
    requires ValidConfig(c) && EntryDecision(c, st, b, zscore).1.Some?
    ensures var s := EntryDecision(c, st, b, zscore).1.value;
            && s.quantity > 0.0 && b.mid > 0.0
            && c.minOrderNotional <= Worth(s.quantity, b.mid) <= c.maxPositionNotional
            && (c.minOrderNotional <= c.targetNotional <= c.maxPositionNotional ==>
                Worth(s.quantity, b.mid) == c.targetNotional)
  {
    hide Pushed, Confirmed, ExpectedEdgeBps, RequiredEdgeBps;
    var notional := Min(Max(c.targetNotional, c.minOrderNotional), c.maxPositionNotional);
    var q := notional / b.mid;
    assert q * b.mid == notional;
  }

  /** The expected edge of a window is the profit of a long entered at the mid once the price is back at
      the window's average. */
  lemma EdgeIsReversionProfit(history: seq<real>, mid: real, quantity: real)
    requires history != [] && mid > 0.0 && quantity > 0.0
    ensures var average := Total(history) / |history| as real;
            average > mid ==> ExpectedEdgeBps(history, mid) == PnlBps(Held(quantity, mid), average)
  {
    hide Total;
  }

  /** A long entered at the mid of its signal meets an exit threshold as soon as it can be sold at the
      average of the window it was judged by with the z-score back up, whatever the configuration. */
  lemma ReversionMeetsTheExit(c: Config, st: State, b: BookView, zscore: real, r: Readings, age: real)
    requires ValidConfig(c) && r.zscore >= -c.exitZ
    requires EntryDecision(c, st, b, zscore).1.Some? && EntryDecision(c, st, b, zscore).1.value.side == Buy
    requires RequiredEdgeBps(c) > 0.0
    ensures var history := WindowOf(st.mids, b.symbol);
            var h := Held(EntryDecision(c, st, b, zscore).1.value.quantity, b.mid);
            && history != [] && b.mid > 0.0
            && (var bps := PnlBps(h, Total(history) / |history| as real);
                bps >= RequiredMinProfitBps(c) && ExitReason(c, h, bps, r, age).Some?)
  {
    hide Total, PnlBps, Pushed, Confirmed;
    EntryNotional(c, st, b, zscore);
    var history := WindowOf(st.mids, b.symbol);
    EdgeIsReversionProfit(history, b.mid, EntryDecision(c, st, b, zscore).1.value.quantity);
  }
}
