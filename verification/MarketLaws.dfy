/** No free money: trading on the simulated exchange against quotes that straddle the mark never
    raises the ledger's total profit, dropped dust aside. */
module MarketLaws {
  import opened Common
  import opened RealSums
  import opened Ledger
  import opened LedgerLaws
  import opened SimExchange
  import Strategy

  /** Realised plus unrealised profit at given marks. */
  ghost function Equity(st: LedgerState, marks: string -> real): real {
    st.realizedTotal + Sum(Gains(st.holdings, marks))
  }

  lemma EquityIsCashPlusValue(st: LedgerState, marks: string -> real)
    ensures Equity(st, marks) == BookCash(st) + Sum(Values(st.holdings, marks))
  {
    hide Gains, Values, EntryCosts;
    GainsAreValuesMinusCosts(st.holdings, marks);
  }

  /** How far a fill price is against the order, times the quantity, plus the fee. */
  function TradingCost(f: Fill, mark: real): real
    requires Accepted(f)
  {
    Worth(Delta(f), f.price - mark) + f.fee
  }

  function KeptValue(h: Holding, mark: real, eps: real): real {
    if Abs(h.quantity) <= eps then 0.0 else Worth(h.quantity, mark)
  }

  lemma StoredValue(holdings: map<string, Holding>, symbol: string, h: Holding, marks: string -> real, eps: real)
    ensures Sum(Values(Store(holdings, symbol, h, eps), marks))
         == Sum(Values(holdings, marks)) - At(Values(holdings, marks), symbol) + KeptValue(h, marks(symbol), eps)
  {
    hide Worth;
    if Abs(h.quantity) <= eps {
      assert Values(holdings - {symbol}, marks) == Values(holdings, marks) - {symbol};
      SumRemove(Values(holdings, marks), symbol);
    } else {
      assert Values(holdings[symbol := h], marks)
          == Values(holdings, marks)[symbol := Worth(h.quantity, marks(symbol))];
      SumUpdate(Values(holdings, marks), symbol, Worth(h.quantity, marks(symbol)));
    }
  }

  lemma KeptValueAfter(h: Holding, delta: real, price: real, fee: real, mark: real, eps: real)
    requires eps >= 0.0 && Startable(h, eps) && delta != 0.0
    ensures KeptValue(Settled(h, delta, price, fee, eps), mark, eps)
         == Worth(h.quantity, mark) + Worth(delta, mark) - Worth(Dropped(h, delta, eps), mark)
  {
    hide Worth, Blended, PnlOn;
    var dropped := Dropped(h, delta, eps);
    WorthSum(h.quantity, delta, mark);
    WorthSum(h.quantity + delta, -dropped, mark);
    WorthSum(dropped, 0.0, mark);
    WorthZero(mark);
  }

  /** One fill changes the total profit at a mark by exactly its trading cost, downwards, plus what
      the dropped dust was booked at above that mark. */
  lemma EquityStep(st: LedgerState, f: Fill, marks: string -> real, eps: real)
    requires eps >= 0.0 && WellFormed(st, eps) && Accepted(f)
    ensures var h := Before(st, f.symbol);
            Equity(Apply(st, f, eps), marks)
              == Equity(st, marks) - TradingCost(f, marks(f.symbol))
                 + Worth(Dropped(h, Delta(f), eps), BookedAt(h, Delta(f), f.price) - marks(f.symbol))
  {
    hide Worth, Settled, PnlOn, Gains, KeptValue, Equity, BookCash, Sum, Dropped, BookedAt;
    var h, mark := Before(st, f.symbol), marks(f.symbol);
    var dropped, at := Dropped(h, Delta(f), eps), BookedAt(h, Delta(f), f.price);
    EquityIsCashPlusValue(st, marks);
    EquityIsCashPlusValue(Apply(st, f, eps), marks);
    BookStep(st, f, eps);
    StoredValue(st.holdings, f.symbol, Settled(h, Delta(f), f.price, f.fee, eps), marks, eps);
    KeptValueAfter(h, Delta(f), f.price, f.fee, mark, eps);
    WorthZero(mark);
    WorthGap(Delta(f), f.price, mark);
    WorthGap(dropped, at, mark);
    DeltaIsWorth(f);
  }

  lemma DeltaIsWorth(f: Fill)
    requires Accepted(f)
    ensures CashOf(f) == -Worth(Delta(f), f.price) - f.fee
  {
  }

  // ---------- trading against fixed quotes ----------

  /** The mark of every quoted symbol lies between its best bid and its best ask. */
  ghost predicate MarksInside(m: Quotes, marks: string -> real) {
    forall symbol ::
      && (BestAsk(m, symbol).Some? ==> marks(symbol) <= BestAsk(m, symbol).value)
      && (BestBid(m, symbol).Some? ==> BestBid(m, symbol).value <= marks(symbol))
  }

  function FillFrom(r: Request, e: Handling): Fill
    requires e.Fills?
  {
    Fill(r.symbol, r.side, r.amount, e.price, e.fee)
  }

  /** The ledger after a request: only a fill changes it, and only one the ledger accepts. */
  function Traded(st: LedgerState, m: Quotes, c: Costs, r: Request, eps: real): LedgerState
    requires eps >= 0.0
  {
    var e := HandlingOf(m, c, r);
    if e.Fills? then Apply(st, FillFrom(r, e), eps) else st
  }

  lemma QuotedBests(m: Quotes, symbol: string)
    ensures BestAsk(m, symbol).Some? ==> BestAsk(m, symbol).value > 0.0
    ensures BestBid(m, symbol).Some? ==> BestBid(m, symbol).value > 0.0
  {
  }

  /** Every fill price is on the wrong side of the mark. */
  lemma FillsCost(m: Quotes, c: Costs, r: Request, marks: string -> real)
    requires ValidCosts(c) && MarksInside(m, marks) && HandlingOf(m, c, r).Fills?
    requires Accepted(FillFrom(r, HandlingOf(m, c, r)))
    ensures TradingCost(FillFrom(r, HandlingOf(m, c, r)), marks(r.symbol)) >= 0.0
  {
    hide Worth, Slipped, BestBid, BestAsk, Fee;
    var e := HandlingOf(m, c, r);
    var f := FillFrom(r, e);
    FeeIsNotNegative(c, r.amount, e.price);
    QuotedBests(m, r.symbol);
    var quote := if r.side == Some(Buy) then BestAsk(m, r.symbol) else BestBid(m, r.symbol);
    SlippageHurts(r.side.value, quote.value, c);
    var gap := e.price - marks(r.symbol);
    WorthMonoPrice(r.amount, 0.0, Abs(gap));
    WorthZero(r.amount);
    WorthSum(r.amount, 0.0, gap);
    WorthGap(r.amount, 0.0, gap);
  }

  /** An order filled by the simulated exchange leaves the total profit, marked anywhere between bid
      and ask, no higher than before, unless it drops dust booked above (or, short, below) the mark. */
  lemma NoFreeMoney(st: LedgerState, m: Quotes, c: Costs, r: Request, marks: string -> real, eps: real)
    requires eps >= 0.0 && WellFormed(st, eps) && ValidCosts(c) && MarksInside(m, marks)
    ensures var e := HandlingOf(m, c, r);
            if !e.Fills? || !Accepted(FillFrom(r, e)) then Traded(st, m, c, r, eps) == st
            else
              var f := FillFrom(r, e);
              var h := Before(st, r.symbol);
              var dust := Worth(Dropped(h, Delta(f), eps), BookedAt(h, Delta(f), f.price) - marks(r.symbol));
              && Equity(Traded(st, m, c, r, eps), marks) <= Equity(st, marks) + dust
              && (Equity(Traded(st, m, c, r, eps), marks) <= Equity(st, marks)
                  <==> dust <= TradingCost(f, marks(r.symbol)))
              && (Dropped(h, Delta(f), eps) == 0.0 ==>
                  Equity(Traded(st, m, c, r, eps), marks) <= Equity(st, marks))
  {
    hide Worth, Apply, Equity, TradingCost, HandlingOf, MarksInside, Dropped, BookedAt;
    var e := HandlingOf(m, c, r);
    if e.Fills? && Accepted(FillFrom(r, e)) {
      var f := FillFrom(r, e);
      var h := Before(st, r.symbol);
      EquityStep(st, f, marks, eps);
      FillsCost(m, c, r, marks);
      WorthZero(BookedAt(h, Delta(f), f.price) - marks(r.symbol));
    } else if e.Fills? {
      RejectedIsIgnored(st, FillFrom(r, e), eps);
    }
  }

  lemma RejectedIsIgnored(st: LedgerState, f: Fill, eps: real)
    requires eps >= 0.0 && !Accepted(f)
    ensures Apply(st, f, eps) == st
  {
  }

  /** What a fill costs to the cent: its distance from the mark and the fee rate on its notional leave the
      total profit, and the booked value of dropped dust comes back. */
  lemma FillCostsExactly(st: LedgerState, m: Quotes, c: Costs, r: Request, marks: string -> real, eps: real)
    requires eps >= 0.0 && WellFormed(st, eps) && HandlingOf(m, c, r).Fills?
    requires Accepted(FillFrom(r, HandlingOf(m, c, r)))
    ensures var price := HandlingOf(m, c, r).price;
            var h, mark := Before(st, r.symbol), marks(r.symbol);
            var delta := if r.side == Some(Buy) then r.amount else -r.amount;
            Equity(Traded(st, m, c, r, eps), marks)
              == Equity(st, marks) - Worth(delta, price - mark) - Worth(Worth(r.amount, price), c.feeRate)
                 + Worth(Dropped(h, delta, eps), BookedAt(h, delta, price) - mark)
  {
    hide Worth, Equity, HandlingOf, Apply, Dropped, BookedAt;
    OrdersMeetQuotes(m, c, r);
    EquityStep(st, FillFrom(r, HandlingOf(m, c, r)), marks, eps);
  }

  // ---------- any sequence of orders against a fixed book ----------

  function TradedAll(st: LedgerState, m: Quotes, c: Costs, requests: seq<Request>, eps: real): LedgerState
    requires eps >= 0.0
  {
    if requests == [] then st
    else Traded(TradedAll(st, m, c, requests[..|requests| - 1], eps), m, c, requests[|requests| - 1], eps)
  }

  /** Marks and fill prices all lie in [0, bound]. */
  ghost predicate PricesWithin(m: Quotes, c: Costs, requests: seq<Request>, marks: string -> real, bound: real) {
    && bound >= 0.0
    && (forall symbol :: 0.0 <= marks(symbol) <= bound)
    && (forall r | r in requests :: HandlingOf(m, c, r).Fills? ==> HandlingOf(m, c, r).price <= bound)
  }

  lemma {:induction false} EntriesWithin(
    m: Quotes, c: Costs, requests: seq<Request>, marks: string -> real, bound: real, eps: real)
    requires eps >= 0.0 && PricesWithin(m, c, requests, marks, bound)
    ensures var st := TradedAll(EMPTY, m, c, requests, eps);
            WellFormed(st, eps) && EntriesAtMost(st, bound)
  {
    hide HandlingOf, Settled, PnlOn, MarksInside;
    if requests != [] {
      var earlier, r := requests[..|requests| - 1], requests[|requests| - 1];
      EntriesWithin(m, c, earlier, marks, bound, eps);
      var st, e := TradedAll(EMPTY, m, c, earlier, eps), HandlingOf(m, c, r);
      if e.Fills? {
        var f := FillFrom(r, e);
        ApplyKeepsWellFormed(st, f, eps);
        if Accepted(f) {
          SettledIsSound(Before(st, f.symbol), Delta(f), f.price, f.fee, eps);
        }
      }
    }
  }

  lemma DustGain(h: Holding, delta: real, price: real, mark: real, bound: real, eps: real)
    requires eps >= 0.0 && Startable(h, eps) && 0.0 < price <= bound && h.averageEntry <= bound && 0.0 <= mark <= bound
    ensures Worth(Dropped(h, delta, eps), BookedAt(h, delta, price) - mark) <= Worth(eps, bound)
  {
    var dropped, gap := Dropped(h, delta, eps), BookedAt(h, delta, price) - mark;
    AbsScale(dropped, gap);
    BoundedProduct(Abs(dropped), Abs(gap), eps, bound);
  }

  /** One order gains at most one EPSILON at the highest price. */
  lemma OrderGain(
    st: LedgerState, m: Quotes, c: Costs, r: Request, marks: string -> real, bound: real, eps: real)
    requires eps >= 0.0 && ValidCosts(c) && MarksInside(m, marks) && WellFormed(st, eps) && EntriesAtMost(st, bound)
    requires bound >= 0.0 && 0.0 <= marks(r.symbol) <= bound
    requires HandlingOf(m, c, r).Fills? ==> HandlingOf(m, c, r).price <= bound
    ensures Equity(Traded(st, m, c, r, eps), marks) <= Equity(st, marks) + Worth(eps, bound)
  {
    hide HandlingOf, Apply, Worth, TradingCost, MarksInside, Dropped, BookedAt, Equity;
    var e := HandlingOf(m, c, r);
    NoFreeMoney(st, m, c, r, marks, eps);
    if e.Fills? && Accepted(FillFrom(r, e)) {
      var f := FillFrom(r, e);
      DustGain(Before(st, r.symbol), Delta(f), f.price, marks(r.symbol), bound, eps);
    } else {
      WorthMono(0.0, eps, bound);
      WorthZero(bound);
    }
  }

  /** From flat, any sequence of orders against a fixed book ends with a total profit of at most one
      EPSILON at the highest price per order. */
  lemma {:induction false} NoFreeMoneyEver(
    m: Quotes, c: Costs, requests: seq<Request>, marks: string -> real, bound: real, eps: real)
    requires eps >= 0.0 && ValidCosts(c) && MarksInside(m, marks)
    requires PricesWithin(m, c, requests, marks, bound)
    ensures Equity(TradedAll(EMPTY, m, c, requests, eps), marks) <= |requests| as real * Worth(eps, bound)
  {
    hide HandlingOf, Worth, MarksInside, Traded, Gains, Equity;
    if requests == [] {
      FlatIsWorthless(marks);
      assert 0.0 * Worth(eps, bound) == 0.0;
    } else {
      var earlier, r := requests[..|requests| - 1], requests[|requests| - 1];
      NoFreeMoneyEver(m, c, earlier, marks, bound, eps);
      EntriesWithin(m, c, earlier, marks, bound, eps);
      OrderGain(TradedAll(EMPTY, m, c, earlier, eps), m, c, r, marks, bound, eps);
      OneMore(|earlier|, Worth(eps, bound));
    }
  }

  predicate Trades(m: Quotes, c: Costs, r: Request) {
    HandlingOf(m, c, r).Fills? && Accepted(FillFrom(r, HandlingOf(m, c, r)))
  }

  /** Price times amount over all orders that traded. */
  function TradedNotional(m: Quotes, c: Costs, requests: seq<Request>): real {
    if requests == [] then 0.0
    else
      var r := requests[|requests| - 1];
      TradedNotional(m, c, requests[..|requests| - 1])
        + (if Trades(m, c, r) then Worth(r.amount, HandlingOf(m, c, r).price) else 0.0)
  }

  /** How far all those prices were from the marks, against the orders. */
  function TradedDistance(m: Quotes, c: Costs, requests: seq<Request>, marks: string -> real): real {
    if requests == [] then 0.0
    else
      var r := requests[|requests| - 1];
      TradedDistance(m, c, requests[..|requests| - 1], marks)
        + (if !Trades(m, c, r) then 0.0
           else Worth(if r.side == Some(Buy) then r.amount else -r.amount, HandlingOf(m, c, r).price - marks(r.symbol)))
  }

  /** What the dust dropped on the way was booked at above its mark. */
  function TradedDust(m: Quotes, c: Costs, requests: seq<Request>, marks: string -> real, eps: real): real
    requires eps >= 0.0
  {
    if requests == [] then 0.0
    else
      var earlier, r := requests[..|requests| - 1], requests[|requests| - 1];
      var h := Before(TradedAll(EMPTY, m, c, earlier, eps), r.symbol);
      var delta := if r.side == Some(Buy) then r.amount else -r.amount;
      TradedDust(m, c, earlier, marks, eps)
        + (if !Trades(m, c, r) then 0.0
           else Worth(Dropped(h, delta, eps), BookedAt(h, delta, HandlingOf(m, c, r).price) - marks(r.symbol)))
  }

  lemma {:induction false} TradingKeepsSound(m: Quotes, c: Costs, requests: seq<Request>, eps: real)
    requires eps >= 0.0
    ensures WellFormed(TradedAll(EMPTY, m, c, requests, eps), eps)
  {
    hide HandlingOf, Apply;
    if requests != [] {
      var earlier, r := requests[..|requests| - 1], requests[|requests| - 1];
      TradingKeepsSound(m, c, earlier, eps);
      if HandlingOf(m, c, r).Fills? {
        ApplyKeepsWellFormed(TradedAll(EMPTY, m, c, earlier, eps), FillFrom(r, HandlingOf(m, c, r)), eps);
      }
    }
  }

  /** From flat, over any sequence of orders: the total profit is minus the distance traded from the marks,
      minus the fee rate on the traded notional, plus the dust. */
  lemma {:induction false} RunCostsExactly(
    m: Quotes, c: Costs, requests: seq<Request>, marks: string -> real, eps: real)
    requires eps >= 0.0
    ensures Equity(TradedAll(EMPTY, m, c, requests, eps), marks)
         == -TradedDistance(m, c, requests, marks) - Worth(TradedNotional(m, c, requests), c.feeRate)
            + TradedDust(m, c, requests, marks, eps)
  {
    hide HandlingOf, Worth, Traded, Gains, Equity, Dropped, BookedAt;
    if requests == [] {
      FlatIsWorthless(marks);
      WorthZero(c.feeRate);
    } else {
      var earlier, r := requests[..|requests| - 1], requests[|requests| - 1];
      RunCostsExactly(m, c, earlier, marks, eps);
      TradingKeepsSound(m, c, earlier, eps);
      var st := TradedAll(EMPTY, m, c, earlier, eps);
      if Trades(m, c, r) {
        FillCostsExactly(st, m, c, r, marks, eps);
        WorthSum(TradedNotional(m, c, earlier), Worth(r.amount, HandlingOf(m, c, r).price), c.feeRate);
      } else {
        NotTraded(st, m, c, r, eps);
      }
    }
  }

  lemma NotTraded(st: LedgerState, m: Quotes, c: Costs, r: Request, eps: real)
    requires eps >= 0.0 && !Trades(m, c, r)
    ensures Traded(st, m, c, r, eps) == st
  {
    hide HandlingOf;
  }

  lemma FlatIsWorthless(marks: string -> real)
    ensures Equity(EMPTY, marks) == 0.0
  {
    assert Gains(map[], marks) == map[];
  }

  // ---------- the strategy's limit orders ----------

  function RequestOf(c: Strategy.Config, s: Strategy.Signal): Request {
    Request(s.symbol, Some(c.orderType), Some(s.side), s.quantity, s.price)
  }

  /** The book the strategy saw is the one the exchange quotes, and its bid is below its ask. */
  predicate SeesQuotes(m: Quotes, b: Strategy.BookView) {
    BestBid(m, b.symbol) == Some(b.bestBid) && BestAsk(m, b.symbol) == Some(b.bestAsk) && b.bestBid < b.bestAsk
  }

  /** On the quotes they were made for, the strategy's limit orders, entries and exits, rest: they never
      cross the spread. Its market orders fill at once, at the slipped quote of the other side. */
  lemma LimitOrdersRest(
    c: Strategy.Config, st: Strategy.State, b: Strategy.BookView, r: Strategy.Readings, active: bool,
    held: Option<Strategy.Held>, m: Quotes, costs: Costs)
    requires Strategy.ValidConfig(c) && ValidCosts(costs) && SeesQuotes(m, b)
    requires Strategy.OrderbookStep(c, st, active, b, r, held).1.Some?
    ensures var s := Strategy.OrderbookStep(c, st, active, b, r, held).1.value;
            var e := HandlingOf(m, costs, RequestOf(c, s));
            && s.symbol == b.symbol && s.quantity > 0.0
            && (c.orderType == Limit ==> e == Rests)
            && (c.orderType == Market ==>
                e.Fills? && (if s.side == Buy then e.price >= b.bestAsk else e.price <= b.bestBid))
  {
    hide BestBid, BestAsk, Slipped, Fee;
    var s := Strategy.OrderbookStep(c, st, active, b, r, held).1.value;
    SignalPrice(c, st, active, b, r, held);
    QuotedBests(m, b.symbol);
    SlippageHurts(s.side, if s.side == Buy then b.bestAsk else b.bestBid, costs);
  }

  lemma SignalPrice(
    c: Strategy.Config, st: Strategy.State, active: bool, b: Strategy.BookView, r: Strategy.Readings,
    held: Option<Strategy.Held>)
    requires Strategy.OrderbookStep(c, st, active, b, r, held).1.Some?
    ensures var s := Strategy.OrderbookStep(c, st, active, b, r, held).1.value;
            s.symbol == b.symbol && s.quantity > 0.0 && s.price == Strategy.OrderPrice(c, s.side, b)
  {
    hide Strategy.TickStep, Strategy.OrderPrice, Strategy.BtcAllows, Strategy.RecentReturnBps, Strategy.Blocked,
         Strategy.BlockChecked, Strategy.BlockFor, Strategy.OnCooldown, Strategy.ExitReason, Strategy.PnlBps,
         Strategy.Pushed, Strategy.Confirmed, Strategy.ExpectedEdgeBps, Strategy.EntryQuantity, Strategy.BlockAfter,
         Strategy.JudgedAt;
  }
}
