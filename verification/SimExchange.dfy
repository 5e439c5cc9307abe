/** backtesting/simulated_exchange.py with its slippage and fee models. */
module SimExchange {
  import opened Common

  datatype Tick = Tick(bid: real, ask: real)

  datatype Level = Level(price: real, quantity: real)

  datatype Book = Book(bids: seq<Level>, asks: seq<Level>)

  datatype Quotes = Quotes(ticks: map<string, Tick>, books: map<string, Book>)

  datatype Costs = Costs(slippageBps: real, feeRate: real)

  /** What the slippage and fee constructors insist on. */
  predicate ValidCosts(c: Costs) {
    c.slippageBps >= 0.0 && c.feeRate >= 0.0
  }

  function TopPrice(levels: seq<Level>): real {
    if levels == [] then 0.0 else levels[0].price
  }

  /** The book's best price when it is positive, else the tick's; None where the source raises. */
  function BestBid(m: Quotes, symbol: string): Option<real> {
    if symbol in m.books && TopPrice(m.books[symbol].bids) > 0.0 then Some(TopPrice(m.books[symbol].bids))
    else if symbol in m.ticks && m.ticks[symbol].bid > 0.0 then Some(m.ticks[symbol].bid)
    else None
  }

  function BestAsk(m: Quotes, symbol: string): Option<real> {
    if symbol in m.books && TopPrice(m.books[symbol].asks) > 0.0 then Some(TopPrice(m.books[symbol].asks))
    else if symbol in m.ticks && m.ticks[symbol].ask > 0.0 then Some(m.ticks[symbol].ask)
    else None
  }

  function Slipped(side: Side, reference: real, c: Costs): real {
    if side == Buy then Worth(reference, 1.0 + c.slippageBps / 10000.0)
    else Worth(reference, 1.0 - c.slippageBps / 10000.0)
  }

  /** Slippage only ever moves a price against the order. */
  lemma SlippageHurts(side: Side, reference: real, c: Costs)
    requires ValidCosts(c) && reference > 0.0
    ensures if side == Buy then Slipped(side, reference, c) >= reference else Slipped(side, reference, c) <= reference
  {
    WorthMonoPrice(reference, 1.0, 1.0 + c.slippageBps / 10000.0);
    WorthMonoPrice(reference, 1.0 - c.slippageBps / 10000.0, 1.0);
    assert Worth(reference, 1.0) == reference;
  }

  function Fee(c: Costs, quantity: real, price: real): real {
    if quantity <= 0.0 || price <= 0.0 then 0.0 else Worth(Worth(quantity, price), c.feeRate)
  }

  lemma FeeIsNotNegative(c: Costs, quantity: real, price: real)
    requires ValidCosts(c)
    ensures Fee(c, quantity, price) >= 0.0
  {
    if quantity > 0.0 && price > 0.0 {
      WorthSign(quantity, price);
      WorthMonoPrice(Worth(quantity, price), 0.0, c.feeRate);
      WorthZero(Worth(quantity, price));
    }
  }

  /** A request as text fields and numbers; None stands for a side or type text that is not known. */
  datatype Request = Request(
    symbol: string, orderType: Option<OrderType>, side: Option<Side>, amount: real, price: Option<real>)

  /** The answer to a request: it raises, rests unfilled, or fills completely. */
  datatype Handling = Raises | Rests | Fills(price: real, fee: real)

  function FillPrice(m: Quotes, c: Costs, symbol: string, orderType: OrderType, side: Side, limit: Option<real>)
    : Result<Option<real>, ()>
  {
    var quote := if side == Buy then BestAsk(m, symbol) else BestBid(m, symbol);
    if orderType == Market then
      if quote.None? then Err(()) else Ok(Some(Slipped(side, quote.value, c)))
    else if limit.None? || limit.value <= 0.0 || quote.None? then Err(())
    else if side == Buy then
      Ok(if limit.value >= quote.value then Some(quote.value) else None)
    else
      Ok(if limit.value <= quote.value then Some(quote.value) else None)
  }

  function HandlingOf(m: Quotes, c: Costs, r: Request): Handling {
    if r.amount <= 0.0 || r.side.None? || r.orderType.None? then Raises
    else
      match FillPrice(m, c, r.symbol, r.orderType.value, r.side.value, r.price)
      case Err(_) => Raises
      case Ok(None) => Rests
      case Ok(Some(price)) => Fills(price, Fee(c, r.amount, price))
  }

  datatype SimOrder = SimOrder(request: Request, handling: Handling)

  class SimulatedExchange {
    const costs: Costs
    var ticks: map<string, Tick>
    var books: map<string, Book>
    var orders: map<nat, SimOrder>
    var nextId: nat

    /** Order ids are handed out in sequence. */
    ghost predicate Valid()
      reads this
    {
      ValidCosts(costs) && nextId >= 1 && forall id :: id in orders <==> 1 <= id < nextId
    }

    function Current(): Quotes
      reads this
    {
      Quotes(ticks, books)
    }

    constructor (costs: Costs)
      requires ValidCosts(costs)
      ensures Valid() && orders == map[] && this.costs == costs
    {
      this.costs := costs;
      ticks, books, orders, nextId := map[], map[], map[], 1;
    }

    method UpdateTick(symbol: string, tick: Tick)
      requires Valid()
      modifies this`ticks
      ensures Valid() && ticks == old(ticks)[symbol := tick]
    {
      ticks := ticks[symbol := tick];
    }

    method UpdateOrderbook(symbol: string, book: Book)
      requires Valid()
      modifies this`books
      ensures Valid() && books == old(books)[symbol := book]
    {
      books := books[symbol := book];
    }

    /** None where the source raises. */
    method DetermineFillPrice(symbol: string, orderType: OrderType, side: Side, limit: Option<real>)
      returns (price: Result<Option<real>, ()>)
      ensures price == FillPrice(Current(), costs, symbol, orderType, side, limit)
    {
      if orderType == Market {
        var reference := if side == Buy then BestAsk(Current(), symbol) else BestBid(Current(), symbol);
        if reference.None? { return Err(()); }
        return Ok(Some(Slipped(side, reference.value, costs)));
      }
      if limit.None? || limit.value <= 0.0 { return Err(()); }
      if side == Buy {
        var ask := BestAsk(Current(), symbol);
        if ask.None? { return Err(()); }
        if limit.value >= ask.value {
          return Ok(Some(Min(limit.value, ask.value)));
        }
        return Ok(None);
      }
      var bid := BestBid(Current(), symbol);
      if bid.None? { return Err(()); }
      if limit.value <= bid.value {
        return Ok(Some(Max(limit.value, bid.value)));
      }
      return Ok(None);
    }

    /** A raising request stores nothing; any other gets the next unused id. */
    method CreateOrder(r: Request) returns (e: Handling)
      requires Valid()
      modifies this`orders, this`nextId
      ensures Valid() && e == HandlingOf(Current(), costs, r)
      ensures e.Raises? ==> orders == old(orders) && nextId == old(nextId)
      ensures !e.Raises? ==> old(nextId) !in old(orders) && orders == old(orders)[old(nextId) := SimOrder(r, e)]
    {
      if r.amount <= 0.0 || r.side.None? || r.orderType.None? { return Raises; }
      var price := DetermineFillPrice(r.symbol, r.orderType.value, r.side.value, r.price);
      match price {
        case Err(_) => return Raises;
        case Ok(None) => e := Rests;
        case Ok(Some(p)) => e := Fills(p, Fee(costs, r.amount, p));
      }
      orders := orders[nextId := SimOrder(r, e)];
      nextId := nextId + 1;
    }
  }

  // ---------- what an order meets ----------

  /** The best price of the other side: the book's when it is positive, else the tick's. */
  function OtherSide(m: Quotes, symbol: string, side: Side): Option<real> {
    var levels := if symbol !in m.books then []
                  else match side case Buy => m.books[symbol].asks case Sell => m.books[symbol].bids;
    var quote := if symbol !in m.ticks then 0.0
                 else match side case Buy => m.ticks[symbol].ask case Sell => m.ticks[symbol].bid;
    if |levels| > 0 && levels[0].price > 0.0 then Some(levels[0].price)
    else if quote > 0.0 then Some(quote)
    else None
  }

  predicate Known(r: Request) {
    r.amount > 0.0 && r.side.Some? && r.orderType.Some?
  }

  predicate Crosses(side: Side, limit: real, quote: real) {
    match side
    case Buy => quote <= limit
    case Sell => limit <= quote
  }

  /** A market order fills whenever the other side is quoted, at the quote moved against it by the slippage; a
      limit order with a positive price fills at the quote if and only if it crosses it, and rests otherwise;
      everything else raises. Every fill at a positive price pays the fee rate on its notional. */
  lemma OrdersMeetQuotes(m: Quotes, c: Costs, r: Request)
    ensures var e := HandlingOf(m, c, r);
            && (e.Raises? <==>
                || !Known(r) || OtherSide(m, r.symbol, r.side.value).None?
                || (r.orderType.value == Limit && (r.price.None? || r.price.value <= 0.0)))
            && (!e.Raises? ==>
                var quote := OtherSide(m, r.symbol, r.side.value).value;
                && (e.Rests? <==> r.orderType.value == Limit && !Crosses(r.side.value, r.price.value, quote))
                && (e.Fills? && r.orderType.value == Limit ==> e.price == quote)
                && (e.Fills? && r.orderType.value == Market ==>
                    e.price == (if r.side.value == Buy then quote + quote * c.slippageBps / 10000.0
                                else quote - quote * c.slippageBps / 10000.0)))
            && (e.Fills? && e.price > 0.0 ==> e.fee == Worth(Worth(r.amount, e.price), c.feeRate))
  {
  }
}
