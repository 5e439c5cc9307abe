/** What happens to one order, told in the terms of its caller: what reaches the exchange, what is booked
    and marked, what is reported, and the status it ends with. */
module OrderLaws {
  import opened Common
  import opened Ledger
  import opened LedgerLaws
  import opened Exposure
  import opened PreTradeRisk
  import opened Execution
  import opened ExecutionLaws

  // ---------- what reaches the exchange ----------

  /** A fresh, complete order with a route and working precision rules. */
  predicate ReachesRiskCheck(o: OrderState, env: Surroundings) {
    && o.status == Created && o.symbol != "" && o.quantity > 0.0
    && (o.orderType == Limit ==> o.price.Some?)
    && env.reference.Some? && env.reference.value > 0.0
    && !env.amountRule.RoundingRaises? && (o.price.Some? ==> !env.priceRule.RoundingRaises?)
  }

  function QuantityOf(o: OrderState, env: Surroundings): real {
    match env.amountRule
    case To(value) => value
    case _ => o.quantity
  }

  function LimitOf(o: OrderState, env: Surroundings): Option<real> {
    match (o.price, env.priceRule)
    case (Some(_), To(value)) => Some(value)
    case _ => o.price
  }

  /** The exchange is called exactly for an order that reaches the risk check and passes it, judged with the
      exchange's own minimum, and with the order's own symbol, side and type and the rounded figures. */
  lemma SentIff(o: OrderState, st: LedgerState, marks: map<string, real>, env: Surroundings, c: Settings)
    requires ValidSettings(c)
    ensures var r := SubmitOf(o, st, marks, env, c);
            && (r.sent.Some? <==>
                && ReachesRiskCheck(o, env)
                && Allowed(Terms(o.symbol, o.side, QuantityOf(o, env)), env.reference.value, st.holdings, marks,
                           env.minNotional, c.bounds, c.limits))
            && (r.sent.Some? ==>
                && r.sent.value.symbol == o.symbol && r.sent.value.side == o.side
                && r.sent.value.orderType == o.orderType
                && r.sent.value.quantity == QuantityOf(o, env) && r.sent.value.price == LimitOf(o, env))
  {
    hide Allowed, ExchangeOf;
    SubmitEffects(o, st, marks, env, c);
    if ReachesRiskCheck(o, env) {
      SameMinimum(Terms(o.symbol, o.side, QuantityOf(o, env)), env, st.holdings, marks, c);
    }
  }

  /** An exchange minimum that is not positive is as good as none. */
  lemma SameMinimum(
    t: Terms, env: Surroundings, positions: map<string, Holding>, marks: map<string, real>, c: Settings)
    requires ValidSettings(c) && env.reference.Some?
    ensures Allowed(t, env.reference.value, positions, marks, env.minNotional, c.bounds, c.limits)
         == Allowed(t, env.reference.value, positions, marks, ExchangeMinimum(env), c.bounds, c.limits)
  {
    hide Allowed, ProjectedGross, ProjectedNet, ProjectedWeight, Worth;
    AllowedMeans(t, env.reference.value, positions, marks, env.minNotional, c.bounds, c.limits);
    AllowedMeans(t, env.reference.value, positions, marks, ExchangeMinimum(env), c.bounds, c.limits);
  }

  /** An order sent is worth, at the reference price, at least the exchange's and the configured minimum and
      at most the configured maximum. */
  lemma SentNotional(o: OrderState, st: LedgerState, marks: map<string, real>, env: Surroundings, c: Settings)
    requires ValidSettings(c) && SubmitOf(o, st, marks, env, c).sent.Some?
    ensures var notional := Worth(SubmitOf(o, st, marks, env, c).sent.value.quantity, env.reference.value);
            && (env.minNotional.Some? && env.minNotional.value > 0.0 ==> notional >= env.minNotional.value)
            && c.bounds.minOrder <= notional <= c.bounds.maxOrder
            && notional > 0.0
  {
    hide Allowed, SubmitOf, Worth, ProjectedGross, ProjectedNet, ProjectedWeight;
    SentIff(o, st, marks, env, c);
    AllowedMeans(Terms(o.symbol, o.side, QuantityOf(o, env)), env.reference.value, st.holdings, marks,
                 env.minNotional, c.bounds, c.limits);
    WorthSign(QuantityOf(o, env), env.reference.value);
  }

  // ---------- how the order ends ----------

  /** What an accepted answer makes of an order: a complete fill is FILLED whatever the text says, a final
      text decides otherwise, and an order still open is partially filled or submitted. */
  function StatusAfter(quantity: real, r: Response): OrderStatus {
    if r.filled >= quantity then Filled
    else match r.statusText
      case "closed" => Filled
      case "filled" => Filled
      case "done" => Filled
      case "cancelled" => Cancelled
      case "canceled" => Cancelled
      case "rejected" => Rejected
      case "failed" => Failed
      case "partial" => PartiallyFilled
      case "partially_filled" => PartiallyFilled
      case "partiallyfilled" => PartiallyFilled
      case _ => if r.filled > 0.0 then PartiallyFilled else Submitted
  }

  /** A fresh, complete order with a route, whose quantity can be rounded. */
  predicate ReachesRounding(o: OrderState, env: Surroundings) {
    && o.status == Created && o.symbol != "" && o.quantity > 0.0
    && (o.orderType == Limit ==> o.price.Some?)
    && env.reference.Some? && env.reference.value > 0.0 && !env.amountRule.RoundingRaises?
  }

  /** Every order ends accepted with the status of its answer, refused as REJECTED, or FAILED with an error. It
      keeps its symbol, side and type; quantity and price are rounded as far as it got; and it takes over the
      fill figures of a recorded answer, unless that is just SUBMITTED. */
  lemma HowItEnds(o: OrderState, st: LedgerState, marks: map<string, real>, env: Surroundings, c: Settings)
    requires ValidSettings(c)
    ensures var r := SubmitOf(o, st, marks, env, c);
            && r.order.symbol == o.symbol && r.order.side == o.side && r.order.orderType == o.orderType
            && r.order.price == (if ReachesRiskCheck(o, env) then LimitOf(o, env) else o.price)
            && r.order.quantity == (if ReachesRounding(o, env) then QuantityOf(o, env) else o.quantity)
            && (r.accepted ==>
                && r.sent.Some? && env.answer.Some?
                && r.order.status == StatusAfter(QuantityOf(o, env), env.answer.value))
            && (if r.sent.Some? && env.answer.Some? && env.reportRecorded
                   && StatusAfter(QuantityOf(o, env), env.answer.value) != Submitted
                then r.order.filledQuantity == env.answer.value.filled
                     && r.order.averageFillPrice == env.answer.value.average
                else r.order.filledQuantity == o.filledQuantity && r.order.averageFillPrice == o.averageFillPrice)
            && (!r.accepted && !r.error <==> ReachesRiskCheck(o, env) && r.sent.None?)
            && (!r.accepted && !r.error ==> r.order.status == Rejected)
            && (r.error ==> r.order.status == Failed && !r.accepted)
  {
    hide Allowed, ExchangeOf, StatusAfter;
    SentIff(o, st, marks, env, c);
    if VerdictOf(o, st, marks, env, c) == Cleared {
      AllowedQuantity(Rounded(o, env), st, marks, env, c);
      HowItIsAnswered(Rounded(o, env).(status := Routed), st, marks, env, c);
    }
  }

  lemma HowItIsAnswered(o: OrderState, st: LedgerState, marks: map<string, real>, env: Surroundings, c: Settings)
    requires ValidSettings(c) && o.quantity > 0.0
    ensures var r := ExchangeOf(o, st, marks, env, c);
            && r.sent.Some? && r.order.symbol == o.symbol && r.order.side == o.side
            && r.order.orderType == o.orderType && r.order.price == o.price && r.order.quantity == o.quantity
            && (r.accepted ==> env.answer.Some? && r.order.status == StatusAfter(o.quantity, env.answer.value))
            && (if env.answer.Some? && env.reportRecorded && StatusAfter(o.quantity, env.answer.value) != Submitted
                then r.order.filledQuantity == env.answer.value.filled
                     && r.order.averageFillPrice == env.answer.value.average
                else r.order.filledQuantity == o.filledQuantity && r.order.averageFillPrice == o.averageFillPrice)
            && r.error == !r.accepted && (r.error ==> r.order.status == Failed)
  {
    hide ProcessOf, ReportOf, StatusAfter;
    if env.answer.Some? {
      StatusIsMapped(o, env.answer.value);
    }
  }

  lemma StatusIsMapped(o: OrderState, r: Response)
    requires o.quantity > 0.0
    ensures ReportOf(o, r).status == StatusAfter(o.quantity, r)
    ensures var report := ReportOf(o, r);
            && report.symbol == o.symbol && report.side == o.side && report.requested == o.quantity
            && report.filled == r.filled && report.average == r.average && report.fee == r.fee
  {
  }

  // ---------- what is booked, marked and reported ----------

  /** The ledger a fill leaves, figure by figure; only the stored unrealised profits are fresh. */
  predicate BookedAndMarked(before: LedgerState, after: LedgerState, f: Fill, prices: map<string, real>, eps: real)
    requires eps >= 0.0
  {
    var booked := Apply(before, f, eps);
    && after.trades == booked.trades && after.realizedTotal == booked.realizedTotal
    && after.holdings.Keys == booked.holdings.Keys
    && forall symbol | symbol in booked.holdings ::
         var h, marked := booked.holdings[symbol], after.holdings[symbol];
         && marked.quantity == h.quantity && marked.averageEntry == h.averageEntry
         && marked.realizedPnl == h.realizedPnl
         && (symbol in prices && prices[symbol] > 0.0 ==>
             marked.unrealizedPnl == Worth(h.quantity, prices[symbol] - h.averageEntry))
  }

  function FillOf(o: OrderState, a: Response): Fill {
    Fill(o.symbol, Some(o.side), a.filled, a.average, a.fee)
  }

  /** From one ledger to the next with the trade of a fill, marked or not. */
  predicate BooksOne(
    before: LedgerState, after: LedgerState, f: Fill, marked: bool, prices: map<string, real>, eps: real)
    requires eps >= 0.0
  {
    && |after.trades| == |before.trades| + 1 && after.trades[..|before.trades|] == before.trades
    && Mirrors(after.trades[|before.trades|], f)
    && (if marked then BookedAndMarked(before, after, f, prices, eps) else after == Apply(before, f, eps))
  }

  /** A submit that books a trade books one of the order's own symbol and side, at the answer's figures, and
      then marks every position, unless the trade could not be recorded; an accepted fill has done both. */
  lemma BooksItsOwnFill(o: OrderState, st: LedgerState, marks: map<string, real>, env: Surroundings, c: Settings)
    requires ValidSettings(c)
    ensures var r := SubmitOf(o, st, marks, env, c);
            && (|r.ledger.trades| > |st.trades| ==>
                && r.sent.Some? && env.answer.Some?
                && BooksOne(st, r.ledger, FillOf(o, env.answer.value), env.tradeRecorded, marks, c.eps))
            && (r.accepted && env.answer.value.filled > 0.0 ==> |r.ledger.trades| > |st.trades| && env.tradeRecorded)
  {
    hide RiskAllows, ExchangeOf, BooksOne;
    if VerdictOf(o, st, marks, env, c) == Cleared {
      ExchangeBooks(PreparedAs(o, env, Cleared), st, marks, env, c);
    }
  }

  lemma ExchangeBooks(o: OrderState, st: LedgerState, marks: map<string, real>, env: Surroundings, c: Settings)
    requires ValidSettings(c)
    ensures var r := ExchangeOf(o, st, marks, env, c);
            && r.sent.Some? && (r.accepted ==> env.answer.Some?)
            && (|r.ledger.trades| > |st.trades| ==>
                && env.answer.Some?
                && BooksOne(st, r.ledger, FillOf(o, env.answer.value), env.tradeRecorded, marks, c.eps))
            && (r.accepted && env.answer.value.filled > 0.0 ==> |r.ledger.trades| > |st.trades| && env.tradeRecorded)
  {
    hide Apply, MarkAll, BreachesOf, ExposureOf, Mapped, Worth, TradeOf;
    if env.answer.Some? {
      var f := FillOf(o, env.answer.value);
      assert f == FillIn(ReportOf(o, env.answer.value));
      ApplyAppends(st, f, c.eps);
      MarkingStores(Apply(st, f, c.eps).holdings, marks);
    }
  }

  lemma ApplyAppends(st: LedgerState, f: Fill, eps: real)
    requires eps >= 0.0
    ensures Accepted(f) ==>
      && Apply(st, f, eps).trades == st.trades + [TradeOf(st, f, eps)]
      && Mirrors(TradeOf(st, f, eps), f)
  {
    if Accepted(f) {
      TradeMirrors(st, f, eps);
    }
  }

  /** The report of an accepted order with a fill lists exactly the limits exceeded on the ledger it leaves;
      without a fill it lists nothing. */
  lemma ReportsWhatIsExceeded(o: OrderState, st: LedgerState, marks: map<string, real>, env: Surroundings, c: Settings)
    requires ValidSettings(c) && SubmitOf(o, st, marks, env, c).accepted
    ensures var r := SubmitOf(o, st, marks, env, c);
            && r.event.Some?
            && (env.answer.value.filled <= 0.0 ==> r.event.value == [])
            && (env.answer.value.filled > 0.0 ==>
                forall b :: b in r.event.value <==>
                  match b
                  case GrossLimit => Gross(r.ledger.holdings, marks) > c.limits.maxGross
                  case NetLimit => Abs(Net(r.ledger.holdings, marks)) > c.limits.maxNet
                  case SymbolWeightLimit(symbol) =>
                    symbol in r.ledger.holdings
                    && Share(Sizes(r.ledger.holdings, marks)[symbol], Gross(r.ledger.holdings, marks))
                       > c.limits.maxWeight)
  {
    hide Allowed, Apply, MarkAll, BreachesOf, Mapped, RoundedQuantity, Net, Gross, Notional, Share, RiskAllows;
    var r := SubmitOf(o, st, marks, env, c);
    RoundingIgnoresStatus(o, Routed, env);
    ReportedBreaches(ExposureOf(r.ledger.holdings, marks), c.limits);
  }

  // ---------- any number of submits ----------

  /** Over any number of submits of one order, every trade booked has the symbol and side of the one order
      sent, which are its own. */
  lemma {:induction false} TradesAreOfTheOrder(o: OrderState, st: LedgerState, attempts: seq<Attempt>, c: Settings)
    requires ValidSettings(c)
    ensures var h := SubmitAll(o, st, attempts, c);
            && st.trades <= h.ledger.trades
            && (forall s | s in h.sent :: s.symbol == o.symbol && s.side == o.side)
            && forall i | |st.trades| <= i < |h.ledger.trades| ::
                 h.sent != [] && h.ledger.trades[i].symbol == o.symbol && h.ledger.trades[i].side == o.side
    decreases |attempts|
  {
    hide SubmitOf;
    if attempts != [] {
      var env := attempts[0].env;
      var first := SubmitOf(o, st, attempts[0].marks, env, c);
      SentIff(o, st, attempts[0].marks, env, c);
      BooksItsOwnFill(o, st, attempts[0].marks, env, c);
      SubmitEffects(o, st, attempts[0].marks, env, c);
      HowItEnds(o, st, attempts[0].marks, env, c);
      StaleOrderDoesNothing(first.order, first.ledger, attempts[1..], c);
    }
  }

  // ---------- the state machine ----------

  /** From where each status may be entered. */
  function Sources(s: OrderStatus): set<OrderStatus> {
    match s
    case Created => {}
    case Validated => {Created}
    case Routed => {Validated}
    case Submitted => {Routed}
    case PartiallyFilled => {Submitted}
    case Filled => {Submitted, PartiallyFilled}
    case Cancelled => {Submitted, PartiallyFilled}
    case Failed => {Validated, Routed, Submitted}
    case Rejected => {Created, Validated, Routed}
  }

  lemma TransitionsAre(from: OrderStatus, to: OrderStatus)
    ensures to in Successors(from) <==> from in Sources(to)
    ensures from in {Filled, Cancelled, Failed, Rejected} ==> to !in Successors(from)
  {
  }
}
