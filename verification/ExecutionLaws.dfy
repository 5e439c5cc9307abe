/** What one order can do over any number of submits, and that an accepted order's report does
    not reach the kill switch. */
module ExecutionLaws {
  import opened Common
  import opened Ledger
  import opened LedgerLaws
  import opened Exposure
  import opened PreTradeRisk
  import opened RiskLaws
  import opened Execution

  // ---------- one submit ----------

  const FINAL: set<OrderStatus> := {Rejected, Submitted, PartiallyFilled, Filled, Cancelled, Failed}

  /** The exchange answered with a fill at a price the ledger can book, and the report was recorded. */
  predicate AnswersWithFill(env: Surroundings) {
    env.answer.Some? && env.reportRecorded && env.answer.value.filled > 0.0 && env.answer.value.average > 0.0
  }

  lemma MarkingKeepsTrades(st: LedgerState, r: Report, marks: map<string, real>, env: Surroundings, c: Settings)
    requires c.eps >= 0.0 && r.symbol != ""
    ensures ProcessOf(st, r, marks, env, c).ledger.trades ==
      st.trades + (if r.filled > 0.0 && r.average > 0.0 then [TradeOf(st, FillIn(r), c.eps)] else [])
  {
    hide Settled, GrossPnl, BreachesOf, ExposureOf;
  }

  /** One submit ends in a final status; it calls the exchange only for a fresh order the risk check
      allows; it books a trade exactly when the exchange was called and answered with a fill, even
      when the order ends as FAILED; and a refused order leaves the ledger as it was. */
  lemma SubmitEffects(o: OrderState, st: LedgerState, marks: map<string, real>, env: Surroundings, c: Settings)
    requires c.eps >= 0.0
    ensures var r := SubmitOf(o, st, marks, env, c);
            && r.order.status in FINAL
            && (r.sent.Some? <==>
                o.status == Created && Submittable(o) && Routable(env) && PrecisionHolds(o, env)
                && RiskAllows(Rounded(o, env), st, marks, env, c))
            && (r.sent.Some? ==> r.sent.value == Sending(Rounded(o, env)))
            && |r.ledger.trades| == |st.trades| + (if r.sent.Some? && AnswersWithFill(env) then 1 else 0)
            && (r.sent.None? || !AnswersWithFill(env) ==> r.ledger == st)
            && (r.accepted ==> r.sent.Some? && r.event.Some? && !r.error)
            && (r.error ==> r.order.status == Failed && r.event.None?)
  {
    hide RiskAllows, BreachesOf, ExposureOf, Settled, GrossPnl, RoundedQuantity;
    RoundingIgnoresStatus(o, Routed, env);
    if VerdictOf(o, st, marks, env, c) == Cleared && env.answer.Some? {
      var prepared := PreparedAs(o, env, Cleared);
      MarkingKeepsTrades(st, ReportOf(prepared, env.answer.value), marks, env, c);
    }
  }

  /** When an order ends FAILED although its trade is booked: the exchange answered with a fill, and
      then the trade, the state or the event could not be recorded, or the answer called a partial fill
      failed. In that last case the submit even counts as accepted. */
  lemma FailedWithTrade(o: OrderState, st: LedgerState, marks: map<string, real>, env: Surroundings, c: Settings)
    requires c.eps >= 0.0
    ensures var r := SubmitOf(o, st, marks, env, c);
            && (r.order.status == Failed && |r.ledger.trades| == |st.trades| + 1 <==>
                && r.sent.Some? && AnswersWithFill(env)
                && (|| !env.tradeRecorded || !env.stateSaved || !env.published
                    || FailedText(Rounded(o, env), env.answer.value)))
            && (r.accepted && r.order.status == Failed <==>
                && r.sent.Some? && env.answer.Some? && r.event.Some?
                && FailedText(Rounded(o, env), env.answer.value))
  {
    hide RiskAllows, BreachesOf, ExposureOf, Settled, GrossPnl, Mapped, MarkAll, TradeOf;
    RoundingIgnoresStatus(o, Routed, env);
    if VerdictOf(o, st, marks, env, c) == Cleared && env.answer.Some? {
      AllowedQuantity(Rounded(o, env), st, marks, env, c);
      var prepared := PreparedAs(o, env, Cleared);
      MarkingKeepsTrades(st, ReportOf(prepared, env.answer.value), marks, env, c);
    }
  }

  /** When a submit counts as accepted: the order was sent and answered, and nothing raised after that. */
  lemma AcceptedWhen(o: OrderState, st: LedgerState, marks: map<string, real>, env: Surroundings, c: Settings)
    requires c.eps >= 0.0
    ensures var r := SubmitOf(o, st, marks, env, c);
            r.accepted <==>
              && r.sent.Some? && env.answer.Some? && env.reportRecorded && env.published
              && (env.answer.value.filled > 0.0 ==> AnswersWithFill(env) && env.tradeRecorded && env.stateSaved)
  {
    hide RiskAllows, BreachesOf, ExposureOf, Apply, Mapped, MarkAll, RoundedQuantity;
    RoundingIgnoresStatus(o, Routed, env);
  }

  /** An answer called failed for less than the whole order. */
  predicate FailedText(o: OrderState, r: Response) {
    r.filled < o.quantity && Mapped(r.statusText) == Failed
  }

  lemma AllowedQuantity(o: OrderState, st: LedgerState, marks: map<string, real>, env: Surroundings, c: Settings)
    requires Routable(env) && RiskAllows(o, st, marks, env, c)
    ensures o.quantity > 0.0
  {
    hide Allowed;
    AllowedMeans(TermsOf(o), env.reference.value, st.holdings, marks, ExchangeMinimum(env), c.bounds, c.limits);
  }

  /** The first order of an empty ledger, one unit at a price of one, passes every limit of at least one. */
  lemma FirstOrderIsAllowed(order: OrderState, env: Surroundings, c: Settings)
    requires order.symbol == "X" && order.side == Buy && order.quantity == 1.0
    requires env.reference == Some(1.0) && env.minNotional.None?
    requires c.bounds.minOrder <= 1.0 <= c.bounds.maxOrder
    requires c.limits.maxGross >= 1.0 && c.limits.maxNet >= 1.0 && c.limits.maxWeight == 1.0
    ensures RiskAllows(order, EMPTY, map[], env, c)
  {
    var none: map<string, Holding> := map[];
    var marks: map<string, real> := map[];
    assert Notionals(none, marks) == map[] && Sizes(none, marks) == map[];
    assert Net(none, marks) == 0.0 && Gross(none, marks) == 0.0;
    AllowedMeans(TermsOf(order), 1.0, none, marks, ExchangeMinimum(env), c.bounds, c.limits);
  }

  const ONE_UNIT := OrderState("X", Buy, 1.0, Market, None, Created, 0.0, 0.0)

  const SMALL := Settings(0.01, NotionalBounds(0.0, 10.0), Limits(10.0, 10.0, 1.0))

  /** The exchange answers a routed order; the trade is recorded or not, everything else works. */
  function Answering(r: Response, tradeRecorded: bool): Surroundings {
    Surroundings(Some(1.0), NotOffered, NotOffered, None, Some(r), true, tradeRecorded, true, true, "disk full")
  }

  /** A first order answered with a fill is sent and books its trade, whatever happens then. */
  lemma FirstOrderTrades(r: Response, tradeRecorded: bool)
    requires r.filled > 0.0 && r.average > 0.0
    ensures var x := SubmitOf(ONE_UNIT, EMPTY, map[], Answering(r, tradeRecorded), SMALL);
            && x.sent.Some? && |x.ledger.trades| == 1
            && (x.order.status == Failed <==> !tradeRecorded || FailedText(ONE_UNIT, r))
  {
    hide RiskAllows, SubmitOf, FailedText;
    var env := Answering(r, tradeRecorded);
    FirstOrderIsAllowed(ONE_UNIT, env, SMALL);
    SubmitEffects(ONE_UNIT, EMPTY, map[], env, SMALL);
    FailedWithTrade(ONE_UNIT, EMPTY, map[], env, SMALL);
  }

  /** Both happen: a database that raises after the fill, and a partial fill answered as failed. */
  lemma FailedOrdersCanHaveTrades()
    ensures var x := SubmitOf(ONE_UNIT, EMPTY, map[], Answering(Response("closed", 1.0, 1.0, 0.0), false), SMALL);
            x.order.status == Failed && |x.ledger.trades| == 1 && !x.accepted
    ensures var y := SubmitOf(ONE_UNIT, EMPTY, map[], Answering(Response("failed", 0.5, 1.0, 0.0), true), SMALL);
            y.order.status == Failed && |y.ledger.trades| == 1 && y.accepted
  {
    hide SubmitOf, RiskAllows;
    var whole, part := Response("closed", 1.0, 1.0, 0.0), Response("failed", 0.5, 1.0, 0.0);
    FirstOrderTrades(whole, false);
    AcceptedWhen(ONE_UNIT, EMPTY, map[], Answering(whole, false), SMALL);
    FirstOrderTrades(part, true);
    AcceptedWhen(ONE_UNIT, EMPTY, map[], Answering(part, true), SMALL);
  }

  // ---------- the same order submitted again and again ----------

  datatype Attempt = Attempt(marks: map<string, real>, env: Surroundings)

  datatype History = History(order: OrderState, ledger: LedgerState, sent: seq<SentOrder>)

  ghost function SubmitAll(o: OrderState, st: LedgerState, attempts: seq<Attempt>, c: Settings): History
    requires c.eps >= 0.0
    decreases |attempts|
  {
    if attempts == [] then History(o, st, [])
    else
      var first := SubmitOf(o, st, attempts[0].marks, attempts[0].env, c);
      var rest := SubmitAll(first.order, first.ledger, attempts[1..], c);
      rest.(sent := (if first.sent.Some? then [first.sent.value] else []) + rest.sent)
  }

  lemma {:induction false} StaleOrderDoesNothing(o: OrderState, st: LedgerState, attempts: seq<Attempt>, c: Settings)
    requires c.eps >= 0.0 && o.status != Created
    ensures var h := SubmitAll(o, st, attempts, c);
            h.sent == [] && h.ledger == st && (attempts != [] ==> h.order.status == Failed)
    decreases |attempts|
  {
    hide RiskAllows, ExchangeOf, Rounded, RoundedQuantity;
    if attempts != [] {
      var first := SubmitOf(o, st, attempts[0].marks, attempts[0].env, c);
      assert first.ledger == st && first.sent.None? && first.order.status == Failed;
      StaleOrderDoesNothing(first.order, st, attempts[1..], c);
    }
  }

  /** Over any number of submits of one order, whatever the surroundings do each time: at most one
      create_order, only by the first submit, only with an allowed risk decision, and for exactly the
      rounded order; at most one trade; a final status. A second submit turns even a FILLED order
      into FAILED. */
  lemma AtMostOneExchangeOrder(o: OrderState, st: LedgerState, attempts: seq<Attempt>, c: Settings)
    requires c.eps >= 0.0 && attempts != []
    ensures var h := SubmitAll(o, st, attempts, c);
            var env := attempts[0].env;
            && |h.sent| <= 1
            && (h.sent != [] ==>
                Routable(env) && RiskAllows(Rounded(o, env), st, attempts[0].marks, env, c)
                && h.sent == [Sending(Rounded(o, env))])
            && |h.ledger.trades| <= |st.trades| + |h.sent|
            && h.order.status in FINAL
            && (|attempts| > 1 ==> h.order.status == Failed)
  {
    hide RiskAllows, ExchangeOf, Rounded, RoundedQuantity, SubmitOf, AnswersWithFill;
    var first := SubmitOf(o, st, attempts[0].marks, attempts[0].env, c);
    SubmitEffects(o, st, attempts[0].marks, attempts[0].env, c);
    StaleOrderDoesNothing(first.order, first.ledger, attempts[1..], c);
  }

  // ---------- an accepted order's report never carries a CRITICAL breach ----------

  lemma MarkingKeepsExposure(positions: map<string, Holding>, prices: map<string, real>, marks: map<string, real>)
    ensures ExposureOf(MarkAll(positions, prices), marks) == ExposureOf(positions, marks)
  {
    hide Worth;
    assert Notionals(MarkAll(positions, prices), marks) == Notionals(positions, marks);
    assert Sizes(MarkAll(positions, prices), marks) == Sizes(positions, marks);
  }

  lemma SubmitKeepsWellFormed(o: OrderState, st: LedgerState, marks: map<string, real>, env: Surroundings, c: Settings)
    requires c.eps >= 0.0 && WellFormed(st, c.eps)
    ensures WellFormed(SubmitOf(o, st, marks, env, c).ledger, c.eps)
  {
    hide Settled, GrossPnl, RiskAllows, BreachesOf, ExposureOf, ReportOf, Marked, Rounded, RoundedQuantity, Apply;
    if VerdictOf(o, st, marks, env, c) == Cleared && env.answer.Some? {
      var f := FillIn(ReportOf(PreparedAs(o, env, Cleared), env.answer.value));
      ApplyKeepsWellFormed(st, f, c.eps);
      MarkingKeepsWellFormed(Apply(st, f, c.eps), marks, c.eps);
    }
  }

  lemma MarkingKeepsWellFormed(st: LedgerState, prices: map<string, real>, eps: real)
    requires WellFormed(st, eps)
    ensures WellFormed(st.(holdings := MarkAll(st.holdings, prices)), eps)
  {
  }

  /** The order's symbol is marked at the routed reference price. */
  predicate MarkedAtReference(o: OrderState, marks: map<string, real>, env: Surroundings) {
    Routable(env) && o.symbol in marks && marks[o.symbol] == env.reference.value
  }

  /** The fill an answer reports for an order. */
  function AnsweredFill(o: OrderState, r: Response): Fill {
    Fill(o.symbol, Some(o.side), r.filled, r.average, r.fee)
  }

  /** The exchange answers with a fill whose move, dust rule included, overshoots the gross or the net
      limit. */
  ghost predicate FillOvershoots(
    o: OrderState, st: LedgerState, marks: map<string, real>, env: Surroundings, c: Settings)
    requires c.eps >= 0.0
  {
    env.answer.Some? && Accepted(AnsweredFill(o, env.answer.value)) &&
    Overshoots(st.holdings, marks, o.symbol, MoveOf(st, AnsweredFill(o, env.answer.value), marks, c.eps), c.limits)
  }

  /** Whatever an order's exchange answers, a fill of any size, none, with or without a mark or dust, its
      report carries a CRITICAL breach exactly when the fill overshoots. */
  lemma ReportIsCritical(o: OrderState, st: LedgerState, marks: map<string, real>, env: Surroundings, c: Settings)
    requires c.eps >= 0.0
    ensures var r := SubmitOf(o, st, marks, env, c);
            r.event.Some? ==> (HasCritical(r.event.value) <==> FillOvershoots(o, st, marks, env, c))
  {
    hide Settled, GrossPnl, Allowed, BreachesOf, ExposureOf, HasCritical, Overshoots, Apply, MoveOf, Marked;
    var r := SubmitOf(o, st, marks, env, c);
    RoundingIgnoresStatus(o, Routed, env);
    if r.event.Some? {
      var f := AnsweredFill(o, env.answer.value);
      assert f == FillIn(ReportOf(PreparedAs(o, env, Cleared), env.answer.value));
      if Accepted(f) {
        FillCritical(st, f, marks, c.limits, c.eps);
        MarkingKeepsExposure(Apply(st, f, c.eps).holdings, marks, marks);
      } else {
        NothingIsNotCritical();
      }
    }
  }

  /** The exchange fills no more than was ordered, less only if the portfolio was within its gross and
      net limits, and dust, if the fill drops any, does not carry the net exposure past its limit. */
  ghost predicate FillsProperly(
    o: OrderState, st: LedgerState, marks: map<string, real>, env: Surroundings, c: Settings)
    requires c.eps >= 0.0
  {
    var q := Rounded(o, env).quantity;
    env.answer.Some? && Accepted(AnsweredFill(o, env.answer.value)) ==>
      var f := AnsweredFill(o, env.answer.value);
      && f.quantity <= q
      && (f.quantity < q ==> WithinLimits(st.holdings, marks, c.limits))
      && (DroppedBy(st, f, c.eps) != 0.0 ==>
          Abs(Net(st.holdings, marks) + MoveOf(st, f, marks, c.eps)) <= c.limits.maxNet)
  }

  /** The report put on the bus for an accepted order, properly filled, carries no CRITICAL breach. */
  lemma ReportsNeverCritical(o: OrderState, st: LedgerState, marks: map<string, real>, env: Surroundings, c: Settings)
    requires ValidSettings(c) && WellFormed(st, c.eps)
    requires MarkedAtReference(o, marks, env) && FillsProperly(o, st, marks, env, c)
    ensures var r := SubmitOf(o, st, marks, env, c);
            r.event.Some? ==> !HasCritical(r.event.value)
  {
    hide Settled, GrossPnl, Allowed, BreachesOf, ExposureOf, HasCritical, WithinLimits, Apply, DroppedBy, MoveOf,
         Marked, Overshoots, Net, ProcessOf, ReportOf, WithReport;
    ReportIsCritical(o, st, marks, env, c);
    RoundingIgnoresStatus(o, Routed, env);
    if SubmitOf(o, st, marks, env, c).event.Some? && Accepted(AnsweredFill(o, env.answer.value)) {
      var t, f := TermsOf(Rounded(o, env)), AnsweredFill(o, env.answer.value);
      assert f == FillOf(t, f.quantity, f.price, f.fee);
      ProperFillKeepsLimits(st, t, env.reference.value, f.quantity, f.price, f.fee, marks,
                            ExchangeMinimum(env), c.bounds, c.limits, c.eps);
    }
  }

  lemma ProperFillKeepsLimits(
    st: LedgerState, t: Terms, reference: real, amount: real, price: real, fee: real, marks: map<string, real>,
    override: Option<real>, bounds: NotionalBounds, l: Limits, eps: real)
    requires eps >= 0.0 && WellFormed(st, eps) && FillsUpTo(t, amount, price)
    requires AcceptedAtMark(st, t, reference, marks, override, bounds, l)
    requires amount < t.quantity ==> WithinLimits(st.holdings, marks, l)
    requires var f := FillOf(t, amount, price, fee);
             DroppedBy(st, f, eps) != 0.0 ==> Abs(Net(st.holdings, marks) + MoveOf(st, f, marks, eps)) <= l.maxNet
    ensures !Overshoots(st.holdings, marks, t.symbol, MoveOf(st, FillOf(t, amount, price, fee), marks, eps), l)
  {
    hide Allowed, HasCritical, WithinLimits, Apply, DroppedBy, Overshoots, Net, Gross, Worth, ProjectionGap, Incoming,
         BreachesOf, ExposureOf, MoveOf;
    var f := FillOf(t, amount, price, fee);
    MoveAtMark(st, f, marks, eps);
    PartialFillCritical(st, t, reference, amount, price, fee, marks, override, bounds, l, eps);
    if amount == t.quantity {
      FullFillCritical(st, t, reference, price, fee, marks, override, bounds, l, eps);
      MoveAgainstProjection(t, reference, reference, DroppedBy(st, f, eps));
    }
  }

  lemma NothingIsNotCritical()
    ensures !HasCritical([])
  {
  }
}
