/** execution/: the order state machine, the status logic of the response normalizer, the
    fill processor and the pipeline that carries one order from CREATED to its final status.
    The router, the exchange, the database and the state store are inputs: each either
    answers or raises. */
module Execution {
  import opened Common
  import opened Ledger
  import opened Exposure
  import opened PreTradeRisk

  // ---------- order states ----------

  datatype OrderStatus =
    | Created | Validated | Routed | Submitted | PartiallyFilled | Filled | Cancelled | Failed | Rejected

  function Successors(s: OrderStatus): set<OrderStatus> {
    match s
    case Created => {Validated, Rejected}
    case Validated => {Routed, Failed, Rejected}
    case Routed => {Submitted, Failed, Rejected}
    case Submitted => {PartiallyFilled, Filled, Cancelled, Failed}
    case PartiallyFilled => {Filled, Cancelled}
    case _ => {}
  }

  datatype OrderState = OrderState(
    symbol: string,
    side: Side,
    quantity: real,
    orderType: OrderType,
    price: Option<real>,
    status: OrderStatus,
    filledQuantity: real,
    averageFillPrice: real)

  function TermsOf(o: OrderState): Terms {
    Terms(o.symbol, o.side, o.quantity)
  }

  /** What the execution validator lets through. */
  predicate Submittable(o: OrderState) {
    o.symbol != "" && o.quantity > 0.0 && !(o.orderType == Limit && o.price.None?)
  }

  // ---------- exchange responses ----------

  /** A response payload: lower-cased status text and the numbers found in it. */
  datatype Response = Response(statusText: string, filled: real, average: real, fee: real)

  /** Texts the normalizer does not know mean SUBMITTED, like "open", "new", "submitted" and "pending". */
  function Mapped(text: string): OrderStatus {
    if text in ["partial", "partially_filled", "partiallyfilled"] then PartiallyFilled
    else if text in ["closed", "filled", "done"] then Filled
    else if text in ["cancelled", "canceled"] then Cancelled
    else if text == "rejected" then Rejected
    else if text == "failed" then Failed
    else Submitted
  }

  datatype Report = Report(
    symbol: string, side: Side, requested: real, filled: real, average: real, fee: real, status: OrderStatus)

  /** The filled quantity overrules the status text: a complete fill is FILLED whatever the text
      says, and a partial fill of an order still reported open is PARTIALLY_FILLED. */
  function ReportOf(o: OrderState, r: Response): Report {
    var status :=
      if r.filled >= o.quantity > 0.0 then Filled
      else if 0.0 < r.filled < o.quantity && Mapped(r.statusText) == Submitted then PartiallyFilled
      else Mapped(r.statusText);
    Report(o.symbol, o.side, o.quantity, r.filled, r.average, r.fee, status)
  }

  method Normalize(o: OrderState, r: Response) returns (report: Report)
    ensures report == ReportOf(o, r)
  {
    hide Mapped;
    var status := Mapped(r.statusText);
    if r.filled > 0.0 && r.filled < o.quantity && status == Submitted {
      status := PartiallyFilled;
    }
    if r.filled >= o.quantity && o.quantity > 0.0 {
      status := Filled;
    }
    report := Report(o.symbol, o.side, o.quantity, r.filled, r.average, r.fee, status);
  }

  // ---------- settings and surroundings ----------

  datatype Settings = Settings(eps: real, bounds: NotionalBounds, limits: Limits)

  predicate ValidSettings(c: Settings) {
    c.eps >= 0.0 && ValidBounds(c.bounds) && ValidLimits(c.limits)
  }

  /** A precision rule of the exchange: absent, rounding to a value, or raising. */
  datatype Rounding = NotOffered | To(value: real) | RoundingRaises

  /** How everything outside the pipeline behaves during one submit. `reference` is None when the
      router raises or returns no exchange or no price; `answer` is None when create_order raises;
      each flag is false when that step raises, and `errorText` is the text of whatever is raised. */
  datatype Surroundings = Surroundings(
    reference: Option<real>,
    amountRule: Rounding,
    priceRule: Rounding,
    minNotional: Option<real>,
    answer: Option<Response>,
    reportRecorded: bool,
    tradeRecorded: bool,
    stateSaved: bool,
    published: bool,
    errorText: string)

  /** Non-positive exchange minimums are ignored. */
  function ExchangeMinimum(env: Surroundings): Option<real> {
    if env.minNotional.Some? && env.minNotional.value > 0.0 then env.minNotional else None
  }

  // ---------- processing a fill ----------

  /** What processing a report leaves behind: the ledger, whether it raised, and the breaches. */
  datatype FillOutcome = FillOutcome(ledger: LedgerState, raised: bool, breaches: seq<RiskBreach>)

  function FillIn(r: Report): Fill {
    Fill(r.symbol, Some(r.side), r.filled, r.average, r.fee)
  }

  ghost function ProcessOf(
    st: LedgerState, r: Report, marks: map<string, real>, env: Surroundings, c: Settings): FillOutcome
    requires c.eps >= 0.0
  {
    if r.filled <= 0.0 then FillOutcome(st, false, [])
    else if !Accepted(FillIn(r)) then FillOutcome(st, true, [])
    else
      var booked := Apply(st, FillIn(r), c.eps);
      if !env.tradeRecorded then FillOutcome(booked, true, [])
      else
        var marked := booked.(holdings := MarkAll(booked.holdings, marks));
        if !env.stateSaved then FillOutcome(marked, true, [])
        else FillOutcome(marked, false, BreachesOf(ExposureOf(marked.holdings, marks), c.limits))
  }

  class FillProcessor {
    const settings: Settings
    const ledger: PositionLedger

    ghost predicate Valid() {
      ValidSettings(settings) && ledger.epsilon == settings.eps
    }

    constructor (settings: Settings, ledger: PositionLedger)
      requires ValidSettings(settings) && ledger.epsilon == settings.eps
      ensures Valid() && this.settings == settings && this.ledger == ledger
    {
      this.settings := settings;
      this.ledger := ledger;
    }

    method Process(r: Report, marks: map<string, real>, env: Surroundings)
      returns (raised: bool, breaches: seq<RiskBreach>)
      requires Valid()
      modifies ledger
      ensures var expected := ProcessOf(old(ledger.State()), r, marks, env, settings);
              && ledger.State() == expected.ledger
              && raised == expected.raised
              && multiset(breaches) == multiset(expected.breaches)
    {
      hide Apply, ExposureOf, BreachesOf, MarkOne;
      raised, breaches := false, [];
      if r.filled <= 0.0 { return; }
      if r.average <= 0.0 { return true, []; }
      var booked := ledger.ApplyFill(FillIn(r));
      if booked.Err? || !env.tradeRecorded {
        RejectedChangesNothing(old(ledger.State()), FillIn(r), settings.eps);
        return true, [];
      }
      ledger.MarkPositions(marks);
      var snapshot := Calculate(ledger.positions, marks);
      breaches := Exposure.Validate(snapshot, settings.limits);
      if !env.stateSaved { return true, []; }
    }
  }

  lemma RejectedChangesNothing(st: LedgerState, f: Fill, eps: real)
    requires eps >= 0.0
    ensures !Accepted(f) ==> Apply(st, f, eps) == st
  {
  }

  // ---------- submitting an order ----------

  /** The order as handed to the exchange. */
  datatype SentOrder = SentOrder(symbol: string, orderType: OrderType, side: Side, quantity: real, price: Option<real>)

  function Sending(o: OrderState): SentOrder {
    SentOrder(o.symbol, o.orderType, o.side, o.quantity, o.price)
  }

  /** Everything a submit changes or returns. `sent` is the order given to create_order, if it was
      called; `event` carries the breaches of the execution report put on the bus, if one was. */
  datatype Outcome = Outcome(
    order: OrderState,
    ledger: LedgerState,
    sent: Option<SentOrder>,
    event: Option<seq<RiskBreach>>,
    accepted: bool,
    error: bool)

  function Abandoned(o: OrderState, st: LedgerState, sent: Option<SentOrder>): Outcome {
    Outcome(o.(status := Failed), st, sent, None, false, true)
  }

  function RoundedQuantity(o: OrderState, env: Surroundings): OrderState {
    if env.amountRule.To? then o.(quantity := env.amountRule.value) else o
  }

  function Rounded(o: OrderState, env: Surroundings): OrderState {
    var q := RoundedQuantity(o, env);
    if o.price.Some? && env.priceRule.To? then q.(price := Some(env.priceRule.value)) else q
  }

  predicate Routable(env: Surroundings) {
    env.reference.Some? && env.reference.value > 0.0
  }

  ghost predicate RiskAllows(
    o: OrderState, st: LedgerState, marks: map<string, real>, env: Surroundings, c: Settings)
    requires Routable(env)
  {
    Allowed(TermsOf(o), env.reference.value, st.holdings, marks, ExchangeMinimum(env), c.bounds, c.limits)
  }

  /** A report still SUBMITTED leaves the order as it is; any other status is taken over, with the
      fill figures, whether or not the state machine lists the transition. */
  function WithReport(o: OrderState, r: Report): OrderState {
    if r.status == Submitted then o
    else o.(status := r.status, filledQuantity := r.filled, averageFillPrice := r.average)
  }

  /** From an order the risk check let through to the end. */
  ghost function ExchangeOf(
    o: OrderState, st: LedgerState, marks: map<string, real>, env: Surroundings, c: Settings): Outcome
    requires c.eps >= 0.0
  {
    var sent := Some(Sending(o));
    if env.answer.None? then Abandoned(o, st, sent)
    else
      var report := ReportOf(o, env.answer.value);
      if !env.reportRecorded then Abandoned(o, st, sent)
      else
        var reported := WithReport(o.(status := Submitted), report);
        var fill := ProcessOf(st, report, marks, env, c);
        if fill.raised || !env.published then Abandoned(reported, fill.ledger, sent)
        else Outcome(reported, fill.ledger, sent, Some(fill.breaches), true, false)
  }

  /** How far an order gets before the exchange: an error stops it, the risk check refuses it, or
      it is routed. */
  datatype Verdict = Broken | Refused | Cleared

  ghost function VerdictOf(
    o: OrderState, st: LedgerState, marks: map<string, real>, env: Surroundings, c: Settings): Verdict
  {
    if !Submittable(o) || Validated !in Successors(o.status) || !Routable(env) || !PrecisionHolds(o, env) then Broken
    else if !RiskAllows(Rounded(o, env), st, marks, env, c) then Refused
    else Cleared
  }

  predicate PrecisionHolds(o: OrderState, env: Surroundings) {
    !env.amountRule.RoundingRaises? && !(o.price.Some? && env.priceRule.RoundingRaises?)
  }

  /** The order after the steps before the exchange. */
  function PreparedAs(o: OrderState, env: Surroundings, v: Verdict): OrderState {
    match v
    case Refused => Rounded(o, env).(status := Rejected)
    case Cleared => Rounded(o, env).(status := Routed)
    case Broken =>
      (if Submittable(o) && Validated in Successors(o.status) && Routable(env) && !env.amountRule.RoundingRaises?
       then RoundedQuantity(o, env) else o).(status := Failed)
  }

  ghost function SubmitOf(
    o: OrderState, st: LedgerState, marks: map<string, real>, env: Surroundings, c: Settings): Outcome
    requires c.eps >= 0.0
  {
    var verdict := VerdictOf(o, st, marks, env, c);
    var prepared := PreparedAs(o, env, verdict);
    if verdict == Cleared then ExchangeOf(prepared, st, marks, env, c)
    else Outcome(prepared, st, None, None, false, verdict == Broken)
  }

  class Order {
    const symbol: string
    const side: Side
    const orderType: OrderType
    var quantity: real
    var price: Option<real>
    var status: OrderStatus
    var filledQuantity: real
    var averageFillPrice: real

    constructor (o: OrderState)
      ensures State() == o
    {
      symbol, side, orderType := o.symbol, o.side, o.orderType;
      quantity, price, status := o.quantity, o.price, o.status;
      filledQuantity, averageFillPrice := o.filledQuantity, o.averageFillPrice;
    }

    function State(): OrderState
      reads this
    {
      OrderState(symbol, side, quantity, orderType, price, status, filledQuantity, averageFillPrice)
    }

    /** Returns false, changing nothing, where the state machine raises InvalidStateTransition. */
    method Transition(next: OrderStatus) returns (ok: bool)
      modifies this`status
      ensures ok <==> next in Successors(old(status))
      ensures status == if ok then next else old(status)
    {
      ok := next in Successors(status);
      if ok {
        status := next;
      }
    }

    method ApplyReport(r: Report)
      modifies this
      ensures State() == WithReport(old(State()), r)
    {
      if r.status == Submitted { return; }
      var ok := Transition(r.status);
      if !ok {
        status := r.status;
      }
      filledQuantity := r.filled;
      averageFillPrice := r.average;
    }

    /** Returns false when a precision rule raised. */
    method ApplyPrecision(env: Surroundings) returns (ok: bool)
      modifies this
      ensures ok <==> PrecisionHolds(old(State()), env)
      ensures State() ==
        if env.amountRule.RoundingRaises? then old(State())
        else if ok then Rounded(old(State()), env)
        else RoundedQuantity(old(State()), env)
    {
      if env.amountRule.RoundingRaises? { return false; }
      if env.amountRule.To? {
        quantity := env.amountRule.value;
      }
      if price.Some? {
        if env.priceRule.RoundingRaises? { return false; }
        if env.priceRule.To? {
          price := Some(env.priceRule.value);
        }
      }
      return true;
    }
  }

  class ExecutionPipeline {
    const settings: Settings
    const ledger: PositionLedger
    const fills: FillProcessor
    /** Every order given to create_order so far. */
    var sent: seq<SentOrder>

    ghost predicate Valid() {
      ValidSettings(settings) && fills.Valid() && fills.settings == settings && fills.ledger == ledger
    }

    constructor (settings: Settings, ledger: PositionLedger, fills: FillProcessor)
      requires ValidSettings(settings) && fills.Valid() && fills.settings == settings && fills.ledger == ledger
      ensures Valid() && sent == [] && this.ledger == ledger && this.settings == settings
    {
      this.settings := settings;
      this.ledger := ledger;
      this.fills := fills;
      sent := [];
    }

    method Submit(order: Order, marks: map<string, real>, env: Surroundings)
      returns (accepted: bool, error: bool, event: Option<seq<RiskBreach>>)
      requires Valid()
      modifies this`sent, order, ledger
      ensures var expected := SubmitOf(old(order.State()), old(ledger.State()), marks, env, settings);
              && order.State() == expected.order
              && ledger.State() == expected.ledger
              && sent == old(sent) + (if expected.sent.Some? then [expected.sent.value] else [])
              && accepted == expected.accepted && error == expected.error
              && (event.Some? <==> expected.event.Some?)
              && (event.Some? ==> multiset(event.value) == multiset(expected.event.value))
    {
      hide VerdictOf, Rounded, RoundedQuantity, ProcessOf, ReportOf, WithReport;
      var verdict := Prepare(order, marks, env);
      if verdict == Cleared {
        accepted, error, event := Exchange(order, marks, env);
      } else {
        accepted, error, event := false, verdict == Broken, None;
      }
    }

    /** Submit up to and including the risk check. */
    method Prepare(order: Order, marks: map<string, real>, env: Surroundings) returns (v: Verdict)
      requires Valid()
      modifies order
      ensures v == VerdictOf(old(order.State()), ledger.State(), marks, env, settings)
      ensures order.State() == PreparedAs(old(order.State()), env, v)
    {
      hide Allowed, Rounded, RoundedQuantity;
      ghost var o := order.State();
      if !Submittable(order.State()) {
        order.status := Failed;
        return Broken;
      }
      var ok := order.Transition(Validated);
      if !ok || !Routable(env) {
        order.status := Failed;
        return Broken;
      }
      RoundingIgnoresStatus(o, Validated, env);
      ok := order.ApplyPrecision(env);
      if !ok {
        order.status := Failed;
        return Broken;
      }
      var decision := Decide(TermsOf(order.State()), env.reference.value, ledger.positions, marks,
                             ExchangeMinimum(env), settings.bounds, settings.limits);
      if !decision.allowed {
        ok := order.Transition(Rejected);
        return Refused;
      }
      ok := order.Transition(Routed);
      return Cleared;
    }

    /** The rest of Submit, once the order is routed. */
    method Exchange(order: Order, marks: map<string, real>, env: Surroundings)
      returns (accepted: bool, error: bool, event: Option<seq<RiskBreach>>)
      requires Valid() && order.status == Routed
      modifies this`sent, order, ledger
      ensures var expected := ExchangeOf(old(order.State()), old(ledger.State()), marks, env, settings);
              && order.State() == expected.order
              && ledger.State() == expected.ledger
              && sent == old(sent) + [Sending(old(order.State()))]
              && accepted == expected.accepted && error == expected.error
              && (event.Some? <==> expected.event.Some?)
              && (event.Some? ==> multiset(event.value) == multiset(expected.event.value))
    {
      hide ProcessOf, ReportOf, WithReport;
      accepted, error, event := false, true, None;
      ghost var o := order.State();
      sent := sent + [Sending(order.State())];
      if env.answer.None? {
        order.status := Failed;
        return;
      }
      var ok := order.Transition(Submitted);
      var report := Normalize(order.State(), env.answer.value);
      SameReport(o, Submitted, env.answer.value);
      if !env.reportRecorded {
        order.status := Failed;
        return;
      }
      order.ApplyReport(report);
      var raised, breaches := fills.Process(report, marks, env);
      if raised || !env.published {
        order.status := Failed;
        return;
      }
      accepted, error, event := true, false, Some(breaches);
    }
  }

  lemma RoundingIgnoresStatus(o: OrderState, status: OrderStatus, env: Surroundings)
    ensures Rounded(o.(status := status), env) == Rounded(o, env).(status := status)
    ensures RoundedQuantity(o.(status := status), env) == RoundedQuantity(o, env).(status := status)
    ensures Rounded(o, env).status == RoundedQuantity(o, env).status == o.status
    ensures Rounded(o, env).symbol == o.symbol && Rounded(o, env).side == o.side
  {
  }

  /** The normalizer does not look at the order's status. */
  lemma SameReport(o: OrderState, status: OrderStatus, r: Response)
    ensures ReportOf(o.(status := status), r) == ReportOf(o, r)
  {
  }
}
