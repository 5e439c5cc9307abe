/** risk/pre_trade_risk.py: the accept decision, taken on exposure projected in constant
    time from the current exposure. */
module PreTradeRisk {
  import opened Common
  import opened Ledger
  import opened Exposure

  datatype Terms = Terms(symbol: string, side: Side, quantity: real)

  /** The smallest and largest order notional the validator was built with. */
  datatype NotionalBounds = NotionalBounds(minOrder: real, maxOrder: real)

  /** What the validator's constructor insists on. */
  predicate ValidBounds(b: NotionalBounds) {
    0.0 <= b.minOrder <= b.maxOrder && b.maxOrder > 0.0
  }

  datatype Reason =
    | ReferencePriceNotPositive
    | OrderQuantityNotPositive
    | BelowMinimumNotional
    | AboveMaximumNotional
    | GrossLimitExceeded
    | NetLimitExceeded
    | WeightLimitExceeded

  datatype RiskDecision = RiskDecision(
    allowed: bool,
    reasons: seq<Reason>,
    projectedGross: real,
    projectedNet: real,
    projectedWeight: real)

  function Incoming(t: Terms, reference: real): real {
    Signed(t.side, Worth(t.quantity, reference))
  }

  /** Signed notional currently held in a symbol. */
  function Current(positions: map<string, Holding>, marks: map<string, real>, symbol: string): real {
    if symbol in positions then Notional(symbol, positions[symbol], marks) else 0.0
  }

  ghost function ProjectedNet(
    positions: map<string, Holding>, marks: map<string, real>, t: Terms, reference: real): real
  {
    Net(positions, marks) + Incoming(t, reference)
  }

  ghost function ProjectedGross(
    positions: map<string, Holding>, marks: map<string, real>, t: Terms, reference: real): real
  {
    var current := Current(positions, marks, t.symbol);
    Gross(positions, marks) - Abs(current) + Abs(current + Incoming(t, reference))
  }

  ghost function ProjectedWeight(
    positions: map<string, Holding>, marks: map<string, real>, t: Terms, reference: real): real
  {
    Share(Abs(Current(positions, marks, t.symbol) + Incoming(t, reference)),
          ProjectedGross(positions, marks, t, reference))
  }

  function EffectiveMinimum(bounds: NotionalBounds, override: Option<real>): real {
    if override.Some? then Max(bounds.minOrder, override.value) else bounds.minOrder
  }

  /** The seven tests, on the order's notional and the projections. */
  predicate Flagged(
    r: Reason, t: Terms, reference: real, notional: real, minimum: real, gross: real, net: real, weight: real,
    bounds: NotionalBounds, limits: Limits)
  {
    match r
    case ReferencePriceNotPositive => reference <= 0.0
    case OrderQuantityNotPositive => t.quantity <= 0.0
    case BelowMinimumNotional => minimum > 0.0 && notional < minimum
    case AboveMaximumNotional => notional > bounds.maxOrder
    case GrossLimitExceeded => gross > limits.maxGross
    case NetLimitExceeded => Abs(net) > limits.maxNet
    case WeightLimitExceeded => weight > limits.maxWeight
  }

  /** Whether a reason applies to an order. */
  ghost predicate Refuses(
    r: Reason, t: Terms, reference: real, positions: map<string, Holding>, marks: map<string, real>,
    override: Option<real>, bounds: NotionalBounds, limits: Limits)
  {
    Flagged(r, t, reference, Worth(t.quantity, reference), EffectiveMinimum(bounds, override),
            ProjectedGross(positions, marks, t, reference), ProjectedNet(positions, marks, t, reference),
            ProjectedWeight(positions, marks, t, reference), bounds, limits)
  }

  /** An order is allowed exactly when no reason applies. */
  ghost predicate Allowed(
    t: Terms, reference: real, positions: map<string, Holding>, marks: map<string, real>,
    override: Option<real>, bounds: NotionalBounds, limits: Limits)
  {
    forall r :: !Refuses(r, t, reference, positions, marks, override, bounds, limits)
  }

  /** What an allowed order satisfies. */
  lemma AllowedMeans(
    t: Terms, reference: real, positions: map<string, Holding>, marks: map<string, real>,
    override: Option<real>, bounds: NotionalBounds, limits: Limits)
    ensures Allowed(t, reference, positions, marks, override, bounds, limits) <==>
        && reference > 0.0 && t.quantity > 0.0
        && (bounds.minOrder > 0.0 ==> Worth(t.quantity, reference) >= bounds.minOrder)
        && (override.Some? && override.value > 0.0 ==> Worth(t.quantity, reference) >= override.value)
        && Worth(t.quantity, reference) <= bounds.maxOrder
        && ProjectedGross(positions, marks, t, reference) <= limits.maxGross
        && Abs(ProjectedNet(positions, marks, t, reference)) <= limits.maxNet
        && ProjectedWeight(positions, marks, t, reference) <= limits.maxWeight
  {
    hide ProjectedGross, ProjectedNet, ProjectedWeight, Worth;
    if Allowed(t, reference, positions, marks, override, bounds, limits) {
      assert !Refuses(ReferencePriceNotPositive, t, reference, positions, marks, override, bounds, limits);
      assert !Refuses(OrderQuantityNotPositive, t, reference, positions, marks, override, bounds, limits);
      assert !Refuses(BelowMinimumNotional, t, reference, positions, marks, override, bounds, limits);
      assert !Refuses(AboveMaximumNotional, t, reference, positions, marks, override, bounds, limits);
      assert !Refuses(GrossLimitExceeded, t, reference, positions, marks, override, bounds, limits);
      assert !Refuses(NetLimitExceeded, t, reference, positions, marks, override, bounds, limits);
      assert !Refuses(WeightLimitExceeded, t, reference, positions, marks, override, bounds, limits);
    }
  }

  /** Which reason an order is refused for. */
  lemma ReasonsMean(
    t: Terms, reference: real, positions: map<string, Holding>, marks: map<string, real>,
    override: Option<real>, bounds: NotionalBounds, limits: Limits, r: Reason)
    ensures Refuses(r, t, reference, positions, marks, override, bounds, limits) <==>
        match r
        case ReferencePriceNotPositive => reference <= 0.0
        case OrderQuantityNotPositive => t.quantity <= 0.0
        case BelowMinimumNotional =>
          || (Worth(t.quantity, reference) < bounds.minOrder && bounds.minOrder > 0.0)
          || (override.Some? && Worth(t.quantity, reference) < override.value && override.value > 0.0)
        case AboveMaximumNotional => Worth(t.quantity, reference) > bounds.maxOrder
        case GrossLimitExceeded => ProjectedGross(positions, marks, t, reference) > limits.maxGross
        case NetLimitExceeded =>
          || ProjectedNet(positions, marks, t, reference) > limits.maxNet
          || -ProjectedNet(positions, marks, t, reference) > limits.maxNet
        case WeightLimitExceeded => ProjectedWeight(positions, marks, t, reference) > limits.maxWeight
  {
    hide ProjectedGross, ProjectedNet, ProjectedWeight, Worth;
  }

  /** The weight test without division: the symbol's projected size is at most its share of the projected
      gross. */
  lemma WeightMeans(
    t: Terms, reference: real, positions: map<string, Holding>, marks: map<string, real>, limits: Limits)
    requires limits.maxWeight >= 0.0
    ensures ProjectedWeight(positions, marks, t, reference) <= limits.maxWeight <==>
        var gross := ProjectedGross(positions, marks, t, reference);
        var size := Abs(Current(positions, marks, t.symbol) + Incoming(t, reference));
        gross > 0.0 ==> size <= Worth(limits.maxWeight, gross)
  {
    hide ProjectedGross, Current, Incoming;
    var gross := ProjectedGross(positions, marks, t, reference);
    if gross > 0.0 {
      QuotientAtMost(Abs(Current(positions, marks, t.symbol) + Incoming(t, reference)), gross, limits.maxWeight);
    }
  }

  /** The constant-time projections, from one pass over the current positions. */
  method Project(positions: map<string, Holding>, marks: map<string, real>, t: Terms, reference: real)
    returns (gross: real, net: real, weight: real)
    ensures gross == ProjectedGross(positions, marks, t, reference)
    ensures net == ProjectedNet(positions, marks, t, reference)
    ensures weight == ProjectedWeight(positions, marks, t, reference)
  {
    hide Worth, Share, Net, Gross, Notional, Sizes, Weights;
    var snapshot := Calculate(positions, marks);
    var current := 0.0;
    if t.symbol in positions {
      current := Notional(t.symbol, positions[t.symbol], marks);
    }
    var orderNotional := Worth(t.quantity, reference);
    var incoming := if t.side == Buy then orderNotional else -orderNotional;
    var symbolSigned := current + incoming;
    net := snapshot.net + incoming;
    gross := snapshot.gross - Abs(current) + Abs(symbolSigned);
    weight := Share(Abs(symbolSigned), gross);
  }

  /** Append a reason when it applies. */
  function Note(reasons: seq<Reason>, applies: bool, reason: Reason): seq<Reason> {
    if applies then reasons + [reason] else reasons
  }

  /** The reasons in the order they are checked. */
  function Listing(
    t: Terms, reference: real, notional: real, minimum: real, gross: real, net: real, weight: real,
    bounds: NotionalBounds, limits: Limits): seq<Reason>
  {
    Note(Note(Note(Note(Note(Note(Note([],
      reference <= 0.0, ReferencePriceNotPositive), t.quantity <= 0.0, OrderQuantityNotPositive),
      minimum > 0.0 && notional < minimum, BelowMinimumNotional), notional > bounds.maxOrder, AboveMaximumNotional),
      gross > limits.maxGross, GrossLimitExceeded), Abs(net) > limits.maxNet, NetLimitExceeded),
      weight > limits.maxWeight, WeightLimitExceeded)
  }

  lemma NoteHas(reasons: seq<Reason>, applies: bool, reason: Reason, r: Reason)
    ensures r in Note(reasons, applies, reason) <==> r in reasons || (applies && r == reason)
  {
  }

  /** A reason is listed exactly when its test holds. */
  lemma ListingHas(
    t: Terms, reference: real, notional: real, minimum: real, gross: real, net: real, weight: real,
    bounds: NotionalBounds, limits: Limits, r: Reason)
    ensures r in Listing(t, reference, notional, minimum, gross, net, weight, bounds, limits) <==>
        Flagged(r, t, reference, notional, minimum, gross, net, weight, bounds, limits)
  {
    hide Note;
    var s := [];
    NoteHas(s, reference <= 0.0, ReferencePriceNotPositive, r);
    s := Note(s, reference <= 0.0, ReferencePriceNotPositive);
    NoteHas(s, t.quantity <= 0.0, OrderQuantityNotPositive, r);
    s := Note(s, t.quantity <= 0.0, OrderQuantityNotPositive);
    NoteHas(s, minimum > 0.0 && notional < minimum, BelowMinimumNotional, r);
    s := Note(s, minimum > 0.0 && notional < minimum, BelowMinimumNotional);
    NoteHas(s, notional > bounds.maxOrder, AboveMaximumNotional, r);
    s := Note(s, notional > bounds.maxOrder, AboveMaximumNotional);
    NoteHas(s, gross > limits.maxGross, GrossLimitExceeded, r);
    s := Note(s, gross > limits.maxGross, GrossLimitExceeded);
    NoteHas(s, Abs(net) > limits.maxNet, NetLimitExceeded, r);
    s := Note(s, Abs(net) > limits.maxNet, NetLimitExceeded);
    NoteHas(s, weight > limits.maxWeight, WeightLimitExceeded, r);
  }

  lemma AllowedIfUnlisted(
    listed: seq<Reason>, t: Terms, reference: real, positions: map<string, Holding>, marks: map<string, real>,
    override: Option<real>, bounds: NotionalBounds, limits: Limits)
    requires forall r :: r in listed <==> Refuses(r, t, reference, positions, marks, override, bounds, limits)
    ensures listed == [] <==> Allowed(t, reference, positions, marks, override, bounds, limits)
  {
    hide Refuses;
    if listed != [] {
      assert listed[0] in listed;
    }
  }

  method Decide(
    t: Terms, reference: real, positions: map<string, Holding>, marks: map<string, real>,
    override: Option<real>, bounds: NotionalBounds, limits: Limits)
    returns (d: RiskDecision)
    ensures forall r :: r in d.reasons <==> Refuses(r, t, reference, positions, marks, override, bounds, limits)
    ensures d.allowed <==> d.reasons == []
    ensures d.allowed <==> Allowed(t, reference, positions, marks, override, bounds, limits)
    ensures d.projectedGross == ProjectedGross(positions, marks, t, reference)
    ensures d.projectedNet == ProjectedNet(positions, marks, t, reference)
    ensures d.projectedWeight == ProjectedWeight(positions, marks, t, reference)
  {
    hide Note, Flagged, Worth, ProjectedNet, ProjectedGross, ProjectedWeight, Allowed;
    var reasons := Note([], reference <= 0.0, ReferencePriceNotPositive);
    reasons := Note(reasons, t.quantity <= 0.0, OrderQuantityNotPositive);
    var orderNotional := Worth(t.quantity, reference);
    var minimum := bounds.minOrder;
    if override.Some? {
      minimum := Max(minimum, override.value);
    }
    reasons := Note(reasons, minimum > 0.0 && orderNotional < minimum, BelowMinimumNotional);
    reasons := Note(reasons, orderNotional > bounds.maxOrder, AboveMaximumNotional);
    var gross, net, weight := Project(positions, marks, t, reference);
    reasons := Note(reasons, gross > limits.maxGross, GrossLimitExceeded);
    reasons := Note(reasons, Abs(net) > limits.maxNet, NetLimitExceeded);
    reasons := Note(reasons, weight > limits.maxWeight, WeightLimitExceeded);
    forall r ensures r in reasons <==> Refuses(r, t, reference, positions, marks, override, bounds, limits) {
      ListingHas(t, reference, orderNotional, minimum, gross, net, weight, bounds, limits, r);
    }
    AllowedIfUnlisted(reasons, t, reference, positions, marks, override, bounds, limits);
    d := RiskDecision(|reasons| == 0, reasons, gross, net, weight);
  }
}
