/** The constant-time projection against full recomputation on the real ledger, and what an
    accepted order can do to the portfolio limits. */
module RiskLaws {
  import opened Common
  import opened RealSums
  import opened Ledger
  import opened LedgerLaws
  import opened Exposure
  import opened PreTradeRisk

  function FillOf(t: Terms, amount: real, price: real, fee: real): Fill {
    Fill(t.symbol, Some(t.side), amount, price, fee)
  }

  /** A report fills some of the order, at a valid price. */
  predicate FillsUpTo(t: Terms, amount: real, price: real) {
    t.symbol != "" && 0.0 < amount <= t.quantity && price > 0.0
  }

  // ---------- what a fill does to the recomputed exposure ----------

  function StoredNotional(symbol: string, h: Holding, marks: map<string, real>, eps: real): real {
    if Abs(h.quantity) <= eps then 0.0 else Notional(symbol, h, marks)
  }

  lemma NetAfterStore(
    positions: map<string, Holding>, symbol: string, h: Holding, marks: map<string, real>, eps: real)
    ensures Net(Store(positions, symbol, h, eps), marks)
         == Net(positions, marks) - Current(positions, marks, symbol) + StoredNotional(symbol, h, marks, eps)
  {
    hide Notional, Sum;
    var signed := Notionals(positions, marks);
    if Abs(h.quantity) <= eps {
      assert Notionals(positions - {symbol}, marks) == signed - {symbol};
      SumRemove(signed, symbol);
    } else {
      var value := Notional(symbol, h, marks);
      assert Notionals(positions[symbol := h], marks) == signed[symbol := value];
      SumUpdate(signed, symbol, value);
    }
  }

  lemma SizesAfterStore(
    positions: map<string, Holding>, symbol: string, h: Holding, marks: map<string, real>, eps: real)
    ensures Sizes(Store(positions, symbol, h, eps), marks)
         == if Abs(h.quantity) <= eps then Sizes(positions, marks) - {symbol}
            else Sizes(positions, marks)[symbol := Abs(Notional(symbol, h, marks))]
  {
    hide Notional;
  }

  lemma ExposureAfterStore(
    positions: map<string, Holding>, symbol: string, h: Holding, marks: map<string, real>, eps: real)
    ensures var after := Store(positions, symbol, h, eps);
            var current := Current(positions, marks, symbol);
            var value := StoredNotional(symbol, h, marks, eps);
            && Net(after, marks) == Net(positions, marks) - current + value
            && Gross(after, marks) == Gross(positions, marks) - Abs(current) + Abs(value)
            && Sizes(after, marks) - {symbol} == Sizes(positions, marks) - {symbol}
            && At(Sizes(after, marks), symbol) == Abs(value)
  {
    hide Notional, Sum, Net, Store, Sizes;
    var sizes := Sizes(positions, marks);
    NetAfterStore(positions, symbol, h, marks, eps);
    SizesAfterStore(positions, symbol, h, marks, eps);
    SizeAt(positions, marks, symbol);
    if Abs(h.quantity) <= eps {
      SumRemove(sizes, symbol);
    } else {
      SumUpdate(sizes, symbol, Abs(Notional(symbol, h, marks)));
    }
  }

  lemma SizeAt(positions: map<string, Holding>, marks: map<string, real>, symbol: string)
    ensures At(Sizes(positions, marks), symbol) == Abs(Current(positions, marks, symbol))
  {
    hide Notional;
  }

  /** The quantity kept after a fill is the exact sum minus whatever dust was dropped. */
  lemma KeptQuantity(h: Holding, delta: real, price: real, fee: real, eps: real)
    requires eps >= 0.0 && Startable(h, eps) && delta != 0.0
    ensures Stored(Settled(h, delta, price, fee, eps), eps).quantity == h.quantity + delta - Dropped(h, delta, eps)
  {
    hide Blended, PnlOn;
  }

  /** The dust a fill drops from the ledger. */
  function DroppedBy(st: LedgerState, f: Fill, eps: real): real
    requires Accepted(f)
  {
    Dropped(Before(st, f.symbol), Delta(f), eps)
  }

  lemma MarkedNotional(st: LedgerState, f: Fill, marks: map<string, real>, eps: real)
    requires eps >= 0.0 && WellFormed(st, eps) && Accepted(f) && f.symbol in marks
    ensures var h := Before(st, f.symbol);
            StoredNotional(f.symbol, Settled(h, Delta(f), f.price, f.fee, eps), marks, eps)
              == Current(st.holdings, marks, f.symbol) + Worth(Delta(f) - DroppedBy(st, f, eps), marks[f.symbol])
  {
    hide Settled, Worth;
    var h := Before(st, f.symbol);
    KeptQuantity(h, Delta(f), f.price, f.fee, eps);
    WorthSum(h.quantity, Delta(f) - DroppedBy(st, f, eps), marks[f.symbol]);
    WorthZero(marks[f.symbol]);
  }

  /** Recomputed exposure after a fill of a marked symbol: the fill price plays no part. */
  lemma ExposureAfterFill(st: LedgerState, f: Fill, marks: map<string, real>, eps: real)
    requires eps >= 0.0 && WellFormed(st, eps) && Accepted(f) && f.symbol in marks
    ensures var after := Apply(st, f, eps).holdings;
            var moved := Worth(Delta(f) - DroppedBy(st, f, eps), marks[f.symbol]);
            var current := Current(st.holdings, marks, f.symbol);
            && Net(after, marks) == Net(st.holdings, marks) + moved
            && Gross(after, marks) == Gross(st.holdings, marks) - Abs(current) + Abs(current + moved)
            && Sizes(after, marks) - {f.symbol} == Sizes(st.holdings, marks) - {f.symbol}
            && At(Sizes(after, marks), f.symbol) == Abs(current + moved)
  {
    hide Settled, Sum, Notional, Net, Gross, Sizes, Worth, StoredNotional, PnlOn;
    var h := Before(st, f.symbol);
    MarkedNotional(st, f, marks, eps);
    ExposureAfterStore(st.holdings, f.symbol, Settled(h, Delta(f), f.price, f.fee, eps), marks, eps);
  }

  // ---------- the projection refines the recomputation ----------

  /** quantity * |reference - mark|, plus the dust dropped at the mark. */
  function ProjectionGap(t: Terms, reference: real, mark: real, dropped: real): real {
    Worth(t.quantity, Abs(reference - mark)) + Abs(Worth(dropped, mark))
  }

  /** How far the recomputed move of a full fill is from the projected one. */
  lemma MoveAgainstProjection(t: Terms, reference: real, mark: real, dropped: real)
    requires t.quantity > 0.0
    ensures var gap := Worth(Signed(t.side, t.quantity) - dropped, mark) - Incoming(t, reference);
            && Abs(gap) <= ProjectionGap(t, reference, mark, dropped)
            && (mark == reference ==> gap == -Worth(dropped, mark))
  {
    hide Worth;
    WorthSum(Signed(t.side, t.quantity), -dropped, mark);
    WorthSum(dropped, 0.0, mark);
    WorthSum(t.quantity, 0.0, mark);
    WorthGap(t.quantity, reference, mark);
    WorthGap(t.quantity, mark, reference);
    WorthMonoPrice(t.quantity, Min(mark, reference), Max(mark, reference));
  }

  /** After a complete fill of a marked symbol, recomputed gross and net differ from the projection
      by at most quantity * |reference - mark|, plus the dust dropped at the mark. With the mark at
      the reference price they are both equal exactly when no dust was dropped. */
  lemma ProjectionRefinesRecomputation(
    st: LedgerState, t: Terms, reference: real, price: real, fee: real, marks: map<string, real>, eps: real)
    requires eps >= 0.0 && WellFormed(st, eps) && FillsUpTo(t, t.quantity, price) && t.symbol in marks
    ensures var f := FillOf(t, t.quantity, price, fee);
            var after := Apply(st, f, eps).holdings;
            var mark := marks[t.symbol];
            var dropped := DroppedBy(st, f, eps);
            var gap := ProjectionGap(t, reference, mark, dropped);
            && Abs(Gross(after, marks) - ProjectedGross(st.holdings, marks, t, reference)) <= gap
            && Abs(Net(after, marks) - ProjectedNet(st.holdings, marks, t, reference)) <= gap
            && (mark == reference && mark > 0.0 ==>
                (Gross(after, marks) == ProjectedGross(st.holdings, marks, t, reference)
                 && Net(after, marks) == ProjectedNet(st.holdings, marks, t, reference)
                 <==> dropped == 0.0))
  {
    hide Net, Gross, Apply, Incoming, DroppedBy, Current, Worth, ProjectionGap, Sizes;
    var f := FillOf(t, t.quantity, price, fee);
    var mark := marks[t.symbol];
    var dropped := DroppedBy(st, f, eps);
    ExposureAfterFill(st, f, marks, eps);
    MoveAgainstProjection(t, reference, mark, dropped);
    if mark > 0.0 {
      WorthSign(dropped, mark);
    }
  }

  /** Where the projection of an unmarked symbol, valued at its entry price, is exact: the fill leaves
      no dust and opens, adds, or closes at the entry price; or it leaves dust and the order is worth
      exactly the cost of what was held. */
  predicate UnmarkedIsExact(h: Holding, delta: real, reference: real, eps: real) {
    if Dropped(h, delta, eps) == 0.0 then !Opposite(h.quantity, delta) || h.averageEntry == reference
    else Cost(h) == -Worth(delta, reference)
  }

  /** After a fill at the reference price, for every fill, dust or not. */
  lemma ProjectionOfUnmarkedSymbol(
    st: LedgerState, t: Terms, reference: real, fee: real, marks: map<string, real>, eps: real)
    requires eps >= 0.0 && WellFormed(st, eps) && FillsUpTo(t, t.quantity, reference) && t.symbol !in marks
    ensures var after := Apply(st, FillOf(t, t.quantity, reference, fee), eps).holdings;
            Net(after, marks) == ProjectedNet(st.holdings, marks, t, reference)
            && Gross(after, marks) == ProjectedGross(st.holdings, marks, t, reference)
            <==> UnmarkedIsExact(Before(st, t.symbol), Signed(t.side, t.quantity), reference, eps)
  {
    hide Net, Gross, Settled, Sizes, Cost, Dropped, Worth, Current, StoredNotional, KeptCost, PnlOn, UnmarkedIsExact;
    var h, delta := Before(st, t.symbol), Signed(t.side, t.quantity);
    var settled := Settled(h, delta, reference, fee, eps);
    ExposureAfterStore(st.holdings, t.symbol, settled, marks, eps);
    UnmarkedIsAtCost(st, t.symbol, settled, marks, eps);
    WorthSum(t.quantity, 0.0, reference);
    UnmarkedCost(h, delta, reference, fee, eps);
  }

  lemma UnmarkedIsAtCost(st: LedgerState, symbol: string, h: Holding, marks: map<string, real>, eps: real)
    requires symbol !in marks
    ensures Current(st.holdings, marks, symbol) == Cost(Before(st, symbol))
    ensures StoredNotional(symbol, h, marks, eps) == KeptCost(h, eps)
  {
    hide Worth;
    WorthZero(0.0);
  }

  /** The cost kept after a fill at some price, against old cost plus the price paid. */
  lemma UnmarkedCost(h: Holding, delta: real, price: real, fee: real, eps: real)
    requires eps >= 0.0 && Startable(h, eps) && delta != 0.0
    ensures KeptCost(Settled(h, delta, price, fee, eps), eps) == Cost(h) + Worth(delta, price)
        <==> UnmarkedIsExact(h, delta, price, eps)
  {
    hide Blended, PnlOn, KeptCost, Cost, Settled, Worth;
    if Dropped(h, delta, eps) != 0.0 {
      DroppedCostsNothing(h, delta, price, fee, eps);
    } else {
      SettleBalance(h, delta, price, fee, eps);
      WorthZero(BookedAt(h, delta, price));
      assert Worth(delta, price) == delta * price by { ProductIsWorth(delta, price); }
      if Opposite(h.quantity, delta) {
        PnlOnZeroOnlyAtEntry(h, price, ClosedBy(h.quantity, delta, eps));
      } else {
        NothingClosed(h, price);
      }
    }
  }

  lemma ProductIsWorth(x: real, y: real)
    ensures Worth(x, y) == x * y
  {
  }

  lemma DroppedCostsNothing(h: Holding, delta: real, price: real, fee: real, eps: real)
    requires eps >= 0.0 && Startable(h, eps) && delta != 0.0 && Dropped(h, delta, eps) != 0.0
    ensures KeptCost(Settled(h, delta, price, fee, eps), eps) == 0.0
  {
    hide Blended, PnlOn, Cost;
  }

  // ---------- an accepted order never trips the guard ----------

  ghost predicate WithinLimits(positions: map<string, Holding>, marks: map<string, real>, l: Limits) {
    Gross(positions, marks) <= l.maxGross && Abs(Net(positions, marks)) <= l.maxNet
  }

  ghost function BreachesAfter(st: LedgerState, f: Fill, marks: map<string, real>, l: Limits, eps: real)
    : seq<RiskBreach>
    requires eps >= 0.0
  {
    BreachesOf(ExposureOf(Apply(st, f, eps).holdings, marks), l)
  }

  lemma CriticalMeansLimits(positions: map<string, Holding>, marks: map<string, real>, l: Limits)
    ensures HasCritical(BreachesOf(ExposureOf(positions, marks), l)) <==> !WithinLimits(positions, marks, l)
  {
    hide Sizes, Weights, Net, Gross, BreachesOf;
    ReportedBreaches(ExposureOf(positions, marks), l);
  }

  /** An accepted order whose symbol is marked at its reference price. */
  ghost predicate AcceptedAtMark(
    st: LedgerState, t: Terms, reference: real, marks: map<string, real>,
    override: Option<real>, bounds: NotionalBounds, l: Limits)
  {
    && t.symbol in marks && marks[t.symbol] == reference
    && Allowed(t, reference, st.holdings, marks, override, bounds, l)
  }

  /** How far a fill moves its symbol's recomputed notional, dust rule included. */
  function MoveOf(st: LedgerState, f: Fill, marks: map<string, real>, eps: real): real
    requires eps >= 0.0 && Accepted(f)
  {
    StoredNotional(f.symbol, Settled(Before(st, f.symbol), Delta(f), f.price, f.fee, eps), marks, eps)
      - Current(st.holdings, marks, f.symbol)
  }

  /** A marked symbol moves by the quantity filled, less the dust dropped, at its mark. */
  lemma MoveAtMark(st: LedgerState, f: Fill, marks: map<string, real>, eps: real)
    requires eps >= 0.0 && WellFormed(st, eps) && Accepted(f) && f.symbol in marks
    ensures MoveOf(st, f, marks, eps) == Worth(Delta(f) - DroppedBy(st, f, eps), marks[f.symbol])
  {
    hide Settled, StoredNotional, Current, Worth;
    MarkedNotional(st, f, marks, eps);
  }

  /** A symbol without a mark, valued at its entry price, moves by the cash of the fill plus what it
      realises before fees, less the booked value of the dust dropped. */
  lemma MoveAtCost(st: LedgerState, f: Fill, marks: map<string, real>, eps: real)
    requires eps >= 0.0 && WellFormed(st, eps) && Accepted(f) && f.symbol !in marks
    ensures var h := Before(st, f.symbol);
            MoveOf(st, f, marks, eps)
              == Worth(Delta(f), f.price) + GrossPnl(h, Delta(f), f.price, eps) - DustValue(h, Delta(f), f.price, eps)
  {
    hide Settled, StoredNotional, Current, Worth, KeptCost, Cost, GrossPnl, DustValue;
    var h := Before(st, f.symbol);
    UnmarkedIsAtCost(st, f.symbol, Settled(h, Delta(f), f.price, f.fee, eps), marks, eps);
    SettleBalance(h, Delta(f), f.price, f.fee, eps);
    ProductIsWorth(Delta(f), f.price);
  }

  /** Moving one symbol's exposure carries the portfolio beyond its gross or its net limit. */
  ghost predicate Overshoots(
    positions: map<string, Holding>, marks: map<string, real>, symbol: string, moved: real, l: Limits)
  {
    var current := Current(positions, marks, symbol);
    || Gross(positions, marks) - Abs(current) + Abs(current + moved) > l.maxGross
    || Abs(Net(positions, marks) + moved) > l.maxNet
  }

  /** Any fill, accepted beforehand or not, more than ordered or less, of a symbol with or without a mark:
      it leaves a CRITICAL breach exactly when its move overshoots. */
  lemma FillCritical(st: LedgerState, f: Fill, marks: map<string, real>, l: Limits, eps: real)
    requires eps >= 0.0 && Accepted(f)
    ensures HasCritical(BreachesAfter(st, f, marks, l, eps)) <==>
        Overshoots(st.holdings, marks, f.symbol, MoveOf(st, f, marks, eps), l)
  {
    hide Net, Gross, HasCritical, BreachesOf, ExposureOf, Current, Sizes, Settled, StoredNotional, PnlOn, Store;
    var settled := Settled(Before(st, f.symbol), Delta(f), f.price, f.fee, eps);
    ExposureAfterStore(st.holdings, f.symbol, settled, marks, eps);
    CriticalMeansLimits(Apply(st, f, eps).holdings, marks, l);
  }

  /** What any part of an accepted order does on a symbol without a mark: the price of the fill counts, and
      not the reference the order was judged at. At the reference the whole order is safe wherever the
      projection is exact. */
  lemma UnmarkedFillCritical(
    st: LedgerState, t: Terms, reference: real, amount: real, price: real, fee: real, marks: map<string, real>,
    override: Option<real>, bounds: NotionalBounds, l: Limits, eps: real)
    requires eps >= 0.0 && WellFormed(st, eps) && FillsUpTo(t, amount, price) && t.symbol !in marks
    requires Allowed(t, reference, st.holdings, marks, override, bounds, l)
    ensures var f, h, delta := FillOf(t, amount, price, fee), Before(st, t.symbol), Signed(t.side, amount);
            var moved := Worth(delta, price) + GrossPnl(h, delta, price, eps) - DustValue(h, delta, price, eps);
            var critical := HasCritical(BreachesAfter(st, f, marks, l, eps));
            && (critical <==> Overshoots(st.holdings, marks, t.symbol, moved, l))
            && (amount == t.quantity && price == reference && UnmarkedIsExact(h, delta, reference, eps) ==> !critical)
  {
    hide Net, Gross, HasCritical, BreachesOf, ExposureOf, Current, Worth, Apply, GrossPnl, DustValue, Allowed,
         ProjectedWeight, UnmarkedIsExact, Overshoots, MoveOf;
    var f := FillOf(t, amount, price, fee);
    FillCritical(st, f, marks, l, eps);
    MoveAtCost(st, f, marks, eps);
    if amount == t.quantity && price == reference {
      ProjectionOfUnmarkedSymbol(st, t, reference, fee, marks, eps);
      AllowedMeans(t, reference, st.holdings, marks, override, bounds, l);
      CriticalMeansLimits(Apply(st, f, eps).holdings, marks, l);
    }
  }

  /** Without a mark no dust is needed: an order accepted at a price of one under a gross limit of one,
      filled at two. */
  lemma UnmarkedFillMayBreach()
    ensures var t, marks, l := Terms("X", Buy, 1.0), map[], Limits(1.0, 10.0, 1.0);
            && Allowed(t, 1.0, EMPTY.holdings, marks, None, NotionalBounds(0.0, 10.0), l)
            && DroppedBy(EMPTY, FillOf(t, 1.0, 2.0, 0.0), 0.01) == 0.0
            && HasCritical(BreachesAfter(EMPTY, FillOf(t, 1.0, 2.0, 0.0), marks, l, 0.01))
  {
    hide HasCritical, BreachesOf, ExposureOf, Apply, Net, Gross, Sizes, Allowed, Overshoots, Worth, GrossPnl, DustValue,
         UnmarkedIsExact;
    var t, l := Terms("X", Buy, 1.0), Limits(1.0, 10.0, 1.0);
    var marks: map<string, real> := map[];
    FirstUnitIsAllowed(t, marks, l);
    UnmarkedFillCritical(EMPTY, t, 1.0, 1.0, 2.0, 0.0, marks, None, NotionalBounds(0.0, 10.0), l, 0.01);
    OpeningAtTwo(marks, l);
  }

  lemma FirstUnitIsAllowed(t: Terms, marks: map<string, real>, l: Limits)
    requires t == Terms("X", Buy, 1.0) && l == Limits(1.0, 10.0, 1.0)
    ensures Allowed(t, 1.0, EMPTY.holdings, marks, None, NotionalBounds(0.0, 10.0), l)
  {
    hide Allowed, Net, Gross;
    NothingHeld(marks);
    AllowedMeans(t, 1.0, EMPTY.holdings, marks, None, NotionalBounds(0.0, 10.0), l);
  }

  lemma OpeningAtTwo(marks: map<string, real>, l: Limits)
    requires l == Limits(1.0, 10.0, 1.0)
    ensures Overshoots(EMPTY.holdings, marks, "X",
                       Worth(1.0, 2.0) + GrossPnl(FLAT, 1.0, 2.0, 0.01) - DustValue(FLAT, 1.0, 2.0, 0.01), l)
  {
    hide Net, Gross;
    NothingHeld(marks);
  }

  lemma NothingHeld(marks: map<string, real>)
    ensures Net(EMPTY.holdings, marks) == 0.0 && Gross(EMPTY.holdings, marks) == 0.0
  {
    assert Notionals(EMPTY.holdings, marks) == map[] && Sizes(EMPTY.holdings, marks) == map[];
  }

  /** The whole order filled. The gross limit holds whatever the dust rule does; a CRITICAL breach
      needs dropped dust that carries the net exposure past its limit. */
  lemma FullFillCritical(
    st: LedgerState, t: Terms, reference: real, price: real, fee: real, marks: map<string, real>,
    override: Option<real>, bounds: NotionalBounds, l: Limits, eps: real)
    requires eps >= 0.0 && WellFormed(st, eps) && FillsUpTo(t, t.quantity, price)
    requires AcceptedAtMark(st, t, reference, marks, override, bounds, l)
    ensures var f := FillOf(t, t.quantity, price, fee);
            var dropped := DroppedBy(st, f, eps);
            && Gross(Apply(st, f, eps).holdings, marks) <= l.maxGross
            && (HasCritical(BreachesAfter(st, f, marks, l, eps)) <==>
                Abs(ProjectedNet(st.holdings, marks, t, reference) - Worth(dropped, reference)) > l.maxNet)
            && (dropped == 0.0 ==> !HasCritical(BreachesAfter(st, f, marks, l, eps)))
  {
    hide Allowed, Net, Gross, Apply, HasCritical, BreachesOf, ExposureOf, Current, DroppedBy, Incoming, ProjectedWeight,
         Worth, Sizes, ProjectionGap;
    var f := FillOf(t, t.quantity, price, fee);
    var dropped := DroppedBy(st, f, eps);
    ExposureAfterFill(st, f, marks, eps);
    CriticalMeansLimits(Apply(st, f, eps).holdings, marks, l);
    MoveAgainstProjection(t, reference, reference, dropped);
    AllowedMeans(t, reference, st.holdings, marks, override, bounds, l);
    if dropped == 0.0 {
      WorthZero(reference);
    } else {
      DroppedLeavesNothing(st, f, marks, eps);
    }
  }

  lemma DroppedLeavesNothing(st: LedgerState, f: Fill, marks: map<string, real>, eps: real)
    requires Accepted(f) && f.symbol in marks && DroppedBy(st, f, eps) != 0.0
    ensures Current(st.holdings, marks, f.symbol) + Worth(Delta(f) - DroppedBy(st, f, eps), marks[f.symbol]) == 0.0
  {
    hide Worth;
    var h := Before(st, f.symbol);
    WorthSum(h.quantity, Delta(f) - DroppedBy(st, f, eps), marks[f.symbol]);
    WorthZero(marks[f.symbol]);
  }

  /** What any part of an accepted order does, dust included: a CRITICAL breach exactly when the move
      overshoots. From within the limits only the net limit can go, and without dust nothing can. */
  lemma PartialFillCritical(
    st: LedgerState, t: Terms, reference: real, amount: real, price: real, fee: real, marks: map<string, real>,
    override: Option<real>, bounds: NotionalBounds, l: Limits, eps: real)
    requires eps >= 0.0 && WellFormed(st, eps) && FillsUpTo(t, amount, price)
    requires AcceptedAtMark(st, t, reference, marks, override, bounds, l)
    ensures var f := FillOf(t, amount, price, fee);
            var moved := MoveOf(st, f, marks, eps);
            var critical := HasCritical(BreachesAfter(st, f, marks, l, eps));
            && (critical <==> Overshoots(st.holdings, marks, t.symbol, moved, l))
            && (WithinLimits(st.holdings, marks, l) ==>
                && Gross(Apply(st, f, eps).holdings, marks) <= l.maxGross
                && (critical <==> Abs(Net(st.holdings, marks) + moved) > l.maxNet)
                && (DroppedBy(st, f, eps) == 0.0 ==> !critical))
  {
    hide Allowed, Net, Gross, Apply, HasCritical, BreachesOf, ExposureOf, Current, DroppedBy, Incoming, ProjectedWeight,
         Worth, Sizes, MoveOf;
    var f := FillOf(t, amount, price, fee);
    FillCritical(st, f, marks, l, eps);
    MoveAtMark(st, f, marks, eps);
    ExposureAfterFill(st, f, marks, eps);
    AllowedMeans(t, reference, st.holdings, marks, override, bounds, l);
    if DroppedBy(st, f, eps) == 0.0 {
      PartOfTheMove(t, amount, reference);
    } else {
      DroppedLeavesNothing(st, f, marks, eps);
    }
  }

  /** A part of an order moves the symbol in the same direction, and no further. */
  lemma PartOfTheMove(t: Terms, amount: real, reference: real)
    requires 0.0 < amount <= t.quantity && reference > 0.0
    ensures var part, whole := Worth(Signed(t.side, amount) - 0.0, reference), Incoming(t, reference);
            if t.side == Buy then 0.0 < part <= whole else whole <= part < 0.0
  {
    hide Worth;
    WorthSum(amount, 0.0, reference);
    WorthMono(amount, t.quantity, reference);
    WorthSign(amount, reference);
  }

  lemma OnePositionExposure(symbol: string, h: Holding, marks: map<string, real>)
    ensures Net(map[symbol := h], marks) == Notional(symbol, h, marks)
    ensures Gross(map[symbol := h], marks) == Abs(Notional(symbol, h, marks))
  {
    hide Notional;
    var none: map<string, Holding> := map[];
    assert Notionals(none, marks) == map[] && Sizes(none, marks) == map[];
    assert Notionals(map[symbol := h], marks) == Notionals(none, marks)[symbol := Notional(symbol, h, marks)];
    assert Sizes(map[symbol := h], marks) == Sizes(none, marks)[symbol := Abs(Notional(symbol, h, marks))];
    SumUpdate(Notionals(none, marks), symbol, Notional(symbol, h, marks));
    SumUpdate(Sizes(none, marks), symbol, Abs(Notional(symbol, h, marks)));
  }

  /** Within limits before is needed: a partial fill of an accepted, exposure-reducing order can
      leave the gross limit exceeded. */
  lemma PartialFillMayStayCritical()
    ensures var st := LedgerState(map["X" := Holding(11.0, 1.0, 0.0, 0.0)], [], 0.0);
            var t := Terms("X", Sell, 2.0);
            var marks := map["X" := 10.0];
            var l := Limits(100.0, 1000.0, 1.0);
            && AcceptedAtMark(st, t, 10.0, marks, None, NotionalBounds(0.0, 50.0), l)
            && HasCritical(BreachesAfter(st, FillOf(t, 0.5, 10.0, 0.0), marks, l, 0.0))
  {
    hide BreachesAfter, HasCritical, Apply, Net, Gross, Sizes, MoveOf, Allowed;
    var h := Holding(11.0, 1.0, 0.0, 0.0);
    var st := LedgerState(map["X" := h], [], 0.0);
    var marks := map["X" := 10.0];
    OnePositionExposure("X", h, marks);
    var t, l := Terms("X", Sell, 2.0), Limits(100.0, 1000.0, 1.0);
    AllowedMeans(t, 10.0, st.holdings, marks, None, NotionalBounds(0.0, 50.0), l);
    PartialFillCritical(st, t, 10.0, 0.5, 10.0, 0.0, marks, None, NotionalBounds(0.0, 50.0), l, 0.0);
    MoveAtMark(st, FillOf(t, 0.5, 10.0, 0.0), marks, 0.0);
  }

  /** Dropped dust can carry the net limit away: an accepted sell that closes all but half an
      EPSILON of a long, next to an equally large short that then fills the net exposure alone. */
  lemma DustMayBreachTheNetLimit()
    ensures var st := LedgerState(
              map["X" := Holding(10.0, 1.0, 0.0, 0.0), "Y" := Holding(-10.0, 1.0, 0.0, 0.0)], [], 0.0);
            var t := Terms("X", Sell, 9.5);
            var marks := map["X" := 1.0, "Y" := 1.0];
            var l := Limits(100.0, 9.5, 1.0);
            && AcceptedAtMark(st, t, 1.0, marks, None, NotionalBounds(0.0, 50.0), l)
            && HasCritical(BreachesAfter(st, FillOf(t, 9.5, 1.0, 0.0), marks, l, 1.0))
  {
    hide AcceptedAtMark, BreachesAfter, HasCritical, WithinLimits;
    var marks := map["X" := 1.0, "Y" := 1.0];
    var st := LongAndShort(marks);
    SellingTheLong(st, 9.5, marks);
  }

  /** So can the dust of a partial fill, from within the limits: an accepted sell of 9.6, filled 9.5. */
  lemma DustOfAPartialFillMayBreach()
    ensures var st := LedgerState(
              map["X" := Holding(10.0, 1.0, 0.0, 0.0), "Y" := Holding(-10.0, 1.0, 0.0, 0.0)], [], 0.0);
            var t := Terms("X", Sell, 9.6);
            var marks := map["X" := 1.0, "Y" := 1.0];
            var l := Limits(100.0, 9.6, 1.0);
            && AcceptedAtMark(st, t, 1.0, marks, None, NotionalBounds(0.0, 50.0), l)
            && WithinLimits(st.holdings, marks, l)
            && HasCritical(BreachesAfter(st, FillOf(t, 9.5, 1.0, 0.0), marks, l, 1.0))
  {
    hide AcceptedAtMark, BreachesAfter, HasCritical, WithinLimits;
    var marks := map["X" := 1.0, "Y" := 1.0];
    var st := LongAndShort(marks);
    SellingTheLong(st, 9.6, marks);
  }

  /** A net limit of just the order's size accepts the sell and breaks on what 9.5 of it leave. */
  lemma SellingTheLong(st: LedgerState, size: real, marks: map<string, real>)
    requires marks == map["X" := 1.0, "Y" := 1.0] && 9.5 <= size < 10.0
    requires st == LedgerState(
               map["X" := Holding(10.0, 1.0, 0.0, 0.0), "Y" := Holding(-10.0, 1.0, 0.0, 0.0)], [], 0.0)
    requires Net(st.holdings, marks) == 0.0 && Gross(st.holdings, marks) == 20.0
    ensures var t, l := Terms("X", Sell, size), Limits(100.0, size, 1.0);
            && AcceptedAtMark(st, t, 1.0, marks, None, NotionalBounds(0.0, 50.0), l)
            && WithinLimits(st.holdings, marks, l)
            && HasCritical(BreachesAfter(st, FillOf(t, 9.5, 1.0, 0.0), marks, l, 1.0))
  {
    hide BreachesAfter, HasCritical, Apply, Net, Gross, Overshoots, MoveOf, Allowed;
    var t, l := Terms("X", Sell, size), Limits(100.0, size, 1.0);
    SellIsAccepted(st, size, marks);
    var f := FillOf(t, 9.5, 1.0, 0.0);
    PartialFillCritical(st, t, 1.0, 9.5, 1.0, 0.0, marks, None, NotionalBounds(0.0, 50.0), l, 1.0);
    MoveAtMark(st, f, marks, 1.0);
    assert DroppedBy(st, f, 1.0) == 0.5;
    assert MoveOf(st, f, marks, 1.0) == -10.0;
  }

  lemma SellIsAccepted(st: LedgerState, size: real, marks: map<string, real>)
    requires marks == map["X" := 1.0, "Y" := 1.0] && 9.5 <= size < 10.0
    requires st == LedgerState(
               map["X" := Holding(10.0, 1.0, 0.0, 0.0), "Y" := Holding(-10.0, 1.0, 0.0, 0.0)], [], 0.0)
    requires Net(st.holdings, marks) == 0.0 && Gross(st.holdings, marks) == 20.0
    ensures Allowed(Terms("X", Sell, size), 1.0, st.holdings, marks, None, NotionalBounds(0.0, 50.0),
                    Limits(100.0, size, 1.0))
  {
    hide Allowed, Net, Gross;
    AllowedMeans(Terms("X", Sell, size), 1.0, st.holdings, marks, None, NotionalBounds(0.0, 50.0),
                 Limits(100.0, size, 1.0));
    QuotientAtMost(10.0 - size, 20.0 - size, 1.0);
  }

  /** Ten units long in X against ten short in Y, at a mark of one. */
  lemma LongAndShort(marks: map<string, real>) returns (st: LedgerState)
    requires marks == map["X" := 1.0, "Y" := 1.0]
    ensures st == LedgerState(
              map["X" := Holding(10.0, 1.0, 0.0, 0.0), "Y" := Holding(-10.0, 1.0, 0.0, 0.0)], [], 0.0)
    ensures Net(st.holdings, marks) == 0.0 && Gross(st.holdings, marks) == 20.0
  {
    hide Net, Gross, Sizes;
    var x, y := Holding(10.0, 1.0, 0.0, 0.0), Holding(-10.0, 1.0, 0.0, 0.0);
    var one := map["Y" := y];
    st := LedgerState(map["X" := x, "Y" := y], [], 0.0);
    OnePositionExposure("Y", y, marks);
    assert Store(one, "X", x, 1.0) == st.holdings;
    ExposureAfterStore(one, "X", x, marks, 1.0);
  }

  /** Every other symbol still weighs at most the limit in a gross exposure. */
  ghost predicate OthersStayLight(
    positions: map<string, Holding>, marks: map<string, real>, symbol: string, gross: real, l: Limits)
  {
    forall other | other in positions && other != symbol ::
      Sizes(positions, marks)[other] <= Worth(l.maxWeight, gross)
  }

  /** The gross exposure a move of one symbol leaves. */
  ghost function MovedGross(
    positions: map<string, Holding>, marks: map<string, real>, symbol: string, moved: real): real
  {
    Gross(positions, marks) - Abs(Current(positions, marks, symbol)) + Abs(Current(positions, marks, symbol) + moved)
  }

  /** A complete fill at the mark reports no breach at all exactly when the net limit holds after the
      dust rule and the other symbols stay light in the gross it leaves; without dust that gross is the
      projected one and the net limit holds by itself. */
  lemma FullFillClean(
    st: LedgerState, t: Terms, reference: real, price: real, fee: real, marks: map<string, real>,
    override: Option<real>, bounds: NotionalBounds, l: Limits, eps: real)
    requires eps >= 0.0 && WellFormed(st, eps) && FillsUpTo(t, t.quantity, price) && ValidLimits(l)
    requires AcceptedAtMark(st, t, reference, marks, override, bounds, l)
    ensures var f := FillOf(t, t.quantity, price, fee);
            var moved := MoveOf(st, f, marks, eps);
            var gross := MovedGross(st.holdings, marks, t.symbol, moved);
            && (BreachesAfter(st, f, marks, l, eps) == [] <==>
                Abs(Net(st.holdings, marks) + moved) <= l.maxNet
                && OthersStayLight(st.holdings, marks, t.symbol, gross, l))
            && (DroppedBy(st, f, eps) == 0.0 ==>
                gross == ProjectedGross(st.holdings, marks, t, reference)
                && Abs(Net(st.holdings, marks) + moved) <= l.maxNet)
  {
    hide Allowed, Net, Gross, Apply, HasCritical, BreachesOf, Current, DroppedBy, Incoming, Sizes, Share, Worth,
         ProjectionGap, ProjectedWeight, MoveOf;
    var f := FillOf(t, t.quantity, price, fee);
    var after := Apply(st, f, eps).holdings;
    MoveAtMark(st, f, marks, eps);
    ExposureAfterFill(st, f, marks, eps);
    MoveAgainstProjection(t, reference, reference, DroppedBy(st, f, eps));
    WorthZero(reference);
    AllowedMeans(t, reference, st.holdings, marks, override, bounds, l);
    FullFillCritical(st, t, reference, price, fee, marks, override, bounds, l, eps);
    NoBreachMeans(after, marks, l);
    SameOthers(st.holdings, after, marks, t.symbol);
    if DroppedBy(st, f, eps) == 0.0 {
      OwnWeight(st, t, reference, marks, override, bounds, l, after);
    } else {
      DroppedLeavesNothing(st, f, marks, eps);
      PartAtMostGross(after, marks, t.symbol);
      WorthMonoPrice(l.maxWeight, 0.0, Gross(after, marks));
      WorthZero(l.maxWeight);
    }
  }

  /** No breach is reported exactly when both portfolio limits hold and every symbol is light. */
  lemma NoBreachMeans(positions: map<string, Holding>, marks: map<string, real>, l: Limits)
    requires ValidLimits(l)
    ensures BreachesOf(ExposureOf(positions, marks), l) == [] <==>
        && WithinLimits(positions, marks, l)
        && forall symbol | symbol in positions ::
             At(Sizes(positions, marks), symbol) <= Worth(l.maxWeight, Gross(positions, marks))
  {
    hide Net, Gross, HasCritical, BreachesOf, Worth, Share, Notional;
    var s := ExposureOf(positions, marks);
    ReportedBreaches(s, l);
    forall symbol | symbol in positions
      ensures s.symbolWeights[symbol] > l.maxWeight <==>
          Sizes(positions, marks)[symbol] > Worth(l.maxWeight, s.gross)
    {
      PartAtMostGross(positions, marks, symbol);
      ShareAgainstLimit(Sizes(positions, marks)[symbol], s.gross, l.maxWeight);
    }
    var breaches := BreachesOf(s, l);
    if breaches != [] {
      assert breaches[0] in breaches;
    } else {
      assert GrossLimit !in breaches && NetLimit !in breaches;
      forall symbol | symbol in positions
        ensures s.symbolWeights[symbol] <= l.maxWeight
      {
        assert SymbolWeightLimit(symbol) !in breaches;
      }
    }
  }

  lemma PartAtMostGross(positions: map<string, Holding>, marks: map<string, real>, symbol: string)
    ensures 0.0 <= At(Sizes(positions, marks), symbol) <= Gross(positions, marks)
  {
    hide Notional;
    PartAtMostSum(Sizes(positions, marks), symbol);
  }

  lemma ShareAgainstLimit(size: real, gross: real, limit: real)
    requires 0.0 <= size <= gross && limit > 0.0
    ensures Share(size, gross) > limit <==> size > Worth(limit, gross)
  {
    if gross > 0.0 {
      QuotientAtMost(size, gross, limit);
    }
  }

  /** The traded symbol's own recomputed size is the one the validator weighed. */
  lemma OwnWeight(
    st: LedgerState, t: Terms, reference: real, marks: map<string, real>,
    override: Option<real>, bounds: NotionalBounds, l: Limits, after: map<string, Holding>)
    requires Allowed(t, reference, st.holdings, marks, override, bounds, l) && l.maxWeight > 0.0
    requires At(Sizes(after, marks), t.symbol)
          == Abs(Current(st.holdings, marks, t.symbol) + Incoming(t, reference))
    requires Gross(after, marks) == ProjectedGross(st.holdings, marks, t, reference)
    ensures At(Sizes(after, marks), t.symbol) <= Worth(l.maxWeight, ProjectedGross(st.holdings, marks, t, reference))
  {
    hide Allowed, Gross, Net, Current, Worth, Share, Sizes, Incoming;
    AllowedMeans(t, reference, st.holdings, marks, override, bounds, l);
    PartAtMostGross(after, marks, t.symbol);
    ShareAgainstLimit(At(Sizes(after, marks), t.symbol), Gross(after, marks), l.maxWeight);
  }

  lemma SameOthers(before: map<string, Holding>, after: map<string, Holding>, marks: map<string, real>, symbol: string)
    requires Sizes(after, marks) - {symbol} == Sizes(before, marks) - {symbol}
    ensures forall other | other != symbol :: other in after <==> other in before
    ensures forall other | other in before && other != symbol ::
        At(Sizes(after, marks), other) == Sizes(before, marks)[other]
  {
    hide Notional;
    var x, y := Sizes(after, marks) - {symbol}, Sizes(before, marks) - {symbol};
    forall other | other != symbol
      ensures other in after <==> other in before
    {
      assert other in x <==> other in after;
      assert other in y <==> other in before;
    }
    forall other | other in before && other != symbol
      ensures At(Sizes(after, marks), other) == Sizes(before, marks)[other]
    {
      assert x[other] == y[other];
    }
  }

  /** In particular: no breach before and a projected gross that does not shrink give no breach after. */
  lemma FullFillNoBreach(
    st: LedgerState, t: Terms, reference: real, price: real, fee: real, marks: map<string, real>,
    override: Option<real>, bounds: NotionalBounds, l: Limits, eps: real)
    requires eps >= 0.0 && WellFormed(st, eps) && FillsUpTo(t, t.quantity, price) && ValidLimits(l)
    requires AcceptedAtMark(st, t, reference, marks, override, bounds, l)
    requires BreachesOf(ExposureOf(st.holdings, marks), l) == []
    requires ProjectedGross(st.holdings, marks, t, reference) >= Gross(st.holdings, marks)
    ensures BreachesAfter(st, FillOf(t, t.quantity, price, fee), marks, l, eps) == []
  {
    hide Net, Gross, BreachesOf, Apply, ExposureOf, Worth, DroppedBy, Sizes, Share, Allowed, Current, Incoming, MoveOf;
    var f := FillOf(t, t.quantity, price, fee);
    var gross := MovedGross(st.holdings, marks, t.symbol, MoveOf(st, f, marks, eps));
    NoBreachMeans(st.holdings, marks, l);
    SizesCover(st.holdings, marks);
    FullFillClean(st, t, reference, price, fee, marks, override, bounds, l, eps);
    if DroppedBy(st, f, eps) != 0.0 {
      GrowingDustMovesNothing(st, t, reference, price, fee, marks, override, bounds, l, eps);
    }
    WorthMonoPrice(l.maxWeight, Gross(st.holdings, marks), gross);
  }

  /** A fill that drops dust without shrinking the gross was dust itself, on a symbol not held. */
  lemma GrowingDustMovesNothing(
    st: LedgerState, t: Terms, reference: real, price: real, fee: real, marks: map<string, real>,
    override: Option<real>, bounds: NotionalBounds, l: Limits, eps: real)
    requires eps >= 0.0 && WellFormed(st, eps) && FillsUpTo(t, t.quantity, price)
    requires AcceptedAtMark(st, t, reference, marks, override, bounds, l)
    requires DroppedBy(st, FillOf(t, t.quantity, price, fee), eps) != 0.0
    requires ProjectedGross(st.holdings, marks, t, reference) >= Gross(st.holdings, marks)
    ensures MoveOf(st, FillOf(t, t.quantity, price, fee), marks, eps) == 0.0
    ensures Current(st.holdings, marks, t.symbol) == 0.0
  {
    hide Allowed, Net, Gross, Worth, ProjectedWeight, MoveOf;
    AllowedMeans(t, reference, st.holdings, marks, override, bounds, l);
    MoveAtMark(st, FillOf(t, t.quantity, price, fee), marks, eps);
    var h, delta := Before(st, t.symbol), Signed(t.side, t.quantity);
    WorthZero(reference);
    WorthSum(h.quantity, delta, reference);
    WorthSum(t.quantity, 0.0, reference);
    SizeGrows(h.quantity, reference);
    SizeGrows(h.quantity + delta, reference);
    if Abs(h.quantity + delta) < Abs(h.quantity) {
      WorthSign(Abs(h.quantity) - Abs(h.quantity + delta), reference);
      WorthSum(Abs(h.quantity), -Abs(h.quantity + delta), reference);
      WorthSum(Abs(h.quantity + delta), 0.0, reference);
    }
  }

  lemma SizeGrows(quantity: real, price: real)
    requires price > 0.0
    ensures Abs(Worth(quantity, price)) == Worth(Abs(quantity), price)
  {
    hide Worth;
    WorthSign(quantity, price);
    WorthSum(quantity, 0.0, price);
  }

  lemma SizesCover(positions: map<string, Holding>, marks: map<string, real>)
    ensures Sizes(positions, marks).Keys == positions.Keys
  {
    hide Notional;
  }
}
