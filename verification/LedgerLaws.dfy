/** What the position ledger keeps over every run of fills: the accounting identity up
    to dropped dust, invariance under splitting a fill, and snapshot transparency. */
module LedgerLaws {
  import opened Common
  import opened RealSums
  import opened Ledger

  // ---------- the shape of every reachable ledger ----------

  predicate SoundHolding(h: Holding, eps: real) {
    Abs(h.quantity) > eps && h.averageEntry > 0.0
  }

  predicate WellFormed(st: LedgerState, eps: real) {
    forall symbol | symbol in st.holdings :: SoundHolding(st.holdings[symbol], eps)
  }

  /** A flat start or a sound holding: what a fill can find under its symbol. */
  predicate Startable(h: Holding, eps: real) {
    h == FLAT || SoundHolding(h, eps)
  }

  /** The blended price is between both prices and carries exactly the cost of both parts. */
  lemma BlendedPrice(w: real, a: real, v: real, p: real)
    requires w > 0.0 && v > 0.0
    ensures (w + v) * Blended(w, a, v, p) == w * a + v * p
    ensures Min(a, p) <= Blended(w, a, v, p) <= Max(a, p)
  {
    var total, cost := w + v, w * a + v * p;
    var average := cost / total;
    assert average * total == cost;
    BetweenParts(w, a, v, p);
    CompareScaled(Min(a, p), average, total);
    CompareScaled(average, Max(a, p), total);
  }

  lemma BetweenParts(w: real, a: real, v: real, p: real)
    requires w > 0.0 && v > 0.0
    ensures Min(a, p) * (w + v) <= w * a + v * p <= Max(a, p) * (w + v)
  {
    if a <= p {
      ScaleMono(a, p, v);
      ScaleMono(a, p, w);
    } else {
      ScaleMono(p, a, v);
      ScaleMono(p, a, w);
    }
  }

  /** Adding to a position: the new cost is the old cost plus the price paid. */
  lemma AddedCost(h: Holding, delta: real, price: real, fee: real, eps: real)
    requires eps >= 0.0 && SoundHolding(h, eps) && delta != 0.0 && !Opposite(h.quantity, delta)
    ensures var after := Settled(h, delta, price, fee, eps);
            && after.quantity * after.averageEntry == h.quantity * h.averageEntry + delta * price
            && Min(h.averageEntry, price) <= after.averageEntry <= Max(h.averageEntry, price)
            && Abs(after.quantity) == Abs(h.quantity) + Abs(delta)
  {
    hide Blended;
    BlendedPrice(Abs(h.quantity), h.averageEntry, Abs(delta), price);
  }

  lemma SettledIsSound(h: Holding, delta: real, price: real, fee: real, eps: real)
    requires eps >= 0.0 && Startable(h, eps) && delta != 0.0 && price > 0.0
    ensures var after := Settled(h, delta, price, fee, eps);
            Abs(after.quantity) > eps ==>
              SoundHolding(after, eps) && after.averageEntry <= Max(h.averageEntry, price)
  {
    if SoundHolding(h, eps) && !Opposite(h.quantity, delta) {
      AddedCost(h, delta, price, fee, eps);
    }
  }

  lemma ApplyKeepsWellFormed(st: LedgerState, f: Fill, eps: real)
    requires eps >= 0.0 && WellFormed(st, eps)
    ensures WellFormed(Apply(st, f, eps), eps)
  {
    if Accepted(f) {
      SettledIsSound(Before(st, f.symbol), Delta(f), f.price, f.fee, eps);
    }
  }

  lemma {:induction false} ReplayKeepsWellFormed(st: LedgerState, fills: seq<Fill>, eps: real)
    requires eps >= 0.0 && WellFormed(st, eps)
    ensures WellFormed(Replay(st, fills, eps), eps)
  {
    if fills != [] {
      ReplayKeepsWellFormed(st, fills[..|fills| - 1], eps);
      ApplyKeepsWellFormed(Replay(st, fills[..|fills| - 1], eps), fills[|fills| - 1], eps);
    }
  }

  // ---------- the accounting identity ----------

  /** The signed quantity the dust rule throws away; 0 when it throws nothing away. */
  function Dropped(h: Holding, delta: real, eps: real): real {
    if Abs(h.quantity + delta) <= eps then h.quantity + delta else 0.0
  }

  /** What a fill books its remainder at: its own price once it reaches past the position. */
  function BookedAt(h: Holding, delta: real, price: real): real {
    if Abs(delta) > Abs(h.quantity) then price else h.averageEntry
  }

  /** The dropped quantity at the price it was booked at. */
  function DustValue(h: Holding, delta: real, price: real, eps: real): real {
    Worth(Dropped(h, delta, eps), BookedAt(h, delta, price))
  }

  function KeptCost(h: Holding, eps: real): real {
    if Abs(h.quantity) <= eps then 0.0 else Cost(h)
  }

  /** One fill: what it realises plus the cash it moves accounts for the change of cost. */
  lemma SettleBalance(h: Holding, delta: real, price: real, fee: real, eps: real)
    requires eps >= 0.0 && Startable(h, eps) && delta != 0.0
    ensures GrossPnl(h, delta, price, eps) - KeptCost(Settled(h, delta, price, fee, eps), eps)
         == DustValue(h, delta, price, eps) - Cost(h) - delta * price
  {
    if h == FLAT {
      hide Blended;
    } else if !Opposite(h.quantity, delta) {
      hide Blended, PnlOn;
      AddedCost(h, delta, price, fee, eps);
      NothingClosed(h, price);
    } else {
      hide PnlOn, Cost, Settled, DustValue;
      ClosingPnl(h, delta, price, eps);
      ClosingCost(h, delta, price, fee, eps);
    }
  }

  lemma ClosingPnl(h: Holding, delta: real, price: real, eps: real)
    requires SoundHolding(h, eps) && Opposite(h.quantity, delta)
    ensures GrossPnl(h, delta, price, eps)
         == (h.quantity + delta) * BookedAt(h, delta, price) - Cost(h) - delta * price
  {
  }

  lemma ClosingCost(h: Holding, delta: real, price: real, fee: real, eps: real)
    requires eps >= 0.0 && SoundHolding(h, eps) && Opposite(h.quantity, delta)
    ensures KeptCost(Settled(h, delta, price, fee, eps), eps)
         == (h.quantity + delta) * BookedAt(h, delta, price) - DustValue(h, delta, price, eps)
  {
    hide PnlOn;
  }

  lemma DustIsBounded(h: Holding, delta: real, price: real, eps: real, bound: real)
    requires eps >= 0.0 && Startable(h, eps) && 0.0 < price <= bound && h.averageEntry <= bound
    ensures Abs(DustValue(h, delta, price, eps)) <= eps * bound
    ensures delta != 0.0 ==> (DustValue(h, delta, price, eps) == 0.0 <==> Dropped(h, delta, eps) == 0.0)
  {
    var at := BookedAt(h, delta, price);
    var dropped := Dropped(h, delta, eps);
    BoundedProduct(dropped, at, eps, bound);
    if at > 0.0 && dropped != 0.0 {
      AbsScale(dropped, at);
      ScaleStrict(0.0, Abs(dropped), at);
    }
  }

  lemma BoundedProduct(x: real, y: real, eps: real, bound: real)
    requires Abs(x) <= eps && 0.0 <= y <= bound
    ensures Abs(x * y) <= eps * bound
  {
    AbsScale(x, y);
    ScaleMono(Abs(x), eps, y);
    ScaleMono(y, bound, eps);
  }

  function Cost(h: Holding): real {
    Worth(h.quantity, h.averageEntry)
  }

  function EntryCosts(holdings: map<string, Holding>): map<string, real> {
    map symbol | symbol in holdings :: Cost(holdings[symbol])
  }

  function Values(holdings: map<string, Holding>, marks: string -> real): map<string, real> {
    map symbol | symbol in holdings :: Worth(holdings[symbol].quantity, marks(symbol))
  }

  function Gains(holdings: map<string, Holding>, marks: string -> real): map<string, real> {
    map symbol | symbol in holdings ::
      Worth(holdings[symbol].quantity, marks(symbol) - holdings[symbol].averageEntry)
  }

  /** Realised total minus the cost of what is held: the ledger's own idea of the cash. */
  ghost function BookCash(st: LedgerState): real {
    st.realizedTotal - Sum(EntryCosts(st.holdings))
  }

  /** What a fill needs to be booked at all. */
  predicate Bookable(f: Fill) {
    f.symbol != "" && f.quantity > 0.0 && f.price > 0.0 && f.side.Some?
  }

  /** Cash actually moved by a fill: paid for buys, received for sells, fees out. */
  function CashOf(f: Fill): real {
    if !Bookable(f) then 0.0
    else (if f.side == Some(Buy) then -(f.quantity * f.price) else f.quantity * f.price) - f.fee
  }

  function CashFlow(fills: seq<Fill>): real {
    if fills == [] then 0.0 else CashFlow(fills[..|fills| - 1]) + CashOf(fills[|fills| - 1])
  }

  function DustStep(st: LedgerState, f: Fill, eps: real): real {
    if Accepted(f) then DustValue(Before(st, f.symbol), Delta(f), f.price, eps) else 0.0
  }

  function DustOf(st: LedgerState, fills: seq<Fill>, eps: real): real
    requires eps >= 0.0
  {
    if fills == [] then 0.0
    else
      var earlier := fills[..|fills| - 1];
      DustOf(st, earlier, eps) + DustStep(Replay(st, earlier, eps), fills[|fills| - 1], eps)
  }

  lemma StoredCost(holdings: map<string, Holding>, symbol: string, h: Holding, eps: real)
    ensures Sum(EntryCosts(Store(holdings, symbol, h, eps)))
         == Sum(EntryCosts(holdings)) - At(EntryCosts(holdings), symbol) + KeptCost(h, eps)
  {
    hide Cost;
    if Abs(h.quantity) <= eps {
      assert EntryCosts(holdings - {symbol}) == EntryCosts(holdings) - {symbol};
      SumRemove(EntryCosts(holdings), symbol);
    } else {
      assert EntryCosts(holdings[symbol := h]) == EntryCosts(holdings)[symbol := Cost(h)];
      SumUpdate(EntryCosts(holdings), symbol, Cost(h));
    }
  }

  lemma CashMoved(f: Fill)
    requires Accepted(f)
    ensures CashOf(f) == -(Delta(f) * f.price) - f.fee
  {
  }

  lemma BookStep(st: LedgerState, f: Fill, eps: real)
    requires eps >= 0.0 && WellFormed(st, eps)
    ensures BookCash(Apply(st, f, eps)) == BookCash(st) + CashOf(f) + DustStep(st, f, eps)
  {
    hide GrossPnl, DustValue, Settled, Cost, CashOf, KeptCost, Store, EntryCosts, WellFormed, Startable;
    if Accepted(f) {
      var h := Before(st, f.symbol);
      CashMoved(f);
      CostBefore(st, f.symbol, eps);
      StoredCost(st.holdings, f.symbol, Settled(h, Delta(f), f.price, f.fee, eps), eps);
      SettleBalance(h, Delta(f), f.price, f.fee, eps);
    } else {
      assert CashOf(f) == 0.0 by { NoCashMoved(f); }
    }
  }

  lemma NoCashMoved(f: Fill)
    requires !Accepted(f)
    ensures CashOf(f) == 0.0
  {
  }

  lemma CostBefore(st: LedgerState, symbol: string, eps: real)
    requires WellFormed(st, eps)
    ensures Startable(Before(st, symbol), eps) && At(EntryCosts(st.holdings), symbol) == Cost(Before(st, symbol))
  {
  }

  lemma {:induction false} BookRun(st: LedgerState, fills: seq<Fill>, eps: real)
    requires eps >= 0.0 && WellFormed(st, eps)
    ensures BookCash(Replay(st, fills, eps)) == BookCash(st) + CashFlow(fills) + DustOf(st, fills, eps)
  {
    if fills != [] {
      var earlier := fills[..|fills| - 1];
      BookRun(st, earlier, eps);
      ReplayKeepsWellFormed(st, earlier, eps);
      BookStep(Replay(st, earlier, eps), fills[|fills| - 1], eps);
    }
  }

  lemma GainsAreValuesMinusCosts(holdings: map<string, Holding>, marks: string -> real)
    ensures Sum(Gains(holdings, marks)) == Sum(Values(holdings, marks)) - Sum(EntryCosts(holdings))
  {
    var gains, values, costs := Gains(holdings, marks), Values(holdings, marks), EntryCosts(holdings);
    forall symbol | symbol in values
      ensures gains[symbol] == values[symbol] - costs[symbol]
    {
    }
    SumDifference(values, costs, gains);
  }

  /** The accounting identity, for every run of fills and every choice of marks: realised plus
      unrealised profit is the net cash flow plus the market value, plus exactly the dust the
      ledger threw away. */
  lemma AccountingIdentity(fills: seq<Fill>, eps: real, marks: string -> real)
    requires eps >= 0.0
    ensures var st := Replay(EMPTY, fills, eps);
            st.realizedTotal + Sum(Gains(st.holdings, marks))
              == CashFlow(fills) + Sum(Values(st.holdings, marks)) + DustOf(EMPTY, fills, eps)
  {
    hide Replay, DustOf, CashFlow, Gains, Values;
    BookRun(EMPTY, fills, eps);
    assert EntryCosts(map[]) == map[];
    GainsAreValuesMinusCosts(Replay(EMPTY, fills, eps).holdings, marks);
  }

  predicate PricesAtMost(fills: seq<Fill>, bound: real) {
    forall f | f in fills :: f.price <= bound
  }

  predicate EntriesAtMost(st: LedgerState, bound: real) {
    forall symbol | symbol in st.holdings :: st.holdings[symbol].averageEntry <= bound
  }

  lemma {:induction false} EntriesStayBounded(fills: seq<Fill>, eps: real, bound: real)
    requires eps >= 0.0 && bound >= 0.0 && PricesAtMost(fills, bound)
    ensures EntriesAtMost(Replay(EMPTY, fills, eps), bound)
  {
    if fills != [] {
      var earlier, f := fills[..|fills| - 1], fills[|fills| - 1];
      EntriesStayBounded(earlier, eps, bound);
      ReplayKeepsWellFormed(EMPTY, earlier, eps);
      var st := Replay(EMPTY, earlier, eps);
      if Accepted(f) {
        SettledIsSound(Before(st, f.symbol), Delta(f), f.price, f.fee, eps);
      }
    }
  }

  lemma DustStepBound(st: LedgerState, f: Fill, eps: real, bound: real)
    requires eps >= 0.0 && bound >= 0.0 && f.price <= bound && WellFormed(st, eps) && EntriesAtMost(st, bound)
    ensures Abs(DustStep(st, f, eps)) <= eps * bound
  {
    hide DustValue;
    if Accepted(f) {
      DustIsBounded(Before(st, f.symbol), Delta(f), f.price, eps, bound);
    } else {
      ScaleMono(0.0, bound, eps);
    }
  }

  /** The dust never exceeds one EPSILON at the highest fill price per fill. */
  lemma {:induction false} DustBound(fills: seq<Fill>, eps: real, bound: real)
    requires eps >= 0.0 && bound >= 0.0 && PricesAtMost(fills, bound)
    ensures Abs(DustOf(EMPTY, fills, eps)) <= |fills| as real * (eps * bound)
  {
    hide DustStep, Apply;
    if fills != [] {
      var earlier, f := fills[..|fills| - 1], fills[|fills| - 1];
      DustBound(earlier, eps, bound);
      EntriesStayBounded(earlier, eps, bound);
      ReplayKeepsWellFormed(EMPTY, earlier, eps);
      DustStepBound(Replay(EMPTY, earlier, eps), f, eps, bound);
      OneMore(|earlier|, eps * bound);
    }
  }

  lemma OneMore(n: nat, x: real)
    ensures (n + 1) as real * x == n as real * x + x
  {
  }

  /** No fill of the run leaves a non-zero remainder of at most EPSILON. */
  predicate DropsNothing(fills: seq<Fill>, eps: real)
    requires eps >= 0.0
  {
    forall n: nat | n < |fills| && Accepted(fills[n]) ::
      Dropped(Before(Replay(EMPTY, fills[..n], eps), fills[n].symbol), Delta(fills[n]), eps) == 0.0
  }

  /** The dust is zero at every point of a run. */
  ghost predicate DustFree(fills: seq<Fill>, eps: real)
    requires eps >= 0.0
  {
    forall n: nat | n <= |fills| :: DustOf(EMPTY, fills[..n], eps) == 0.0
  }

  /** It is exactly when no fill drops a remainder. (At its end alone the dust of a long and that of a
      short can cancel.) */
  lemma {:induction false} NoDustNoError(fills: seq<Fill>, eps: real)
    requires eps >= 0.0
    ensures DustFree(fills, eps) <==> DropsNothing(fills, eps)
    ensures DustFree(fills, eps) ==> DustOf(EMPTY, fills, eps) == 0.0
    decreases |fills|
  {
    hide DustFree, DropsNothing, DustStep, DropsNothingAt, Replay;
    if fills == [] {
      EmptyRunIsDustFree(eps);
    } else {
      NoDustNoError(fills[..|fills| - 1], eps);
      LastDrop(fills, eps);
      LastDust(fills, eps);
      DustStepIsZero(fills, eps);
    }
  }

  lemma EmptyRunIsDustFree(eps: real)
    requires eps >= 0.0
    ensures DustFree([], eps) && DropsNothing([], eps)
  {
  }

  lemma LastDust(fills: seq<Fill>, eps: real)
    requires eps >= 0.0 && fills != []
    ensures var m := |fills| - 1;
            DustFree(fills, eps) <==>
            DustFree(fills[..m], eps) && DustOf(EMPTY, fills[..m], eps) == DustOf(EMPTY, fills, eps) == 0.0
  {
    hide DustOf;
    var m := |fills| - 1;
    var earlier := fills[..m];
    forall n: nat | n <= m ensures earlier[..n] == fills[..n] { }
    assert fills[..m + 1] == fills;
    if DustFree(fills, eps) {
      forall n: nat | n <= m ensures DustOf(EMPTY, earlier[..n], eps) == 0.0 {
        assert earlier[..n] == fills[..n];
      }
      assert DustOf(EMPTY, fills[..m + 1], eps) == 0.0 && DustOf(EMPTY, fills[..m], eps) == 0.0;
    }
    if DustFree(earlier, eps) && DustOf(EMPTY, fills, eps) == 0.0 {
      forall n: nat | n <= |fills| ensures DustOf(EMPTY, fills[..n], eps) == 0.0 {
        assert n <= m ==> earlier[..n] == fills[..n];
        assert n == m + 1 ==> fills[..n] == fills;
      }
    }
  }

  predicate DropsNothingAt(fills: seq<Fill>, n: nat, eps: real)
    requires eps >= 0.0 && n < |fills|
  {
    Accepted(fills[n]) ==>
      Dropped(Before(Replay(EMPTY, fills[..n], eps), fills[n].symbol), Delta(fills[n]), eps) == 0.0
  }

  lemma LastDrop(fills: seq<Fill>, eps: real)
    requires eps >= 0.0 && fills != []
    ensures var m := |fills| - 1;
            DropsNothing(fills, eps) <==> DropsNothing(fills[..m], eps) && DropsNothingAt(fills, m, eps)
  {
    hide Dropped, Replay;
    var m := |fills| - 1;
    var earlier := fills[..m];
    forall n: nat | n < m ensures earlier[..n] == fills[..n] && earlier[n] == fills[n] { }
  }

  lemma DustStepIsZero(fills: seq<Fill>, eps: real)
    requires eps >= 0.0 && fills != []
    ensures var m := |fills| - 1;
            DustStep(Replay(EMPTY, fills[..m], eps), fills[m], eps) == 0.0 <==> DropsNothingAt(fills, m, eps)
  {
    hide DustValue, Dropped, Replay;
    var m := |fills| - 1;
    var f, st := fills[m], Replay(EMPTY, fills[..m], eps);
    if Accepted(f) {
      ReplayKeepsWellFormed(EMPTY, fills[..m], eps);
      var h := Before(st, f.symbol);
      DustIsBounded(h, Delta(f), f.price, eps, Max(f.price, h.averageEntry));
    }
  }

  /** Dropped dust is a real error: closing all but half an EPSILON loses that half's cost. */
  lemma DustBreaksTheIdentity(eps: real)
    requires eps > 0.0
    ensures var buy := Fill("X", Some(Buy), 2.0 * eps, 1.0, 0.0);
            var sell := Fill("X", Some(Sell), 1.5 * eps, 1.0, 0.0);
            var st := Replay(EMPTY, [buy, sell], eps);
            st.holdings == map[] && st.realizedTotal == 0.0 && CashFlow([buy, sell]) == -0.5 * eps
  {
    var buy := Fill("X", Some(Buy), 2.0 * eps, 1.0, 0.0);
    var sell := Fill("X", Some(Sell), 1.5 * eps, 1.0, 0.0);
    assert [buy, sell][..1] == [buy] && [buy][..0] == [];
    var afterBuy := Apply(EMPTY, buy, eps);
    assert Replay(EMPTY, [buy], eps) == afterBuy;
    assert CashFlow([buy]) == -2.0 * eps;
  }

  // ---------- splitting a fill ----------

  /** Quantity and entry price as the ledger keeps them. */
  function Kept(h: Holding, eps: real): (real, real) {
    if Abs(h.quantity) <= eps then (0.0, 0.0) else (h.quantity, h.averageEntry)
  }

  function Stored(h: Holding, eps: real): Holding {
    if Abs(h.quantity) <= eps then FLAT else h
  }

  /** Kept quantity and entry price, and the realised profit, of two fills at one price. */
  function TwoFills(h: Holding, d1: real, d2: real, price: real, eps: real): ((real, real), real)
    requires eps >= 0.0
  {
    var middle := Stored(Settled(h, d1, price, 0.0, eps), eps);
    (Kept(Settled(middle, d2, price, 0.0, eps), eps),
     GrossPnl(h, d1, price, eps) + GrossPnl(middle, d2, price, eps))
  }

  function OneFill(h: Holding, delta: real, price: real, eps: real): ((real, real), real)
    requires eps >= 0.0
  {
    (Kept(Settled(h, delta, price, 0.0, eps), eps), GrossPnl(h, delta, price, eps))
  }

  predicate SameSign(x: real, y: real) {
    (x > 0.0 && y > 0.0) || (x < 0.0 && y < 0.0)
  }

  /** The first fill leaves a remainder that the dust rule throws away. */
  predicate DustBetween(h: Holding, d1: real, eps: real) {
    0.0 < Abs(h.quantity + d1) <= eps
  }

  /** Dust in between is harmless only when everything that follows is dust as well and the first
      fill did not stop short of closing at a profit or loss. */
  predicate SplitHarmless(h: Holding, d1: real, d2: real, price: real, eps: real) {
    DustBetween(h, d1, eps) ==>
      && Abs(d2) <= eps && Abs(h.quantity + d1 + d2) <= eps
      && (!SameSign(h.quantity, h.quantity + d1) || price == h.averageEntry)
  }

  lemma BlendedTwice(w: real, a: real, u: real, v: real, p: real)
    requires w > 0.0 && u > 0.0 && v > 0.0
    ensures Blended(w + u, Blended(w, a, u, p), v, p) == Blended(w, a, u + v, p)
  {
    BlendedPrice(w, a, u, p);
    var once := Blended(w, a, u, p);
    assert (w + u) * once + v * p == w * a + (u + v) * p;
    assert w + u + v == w + (u + v);
  }

  lemma BlendedConstant(w: real, v: real, p: real)
    requires w > 0.0 && v > 0.0
    ensures Blended(w, p, v, p) == p
  {
    BlendedPrice(w, p, v, p);
  }

  lemma SplitAdding(h: Holding, d1: real, d2: real, price: real, eps: real)
    requires eps >= 0.0 && Startable(h, eps) && SameSign(d1, d2) && !Opposite(h.quantity, d1)
    requires !DustBetween(h, d1, eps)
    ensures TwoFills(h, d1, d2, price, eps) == OneFill(h, d1 + d2, price, eps)
  {
    hide Blended, PnlOn;
    var middle := Settled(h, d1, price, 0.0, eps);
    NothingClosed(h, price);
    NothingClosed(middle, price);
    if h == FLAT {
      BlendedConstant(Abs(d1), Abs(d2), price);
    } else {
      BlendedTwice(Abs(h.quantity), h.averageEntry, Abs(d1), Abs(d2), price);
    }
  }

  lemma SplitClosing(h: Holding, d1: real, d2: real, price: real, eps: real)
    requires eps >= 0.0 && SoundHolding(h, eps) && SameSign(d1, d2) && Opposite(h.quantity, d1)
    requires !DustBetween(h, d1, eps)
    ensures TwoFills(h, d1, d2, price, eps) == OneFill(h, d1 + d2, price, eps)
  {
    hide Blended, PnlOn;
    var middle := Settled(h, d1, price, 0.0, eps);
    if Abs(d1) < Abs(h.quantity) {
      SplitReducing(h, d1, d2, price, eps);
    } else if h.quantity + d1 == 0.0 {
      NothingClosed(FLAT, price);
    } else {
      BlendedConstant(Abs(middle.quantity), Abs(d2), price);
      NothingClosed(middle, price);
    }
  }

  lemma SplitReducing(h: Holding, d1: real, d2: real, price: real, eps: real)
    requires eps >= 0.0 && SoundHolding(h, eps) && SameSign(d1, d2) && Opposite(h.quantity, d1)
    requires Abs(d1) < Abs(h.quantity) && !DustBetween(h, d1, eps)
    ensures TwoFills(h, d1, d2, price, eps) == OneFill(h, d1 + d2, price, eps)
  {
    hide PnlOn;
    var middle := Settled(h, d1, price, 0.0, eps);
    var c1, c2 := Abs(d1), Min(Abs(h.quantity + d1), Abs(d2));
    assert middle.quantity == h.quantity + d1 && middle.averageEntry == h.averageEntry;
    assert ClosedBy(h.quantity, d1 + d2, eps) == c1 + c2;
    PnlOnSum(h, price, c1, c2);
    PnlOnReduced(h, middle, price, c2);
  }

  lemma PnlOnReduced(h: Holding, smaller: Holding, price: real, closed: real)
    requires SameSign(h.quantity, smaller.quantity) && h.averageEntry == smaller.averageEntry
    ensures PnlOn(h, price, closed) == PnlOn(smaller, price, closed)
  {
  }

  lemma PnlOnSum(h: Holding, price: real, c1: real, c2: real)
    ensures PnlOn(h, price, c1) + PnlOn(h, price, c2) == PnlOn(h, price, c1 + c2)
  {
  }

  lemma SplitOverDust(h: Holding, d1: real, d2: real, price: real, eps: real)
    requires eps >= 0.0 && Startable(h, eps) && SameSign(d1, d2) && DustBetween(h, d1, eps)
    requires price > 0.0
    ensures TwoFills(h, d1, d2, price, eps) == OneFill(h, d1 + d2, price, eps)
        <==> SplitHarmless(h, d1, d2, price, eps)
  {
    var middle := Stored(Settled(h, d1, price, 0.0, eps), eps);
    assert middle == FLAT;
    NothingClosed(FLAT, price);
    var left := h.quantity + d1;
    var c1, c2 := ClosedBy(h.quantity, d1, eps), ClosedBy(h.quantity, d1 + d2, eps);
    if SameSign(h.quantity, left) {
      assert c2 - c1 > 0.0;
      PnlOnSum(h, price, c1, c2 - c1);
      PnlOnZeroOnlyAtEntry(h, price, c2 - c1);
    } else {
      assert c1 == c2;
    }
  }

  lemma PnlOnZeroOnlyAtEntry(h: Holding, price: real, closed: real)
    requires closed > 0.0
    ensures PnlOn(h, price, closed) == 0.0 <==> price == h.averageEntry
  {
    if price > h.averageEntry {
      ScaleStrict(0.0, price - h.averageEntry, closed);
    } else if price < h.averageEntry {
      ScaleStrict(0.0, h.averageEntry - price, closed);
    }
  }

  /** Kept quantity, entry and realised total of a ledger for one symbol. */
  function View(st: LedgerState, symbol: string): ((real, real), real) {
    var h := Before(st, symbol);
    ((h.quantity, h.averageEntry), st.realizedTotal)
  }

  predicate SameOrder(first: Fill, second: Fill) {
    && Accepted(first) && Accepted(second)
    && first.symbol == second.symbol && first.side == second.side && first.price == second.price
  }

  function Merged(first: Fill, second: Fill): Fill {
    first.(quantity := first.quantity + second.quantity, fee := first.fee + second.fee)
  }

  /** Quantity, entry and profit of a settlement do not depend on the fee. */
  lemma FeeFree(h: Holding, delta: real, price: real, fee: real, eps: real)
    requires eps >= 0.0
    ensures Kept(Settled(h, delta, price, fee, eps), eps) == Kept(Settled(h, delta, price, 0.0, eps), eps)
    ensures var x := Stored(Settled(h, delta, price, fee, eps), eps);
            var y := Stored(Settled(h, delta, price, 0.0, eps), eps);
            x.quantity == y.quantity && x.averageEntry == y.averageEntry
  {
  }

  lemma ViewAfter(st: LedgerState, f: Fill, eps: real)
    requires eps >= 0.0 && Accepted(f)
    ensures var h := Before(st, f.symbol);
            View(Apply(st, f, eps), f.symbol)
              == (Kept(Settled(h, Delta(f), f.price, f.fee, eps), eps),
                  st.realizedTotal + GrossPnl(h, Delta(f), f.price, eps) - f.fee)
    ensures Before(Apply(st, f, eps), f.symbol)
         == Stored(Settled(Before(st, f.symbol), Delta(f), f.price, f.fee, eps), eps)
  {
    hide Settled, PnlOn;
  }

  /** Only quantity and entry of the middle holding matter for what follows. */
  lemma OnlyQuantityAndEntryMatter(x: Holding, y: Holding, delta: real, price: real, fee: real, eps: real)
    requires eps >= 0.0 && x.quantity == y.quantity && x.averageEntry == y.averageEntry
    ensures Kept(Settled(x, delta, price, fee, eps), eps) == Kept(Settled(y, delta, price, fee, eps), eps)
    ensures GrossPnl(x, delta, price, eps) == GrossPnl(y, delta, price, eps)
  {
    hide Blended;
  }

  /** Two consecutive same-side fills at one price leave the quantity, entry price and realised
      total of the single merged fill, except exactly when dust was dropped in between and not
      harmless; every other symbol is untouched. */
  lemma SplitInvariance(st: LedgerState, first: Fill, second: Fill, eps: real)
    requires eps >= 0.0 && WellFormed(st, eps) && SameOrder(first, second)
    ensures var two := Apply(Apply(st, first, eps), second, eps);
            var one := Apply(st, Merged(first, second), eps);
            && two.holdings - {first.symbol} == one.holdings - {first.symbol}
            && (View(two, first.symbol) == View(one, first.symbol) <==>
                SplitHarmless(Before(st, first.symbol), Delta(first), Delta(second), first.price, eps))
  {
    hide Settled, PnlOn, GrossPnl, Kept;
    var h, d1, d2, price := Before(st, first.symbol), Delta(first), Delta(second), first.price;
    ViewAfter(st, first, eps);
    ViewAfter(Apply(st, first, eps), second, eps);
    ViewAfter(st, Merged(first, second), eps);
    FeeFree(h, d1, price, first.fee, eps);
    FeeFree(h, d1 + d2, price, first.fee + second.fee, eps);
    var middle := Stored(Settled(h, d1, price, first.fee, eps), eps);
    FeeFree(middle, d2, price, second.fee, eps);
    OnlyQuantityAndEntryMatter(middle, Stored(Settled(h, d1, price, 0.0, eps), eps), d2, price, 0.0, eps);
    SplitOfHolding(h, d1, d2, price, eps);
  }

  lemma SplitOfHolding(h: Holding, d1: real, d2: real, price: real, eps: real)
    requires eps >= 0.0 && Startable(h, eps) && SameSign(d1, d2) && price > 0.0
    ensures TwoFills(h, d1, d2, price, eps) == OneFill(h, d1 + d2, price, eps)
        <==> SplitHarmless(h, d1, d2, price, eps)
  {
    hide TwoFills, OneFill;
    if DustBetween(h, d1, eps) {
      SplitOverDust(h, d1, d2, price, eps);
    } else if Opposite(h.quantity, d1) {
      SplitClosing(h, d1, d2, price, eps);
    } else {
      SplitAdding(h, d1, d2, price, eps);
    }
  }

  // ---------- saving and restoring ----------

  /** Same positions and realised total; the trade history is not saved. */
  predicate Equivalent(x: LedgerState, y: LedgerState) {
    x.holdings == y.holdings && x.realizedTotal == y.realizedTotal
  }

  /** Restoring a sound ledger's snapshot drops no position. */
  lemma RestoreKeepsEverything(st: LedgerState, blank: LedgerState, eps: real)
    requires eps >= 0.0 && WellFormed(st, eps)
    ensures Equivalent(Restore(blank, ToPayload(SnapshotOf(st)), eps), st)
  {
    var restored := Restored(ToPayload(SnapshotOf(st)).positions, eps);
    assert restored.Keys == st.holdings.Keys;
  }

  lemma {:induction false} EquivalentRuns(x: LedgerState, y: LedgerState, fills: seq<Fill>, eps: real)
    returns (booked: seq<Trade>)
    requires eps >= 0.0 && Equivalent(x, y)
    ensures Equivalent(Replay(x, fills, eps), Replay(y, fills, eps))
    ensures Replay(x, fills, eps).trades == x.trades + booked
    ensures Replay(y, fills, eps).trades == y.trades + booked
  {
    hide Settled, GrossPnl;
    booked := [];
    if fills != [] {
      var earlier, f := fills[..|fills| - 1], fills[|fills| - 1];
      booked := EquivalentRuns(x, y, earlier, eps);
      if Accepted(f) {
        booked := booked + [TradeOf(Replay(x, earlier, eps), f, eps)];
      }
    }
  }

  /** Restarting from a snapshot of any reachable ledger is invisible to every later run of fills:
      the same positions, the same realised total and the same new trades, profit included. */
  lemma RestoreIsTransparent(past: seq<Fill>, future: seq<Fill>, eps: real) returns (booked: seq<Trade>)
    requires eps >= 0.0
    ensures var live := Replay(EMPTY, past, eps);
            var restarted := Restore(EMPTY, ToPayload(SnapshotOf(live)), eps);
            && Equivalent(Replay(restarted, future, eps), Replay(live, future, eps))
            && Replay(live, future, eps).trades == live.trades + booked
            && Replay(restarted, future, eps).trades == booked
  {
    var live := Replay(EMPTY, past, eps);
    ReplayKeepsWellFormed(EMPTY, past, eps);
    RestoreKeepsEverything(live, EMPTY, eps);
    var restarted := Restore(EMPTY, ToPayload(SnapshotOf(live)), eps);
    booked := EquivalentRuns(restarted, live, future, eps);
    assert restarted.trades + booked == booked;
  }

  /** A saved payload, whatever it holds, restores to a sound ledger with exactly the positions above the
      dust limit that have a positive entry, as they were saved. A total that cannot be read keeps the old
      one, and anything else that is not a saved ledger changes nothing. */
  lemma RestoreIsSound(st: LedgerState, payload: Payload, eps: real)
    requires eps >= 0.0
    ensures !payload.Saved? ==> Restore(st, payload, eps) == st
    ensures payload.Saved? ==>
            var restored := Restore(st, payload, eps);
            && WellFormed(restored, eps) && restored.trades == st.trades
            && (payload.realizedTotal.Some? ==> restored.realizedTotal == payload.realizedTotal.value)
            && (payload.realizedTotal.None? ==> restored.realizedTotal == st.realizedTotal)
            && forall symbol | symbol in payload.positions ::
                 var raw := payload.positions[symbol];
                 if raw.Raw? && (raw.quantity > eps || raw.quantity < -eps) && raw.averageEntry > 0.0 then
                   symbol in restored.holdings && restored.holdings[symbol]
                     == Holding(raw.quantity, raw.averageEntry, raw.realizedPnl, raw.unrealizedPnl)
                 else symbol !in restored.holdings
  {
  }

  // ---------- trades mirror fills ----------

  function BookableFills(fills: seq<Fill>): seq<Fill> {
    if fills == [] then []
    else
      var before, last := BookableFills(fills[..|fills| - 1]), fills[|fills| - 1];
      if Bookable(last) then before + [last] else before
  }

  function PnlTotal(trades: seq<Trade>): real {
    if trades == [] then 0.0 else PnlTotal(trades[..|trades| - 1]) + trades[|trades| - 1].pnl
  }

  predicate Mirrors(t: Trade, f: Fill) {
    f.side == Some(t.side) && t.symbol == f.symbol && t.quantity == f.quantity && t.price == f.price && t.fee == f.fee
  }

  /** Over every run there is one trade for each fill that can be booked, in order and with its figures; the
      realised total is the sum of their profits, and a snapshot counts them. */
  lemma {:induction false} TradesMirrorFills(fills: seq<Fill>, eps: real)
    requires eps >= 0.0
    ensures var st, booked := Replay(EMPTY, fills, eps), BookableFills(fills);
            && |st.trades| == |booked| == SnapshotOf(st).tradeCount
            && (forall i | 0 <= i < |booked| :: Mirrors(st.trades[i], booked[i]))
            && st.realizedTotal == PnlTotal(st.trades)
  {
    hide Store, Settled, GrossPnl, Mirrors;
    if fills != [] {
      var earlier, f := fills[..|fills| - 1], fills[|fills| - 1];
      TradesMirrorFills(earlier, eps);
      if Bookable(f) {
        var st := Replay(EMPTY, earlier, eps);
        assert (st.trades + [TradeOf(st, f, eps)])[..|st.trades|] == st.trades;
        TradeMirrors(st, f, eps);
      }
    }
  }

  lemma TradeMirrors(st: LedgerState, f: Fill, eps: real)
    requires Accepted(f)
    ensures Mirrors(TradeOf(st, f, eps), f)
  {
  }

  // ---------- what a position has realised ----------

  /** The net profits of the fills that closed against a position since it was opened. */
  function ClosedPnl(fills: seq<Fill>, symbol: string, eps: real): real
    requires eps >= 0.0
  {
    if fills == [] then 0.0
    else
      var earlier, f := fills[..|fills| - 1], fills[|fills| - 1];
      var st := Replay(EMPTY, earlier, eps);
      var before := if symbol in st.holdings then ClosedPnl(earlier, symbol, eps) else 0.0;
      if Bookable(f) && f.symbol == symbol && Opposite(Before(st, symbol).quantity, Delta(f))
      then before + Replay(EMPTY, fills, eps).trades[|st.trades|].pnl
      else before
  }

  lemma {:induction false} PositionPnlIsClosedPnl(fills: seq<Fill>, symbol: string, eps: real)
    requires eps >= 0.0 && symbol in Replay(EMPTY, fills, eps).holdings
    ensures Replay(EMPTY, fills, eps).holdings[symbol].realizedPnl == ClosedPnl(fills, symbol, eps)
  {
    hide GrossPnl, Blended;
    var earlier, f := fills[..|fills| - 1], fills[|fills| - 1];
    ReplayKeepsWellFormed(EMPTY, earlier, eps);
    if symbol in Replay(EMPTY, earlier, eps).holdings {
      PositionPnlIsClosedPnl(earlier, symbol, eps);
    }
  }

  // ---------- what one fill leaves alone ----------

  /** A fill is refused for the first thing wrong with it, and then changes nothing. Any other leaves every
      other symbol alone, and the profit last marked on its own position. */
  lemma FillLeavesAlone(st: LedgerState, f: Fill, eps: real)
    requires eps >= 0.0
    ensures Rejection(f) == Some(SymbolRequired) <==> f.symbol == ""
    ensures Rejection(f) == Some(QuantityNotPositive) <==> f.symbol != "" && f.quantity <= 0.0
    ensures Rejection(f) == Some(PriceNotPositive) <==> f.symbol != "" && f.quantity > 0.0 && f.price <= 0.0
    ensures Rejection(f) == Some(UnknownSide) <==>
        f.symbol != "" && f.quantity > 0.0 && f.price > 0.0 && f.side.None?
    ensures Rejection(f).Some? ==> Apply(st, f, eps) == st
    ensures var after := Apply(st, f, eps).holdings;
            && (forall symbol | symbol != f.symbol ::
                  (symbol in after <==> symbol in st.holdings)
                  && (symbol in st.holdings ==> after[symbol] == st.holdings[symbol]))
            && (f.symbol in after ==>
                after[f.symbol].unrealizedPnl
                  == (if f.symbol in st.holdings then st.holdings[f.symbol].unrealizedPnl else 0.0))
  {
    hide GrossPnl, Blended;
  }

  // ---------- the stored unrealised profit ----------

  /** Marking stores quantity times (mark - entry) where there is a positive price, and touches nothing else. */
  lemma MarkingStores(holdings: map<string, Holding>, prices: map<string, real>)
    ensures MarkAll(holdings, prices).Keys == holdings.Keys
    ensures forall symbol | symbol in holdings ::
        var h, marked := holdings[symbol], MarkAll(holdings, prices)[symbol];
        && marked.quantity == h.quantity && marked.averageEntry == h.averageEntry
        && marked.realizedPnl == h.realizedPnl
        && marked.unrealizedPnl == (if symbol in prices && prices[symbol] > 0.0
                                    then Worth(h.quantity, prices[symbol] - h.averageEntry) else h.unrealizedPnl)
  {
  }

  function StoredGains(holdings: map<string, Holding>): map<string, real> {
    map symbol | symbol in holdings :: holdings[symbol].unrealizedPnl
  }

  function PriceOf(prices: map<string, real>): string -> real {
    symbol => if symbol in prices then prices[symbol] else 0.0
  }

  /** The accounting identity on the stored figures: after marking every held symbol, over every run, the
      realised total plus the stored unrealised profits is the net cash flow plus the market value plus
      the dropped dust. */
  lemma StoredIdentity(fills: seq<Fill>, prices: map<string, real>, eps: real)
    requires eps >= 0.0
    requires forall symbol | symbol in Replay(EMPTY, fills, eps).holdings :: symbol in prices && prices[symbol] > 0.0
    ensures var st := Replay(EMPTY, fills, eps);
            st.realizedTotal + Sum(StoredGains(MarkAll(st.holdings, prices)))
              == CashFlow(fills) + Sum(Values(st.holdings, PriceOf(prices))) + DustOf(EMPTY, fills, eps)
  {
    hide Replay, CashFlow, DustOf, Worth, MarkAll, Values, Sum;
    var holdings := Replay(EMPTY, fills, eps).holdings;
    AccountingIdentity(fills, eps, PriceOf(prices));
    MarkingStores(holdings, prices);
    assert StoredGains(MarkAll(holdings, prices)) == Gains(holdings, PriceOf(prices));
  }
}
