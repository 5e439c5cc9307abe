/** websocket_ob.py: the price impact of a market order, found by walking one side of the book. */
module OrderBookWalk {
  import opened Common

  datatype Level = Level(price: real, quantity: real)

  datatype Snapshot = Snapshot(bids: seq<Level>, asks: seq<Level>)

  /** None when a side is empty or its best price is zero. */
  function Mid(b: Snapshot): Option<real> {
    if b.bids != [] && b.asks != [] && b.bids[0].price != 0.0 && b.asks[0].price != 0.0
    then Some((b.bids[0].price + b.asks[0].price) / 2.0)
    else None
  }

  function SideOf(b: Snapshot, side: Side): seq<Level> {
    if side == Buy then b.asks else b.bids
  }

  function SizeOf(l: Level): real {
    Worth(l.quantity, l.price)
  }

  const CANNOT_FILL := 0.02

  /** The price-weighted spend of an order of a given size, and what is left unfilled. */
  function Walk(levels: seq<Level>, usd: real): (real, real)
    decreases |levels|
  {
    if levels == [] then (0.0, usd)
    else
      var fill := Min(usd, SizeOf(levels[0]));
      if usd - fill <= 0.0 then (Worth(fill, levels[0].price), usd - fill)
      else
        var (spent, left) := Walk(levels[1..], usd - fill);
        (Worth(fill, levels[0].price) + spent, left)
  }

  /** None where the source divides by zero. */
  function Impact(b: Snapshot, side: Side, usd: real): Option<real> {
    var mid := Mid(b);
    if mid.None? || mid.value == 0.0 then Some(0.0)
    else
      var (spent, left) := Walk(SideOf(b, side), usd);
      if left > 0.0 then Some(CANNOT_FILL)
      else if usd == 0.0 then None
      else
        var average := spent / usd;
        Some(if side == Buy then (average - mid.value) / mid.value else (mid.value - average) / mid.value)
  }

  method PriceImpact(b: Snapshot, side: Side, usd: real) returns (impact: Option<real>)
    ensures impact == Impact(b, side, usd)
  {
    hide Worth, SizeOf;
    var mid := Mid(b);
    if mid.None? || mid.value == 0.0 { return Some(0.0); }
    var levels := if side == Buy then b.asks else b.bids;
    var remaining, spent := usd, 0.0;
    var i := 0;
    var stopped := false;
    while i < |levels| && !stopped
      invariant 0 <= i <= |levels|
      invariant !stopped ==>
        Walk(levels, usd) == (spent + Walk(levels[i..], remaining).0, Walk(levels[i..], remaining).1)
      invariant stopped ==> Walk(levels, usd) == (spent, remaining)
      decreases |levels| - i, !stopped
    {
      assert levels[i..][1..] == levels[i + 1..];
      var fill := Min(remaining, SizeOf(levels[i]));
      spent := spent + Worth(fill, levels[i].price);
      remaining := remaining - fill;
      if remaining <= 0.0 {
        stopped := true;
      }
      i := i + 1;
    }
    assert levels[|levels|..] == [];
    if remaining > 0.0 { return Some(CANNOT_FILL); }
    if usd == 0.0 { return None; }
    var average := spent / usd;
    if side == Buy {
      return Some((average - mid.value) / mid.value);
    } else {
      return Some((mid.value - average) / mid.value);
    }
  }

  // ---------- the walk, one side at a time ----------

  /** A level as its price and its size in quote currency. */
  datatype Lot = Lot(price: real, size: real)

  function LotsOf(levels: seq<Level>): seq<Lot> {
    if levels == [] then [] else [Lot(levels[0].price, SizeOf(levels[0]))] + LotsOf(levels[1..])
  }

  function Depth(lots: seq<Lot>): real {
    if lots == [] then 0.0 else lots[0].size + Depth(lots[1..])
  }

  predicate Sizes(lots: seq<Lot>) {
    forall i | 0 <= i < |lots| :: lots[i].size >= 0.0
  }

  predicate Ascending(lots: seq<Lot>) {
    forall i, j | 0 <= i < j < |lots| :: lots[i].price <= lots[j].price
  }

  function Spent(lots: seq<Lot>, usd: real): real
    decreases |lots|
  {
    if lots == [] then 0.0
    else if usd <= lots[0].size then Worth(usd, lots[0].price)
    else Worth(lots[0].size, lots[0].price) + Spent(lots[1..], usd - lots[0].size)
  }

  /** The price of the last level the order touches. */
  function LastPrice(lots: seq<Lot>, usd: real): real
    requires lots != []
    decreases |lots|
  {
    if usd <= lots[0].size || |lots| == 1 then lots[0].price else LastPrice(lots[1..], usd - lots[0].size)
  }

  lemma {:induction false} WalkIsSpent(levels: seq<Level>, usd: real)
    requires usd > 0.0 && Sizes(LotsOf(levels))
    ensures var (spent, left) := Walk(levels, usd);
            && (left > 0.0 <==> Depth(LotsOf(levels)) < usd)
            && (left <= 0.0 ==> spent == Spent(LotsOf(levels), usd))
    decreases |levels|
  {
    hide Worth, SizeOf;
    var lots := LotsOf(levels);
    if levels != [] {
      assert lots[1..] == LotsOf(levels[1..]);
      if usd - Min(usd, SizeOf(levels[0])) > 0.0 {
        WalkIsSpent(levels[1..], usd - SizeOf(levels[0]));
      } else {
        assert usd <= lots[0].size;
        DepthIsNotNegative(lots[1..]);
      }
    }
  }

  lemma {:induction false} DepthIsNotNegative(lots: seq<Lot>)
    requires Sizes(lots)
    ensures Depth(lots) >= 0.0
  {
    if lots != [] {
      DepthIsNotNegative(lots[1..]);
    }
  }

  /** The average price lies between the best and the last touched price. */
  lemma {:induction false} SpentBetween(lots: seq<Lot>, usd: real)
    requires Sizes(lots) && Ascending(lots) && 0.0 <= usd <= Depth(lots) && lots != []
    ensures lots[0].price <= LastPrice(lots, usd)
    ensures Worth(usd, lots[0].price) <= Spent(lots, usd) <= Worth(usd, LastPrice(lots, usd))
    decreases |lots|
  {
    hide Worth;
    var first := lots[0];
    if usd > first.size && |lots| > 1 {
      var rest, left := lots[1..], usd - first.size;
      SpentBetween(rest, left);
      var last := LastPrice(lots, usd);
      WorthSum(first.size, left, first.price);
      WorthSum(first.size, left, last);
      WorthMonoPrice(left, first.price, rest[0].price);
      WorthMonoPrice(first.size, first.price, last);
    }
  }

  /** Spending more costs at least the last touched price on the difference. */
  lemma {:induction false} SpentGrows(lots: seq<Lot>, less: real, more: real)
    requires Sizes(lots) && Ascending(lots) && 0.0 <= less <= more <= Depth(lots) && lots != []
    ensures Spent(lots, more) >= Spent(lots, less) + Worth(more - less, LastPrice(lots, less))
    decreases |lots|
  {
    hide Worth;
    var first := lots[0];
    if more <= first.size {
      WorthSum(less, more - less, first.price);
    } else if less <= first.size {
      var rest, left := lots[1..], more - first.size;
      SpentBetween(rest, left);
      WorthSum(less, first.size - less, first.price);
      WorthSum(first.size - less, left, first.price);
      WorthMonoPrice(left, first.price, rest[0].price);
      assert first.size - less + left == more - less;
    } else {
      SpentGrows(lots[1..], less - first.size, more - first.size);
    }
  }

  /** So the average price grows with the size of the order. */
  lemma AverageGrows(lots: seq<Lot>, less: real, more: real)
    requires Sizes(lots) && Ascending(lots) && 0.0 < less <= more <= Depth(lots) && lots != []
    ensures Spent(lots, less) / less <= Spent(lots, more) / more
  {
    hide Spent, Worth, LastPrice;
    var x, y, last := Spent(lots, less), Spent(lots, more), LastPrice(lots, less);
    SpentGrows(lots, less, more);
    SpentBetween(lots, less);
    AverageStep(x, y, less, more, last);
  }

  lemma AverageStep(x: real, y: real, less: real, more: real, last: real)
    requires 0.0 < less <= more && x <= Worth(less, last) && y >= x + Worth(more - less, last)
    ensures x / less <= y / more
  {
    var a := x / less;
    assert a * less == x;
    CompareScaled(a, last, less);
    ScaleMono(a, last, more - less);
    assert a * more == a * less + a * (more - less);
    var c := y / more;
    assert c * more == y;
    CompareScaled(a, c, more);
  }

  // ---------- bids are asks with negated prices ----------

  function Negated(lots: seq<Lot>): (r: seq<Lot>)
    ensures |r| == |lots| && forall i | 0 <= i < |lots| :: r[i] == Lot(-lots[i].price, lots[i].size)
  {
    seq(|lots|, i requires 0 <= i < |lots| => Lot(-lots[i].price, lots[i].size))
  }

  lemma {:induction false} SpentNegated(lots: seq<Lot>, usd: real)
    ensures Spent(Negated(lots), usd) == -Spent(lots, usd)
    ensures Depth(Negated(lots)) == Depth(lots)
    ensures lots != [] ==> LastPrice(Negated(lots), usd) == -LastPrice(lots, usd)
    decreases |lots|
  {
    hide Worth;
    if lots != [] {
      assert Negated(lots)[1..] == Negated(lots[1..]);
      SpentNegated(lots[1..], usd - lots[0].size);
      NegatedPrice(usd, lots[0].price);
      NegatedPrice(lots[0].size, lots[0].price);
    }
  }

  lemma NegatedPrice(x: real, price: real)
    ensures Worth(x, -price) == -Worth(x, price)
  {
  }

  // ---------- price impact ----------

  /** A book as the feed delivers it: positive prices, no negative quantities, asks from the lowest,
      bids from the highest, and the best bid not above the best ask. */
  predicate Sorted(b: Snapshot) {
    && b.bids != [] && b.asks != [] && b.bids[0].price <= b.asks[0].price
    && (forall i | 0 <= i < |b.bids| :: b.bids[i].price > 0.0 && b.bids[i].quantity >= 0.0)
    && (forall i | 0 <= i < |b.asks| :: b.asks[i].price > 0.0 && b.asks[i].quantity >= 0.0)
    && (forall i, j | 0 <= i < j < |b.asks| :: b.asks[i].price <= b.asks[j].price)
    && (forall i, j | 0 <= i < j < |b.bids| :: b.bids[j].price <= b.bids[i].price)
  }

  /** The side an order walks, with prices counted against the order. */
  function Ladder(b: Snapshot, side: Side): seq<Lot> {
    if side == Buy then LotsOf(b.asks) else Negated(LotsOf(b.bids))
  }

  function Available(b: Snapshot, side: Side): real {
    Depth(LotsOf(SideOf(b, side)))
  }

  function AveragePrice(b: Snapshot, side: Side, usd: real): real
    requires usd != 0.0
  {
    Spent(LotsOf(SideOf(b, side)), usd) / usd
  }

  lemma {:induction false} LotsAre(levels: seq<Level>)
    ensures |LotsOf(levels)| == |levels|
    ensures forall i | 0 <= i < |levels| :: LotsOf(levels)[i] == Lot(levels[i].price, SizeOf(levels[i]))
  {
    hide SizeOf;
    if levels != [] {
      LotsAre(levels[1..]);
    }
  }

  lemma LotsAreSound(b: Snapshot, side: Side)
    requires Sorted(b)
    ensures |LotsOf(SideOf(b, side))| == |SideOf(b, side)|
    ensures LotsOf(SideOf(b, side))[0].price == SideOf(b, side)[0].price
    ensures Sizes(LotsOf(SideOf(b, side)))
  {
    hide Worth;
    var levels := SideOf(b, side);
    LotsAre(levels);
    forall i | 0 <= i < |levels| ensures SizeOf(levels[i]) >= 0.0 {
      WorthMono(0.0, levels[i].quantity, levels[i].price);
      WorthZero(levels[i].price);
    }
  }

  lemma LadderIsSound(b: Snapshot, side: Side)
    requires Sorted(b)
    ensures Ladder(b, side) != [] && Sizes(Ladder(b, side)) && Ascending(Ladder(b, side))
  {
    hide SizeOf;
    LotsAreSound(b, side);
    LotsAre(SideOf(b, side));
  }

  /** The impact of an order the book can fill, and of one it cannot. */
  lemma ImpactIs(b: Snapshot, side: Side, usd: real)
    requires Sorted(b) && usd > 0.0
    ensures var mid := (b.bids[0].price + b.asks[0].price) / 2.0;
            var against := if side == Buy then AveragePrice(b, side, usd) - mid else mid - AveragePrice(b, side, usd);
            Impact(b, side, usd) == Some(if Available(b, side) < usd then CANNOT_FILL else against / mid)
  {
    hide Walk, Spent, Depth, LotsOf;
    LotsAreSound(b, side);
    WalkIsSpent(SideOf(b, side), usd);
  }

  /** With enough depth the average price lies between the best and the last touched price. */
  lemma AverageIsBetween(b: Snapshot, side: Side, usd: real)
    requires Sorted(b) && 0.0 < usd <= Available(b, side)
    ensures LotsOf(SideOf(b, side)) != []
    ensures var best, average := SideOf(b, side)[0].price, AveragePrice(b, side, usd);
            var last := LastPrice(LotsOf(SideOf(b, side)), usd);
            if side == Buy then best <= average <= last else last <= average <= best
  {
    hide Spent, LastPrice, Depth, LotsOf;
    LotsAreSound(b, side);
    LadderIsSound(b, side);
    var lots, ladder := LotsOf(SideOf(b, side)), Ladder(b, side);
    SpentNegated(lots, usd);
    SpentBetween(ladder, usd);
    BetweenPrices(ladder[0].price, LastPrice(ladder, usd), Spent(ladder, usd), usd);
    NegatedQuotient(Spent(lots, usd), usd);
  }

  lemma BetweenPrices(low: real, high: real, spent: real, usd: real)
    requires usd > 0.0 && Worth(usd, low) <= spent <= Worth(usd, high)
    ensures low <= spent / usd <= high
  {
    var average := spent / usd;
    assert average * usd == spent;
    CompareScaled(low, average, usd);
    CompareScaled(average, high, usd);
  }

  /** So the impact is not negative: the average is no better than the best price, and that no better
      than the mid. */
  lemma ImpactIsNotNegative(b: Snapshot, side: Side, usd: real)
    requires Sorted(b) && usd > 0.0
    ensures Impact(b, side, usd).Some? && Impact(b, side, usd).value >= 0.0
  {
    hide Impact, LotsOf, AveragePrice, Depth;
    ImpactIs(b, side, usd);
    if usd <= Available(b, side) {
      AverageIsBetween(b, side, usd);
      var mid := (b.bids[0].price + b.asks[0].price) / 2.0;
      var average := AveragePrice(b, side, usd);
      NotNegativeQuotient(if side == Buy then average - mid else mid - average, mid);
    }
  }

  lemma NotNegativeQuotient(x: real, y: real)
    requires x >= 0.0 && y > 0.0
    ensures x / y >= 0.0
  {
    var z := x / y;
    assert z * y == x;
    if z < 0.0 {
      ScaleStrict(z, 0.0, y);
    }
  }

  /** Between two sizes the book can fill, the larger has at least the impact of the smaller. */
  lemma ImpactIsMonotone(b: Snapshot, side: Side, less: real, more: real)
    requires Sorted(b) && 0.0 < less <= more <= Available(b, side)
    ensures Impact(b, side, less).Some? && Impact(b, side, more).Some?
         && Impact(b, side, less).value <= Impact(b, side, more).value
  {
    hide Spent, Impact, Depth, LotsOf;
    ImpactIs(b, side, less);
    ImpactIs(b, side, more);
    LadderIsSound(b, side);
    var lots, ladder := LotsOf(SideOf(b, side)), Ladder(b, side);
    SpentNegated(lots, less);
    SpentNegated(lots, more);
    AverageGrows(ladder, less, more);
    NegatedQuotient(Spent(lots, less), less);
    NegatedQuotient(Spent(lots, more), more);
    var mid := (b.bids[0].price + b.asks[0].price) / 2.0;
    var sign := if side == Buy then 1.0 else -1.0;
    var x, y := sign * (AveragePrice(b, side, less) - mid), sign * (AveragePrice(b, side, more) - mid);
    QuotientMono(x, y, mid);
  }

  lemma NegatedQuotient(x: real, y: real)
    requires y > 0.0
    ensures (-x) / y == -(x / y)
  {
    var z := x / y;
    assert z * y == x && (-z) * y == -x;
  }

  lemma QuotientMono(x: real, y: real, k: real)
    requires x <= y && k > 0.0
    ensures x / k <= y / k
  {
    var a, c := x / k, y / k;
    assert a * k == x && c * k == y;
    CompareScaled(a, c, k);
  }

  /** Monotone only as far as the book reaches: an order beyond the depth has a lower impact than one
      within it exactly when the latter's average price is more than two percent beyond the mid. */
  lemma ImpactDropsIff(b: Snapshot, side: Side, less: real, more: real)
    requires Sorted(b) && 0.0 < less <= Available(b, side) < more
    ensures var mid, average := (b.bids[0].price + b.asks[0].price) / 2.0, AveragePrice(b, side, less);
            && Impact(b, side, less).Some? && Impact(b, side, more) == Some(CANNOT_FILL)
            && (Impact(b, side, more).value < Impact(b, side, less).value <==>
                if side == Buy then average > 1.02 * mid else average < 0.98 * mid)
  {
    hide Impact, LotsOf, AveragePrice, Depth;
    ImpactIs(b, side, less);
    ImpactIs(b, side, more);
    var mid, average := (b.bids[0].price + b.asks[0].price) / 2.0, AveragePrice(b, side, less);
    QuotientAtMost(if side == Buy then average - mid else mid - average, mid, CANNOT_FILL);
  }

  /** A steep book on which it does. */
  lemma ImpactDropsBeyondDepth()
    ensures var b := Snapshot([Level(1.0, 1.0)], [Level(1.0, 1.0), Level(9.0, 1.0)]);
            Sorted(b) && Impact(b, Buy, 10.0) == Some(7.2) && Impact(b, Buy, 11.0) == Some(CANNOT_FILL)
  {
    var b := Snapshot([Level(1.0, 1.0)], [Level(1.0, 1.0), Level(9.0, 1.0)]);
    assert Walk(b.asks[1..], 9.0) == (81.0, 0.0);
    assert Walk(b.asks, 10.0) == (82.0, 0.0);
    assert Walk(b.asks[1..][1..], 1.0) == (0.0, 1.0);
    assert Walk(b.asks[1..], 10.0) == (81.0, 1.0);
  }
}
