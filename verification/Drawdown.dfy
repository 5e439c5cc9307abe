/** backtesting/performance_metrics.py: the largest drawdown of an equity curve, in one pass. */
module Drawdown {
  import opened Common

  /** The fall from a positive peak to a later value, in percent of the peak. */
  function DropPct(peak: real, value: real): real
    requires peak > 0.0
  {
    ((peak - value) / peak) * 100.0
  }

  function PeakOf(curve: seq<real>): real
    requires curve != []
    decreases |curve|
  {
    var last := curve[|curve| - 1];
    if |curve| == 1 then last else Max(PeakOf(curve[..|curve| - 1]), last)
  }

  /** What the running peak sees: the worst fall from the highest value so far, where that is positive. */
  function FromPeaks(curve: seq<real>): real
    decreases |curve|
  {
    if curve == [] then 0.0
    else
      var before, peak := FromPeaks(curve[..|curve| - 1]), PeakOf(curve);
      if peak <= 0.0 then before else Max(before, DropPct(peak, curve[|curve| - 1]))
  }

  /** The caller answers 0 for an empty curve itself. */
  method MaxDrawdownPct(values: seq<real>) returns (maxDrawdown: real)
    requires values != []
    ensures maxDrawdown == FromPeaks(values)
    ensures NonNegative(values) ==> IsMaxDrawdown(values, maxDrawdown) && 0.0 <= maxDrawdown <= 100.0
  {
    hide DropPct, IsMaxDrawdown;
    var peak := values[0];
    maxDrawdown := 0.0;
    var i := 0;
    while i < |values|
      invariant 0 <= i <= |values|
      invariant peak == if i == 0 then values[0] else PeakOf(values[..i])
      invariant maxDrawdown == FromPeaks(values[..i])
    {
      var value := values[i];
      assert values[..i + 1][..i] == values[..i];
      if value > peak {
        peak := value;
      }
      i := i + 1;
      if peak <= 0.0 { continue; }
      var drawdown := DropPct(peak, value);
      if drawdown > maxDrawdown {
        maxDrawdown := drawdown;
      }
    }
    assert values[..|values|] == values;
    if NonNegative(values) {
      OnePassIsQuadratic(values);
      DrawdownIsAPercentage(values);
    }
  }

  // ---------- the quadratic definition ----------

  predicate NonNegative(curve: seq<real>) {
    forall i | 0 <= i < |curve| :: curve[i] >= 0.0
  }

  /** An earlier positive value and a later one, or the same. */
  predicate IsFall(curve: seq<real>, i: int, j: int) {
    0 <= i <= j < |curve| && curve[i] > 0.0
  }

  /** The largest fall over all pairs, 0 when there is none. */
  ghost predicate IsMaxDrawdown(curve: seq<real>, d: real) {
    && (forall i, j | IsFall(curve, i, j) :: DropPct(curve[i], curve[j]) <= d)
    && (IsAttained(curve, d) || (d == 0.0 && forall i | 0 <= i < |curve| :: curve[i] <= 0.0))
  }

  ghost predicate IsAttained(curve: seq<real>, d: real) {
    exists i, j :: IsFall(curve, i, j) && DropPct(curve[i], curve[j]) == d
  }

  lemma {:induction false} PeakIsHighest(curve: seq<real>)
    requires curve != []
    ensures PeakOf(curve) in curve
    ensures forall i | 0 <= i < |curve| :: curve[i] <= PeakOf(curve)
    decreases |curve|
  {
    var n := |curve| - 1;
    if n > 0 {
      PeakIsHighest(curve[..n]);
      assert forall i | 0 <= i < n :: curve[i] == curve[..n][i];
    }
  }

  /** On any curve the reported drawdown is a fall that happened, or 0 on a curve that is never positive. */
  lemma {:induction false} NeverOverstated(curve: seq<real>)
    ensures FromPeaks(curve) >= 0.0
    ensures IsAttained(curve, FromPeaks(curve))
         || (FromPeaks(curve) == 0.0 && forall i | 0 <= i < |curve| :: curve[i] <= 0.0)
    decreases |curve|
  {
    hide DropPct;
    if curve != [] {
      var n, d := |curve| - 1, FromPeaks(curve);
      var earlier := curve[..n];
      NeverOverstated(earlier);
      PeakIsHighest(curve);
      var peak := PeakOf(curve);
      if peak > 0.0 { NoDropFromItself(peak); }
      if peak > 0.0 && d == DropPct(peak, curve[n]) {
        var i :| 0 <= i < |curve| && curve[i] == peak;
        assert IsFall(curve, i, n);
      } else if IsAttained(earlier, d) {
        var i, j :| IsFall(earlier, i, j) && DropPct(earlier[i], earlier[j]) == d;
        assert IsFall(curve, i, j);
      } else {
        assert forall i | 0 <= i < n :: curve[i] == earlier[i];
      }
    }
  }

  lemma NoDropFromItself(peak: real)
    requires peak > 0.0
    ensures DropPct(peak, peak) == 0.0
  {
  }

  /** From a higher peak the fall to a value that is not negative is worse. */
  lemma HigherPeakDropsMore(low: real, high: real, value: real)
    requires 0.0 < low <= high && value >= 0.0
    ensures DropPct(low, value) <= DropPct(high, value) <= 100.0
  {
    var x, y := (low - value) / low, (high - value) / high;
    assert x * low == low - value && y * high == high - value;
    assert (1.0 - x) * low == value && (1.0 - y) * high == value;
    if y > 1.0 {
      ScaleStrict(1.0 - y, 0.0, high);
    }
    if x > y {
      ScaleStrict(1.0 - x, 1.0 - y, low);
      ScaleMono(low, high, 1.0 - y);
    }
  }

  /** One pass finds the maximum over all pairs when no value is negative. */
  lemma {:induction false} OnePassIsQuadratic(curve: seq<real>)
    requires NonNegative(curve)
    ensures IsMaxDrawdown(curve, FromPeaks(curve))
    decreases |curve|
  {
    hide DropPct;
    NeverOverstated(curve);
    if curve != [] {
      var n := |curve| - 1;
      var earlier := curve[..n];
      OnePassIsQuadratic(earlier);
      PeakIsHighest(curve);
      forall i, j | IsFall(curve, i, j) ensures DropPct(curve[i], curve[j]) <= FromPeaks(curve) {
        if j == n {
          HigherPeakDropsMore(curve[i], PeakOf(curve), curve[n]);
        } else {
          assert IsFall(earlier, i, j);
        }
      }
    }
  }

  lemma DrawdownIsAPercentage(curve: seq<real>)
    requires NonNegative(curve)
    ensures 0.0 <= FromPeaks(curve) <= 100.0
  {
    hide DropPct, FromPeaks;
    NeverOverstated(curve);
    var d := FromPeaks(curve);
    if IsAttained(curve, d) {
      var i, j :| IsFall(curve, i, j) && DropPct(curve[i], curve[j]) == d;
      HigherPeakDropsMore(curve[i], curve[i], curve[j]);
    }
  }

  // ---------- curves that go below zero ----------

  /** The lowest positive value. */
  function LowestPositive(curve: seq<real>): Option<real>
    decreases |curve|
  {
    if curve == [] then None
    else
      var before, last := LowestPositive(curve[..|curve| - 1]), curve[|curve| - 1];
      if last <= 0.0 then before
      else if before.None? then Some(last)
      else Some(Min(before.value, last))
  }

  /** What the running peak overlooks: the worst fall to a negative value, which is the one from the
      lowest positive value so far. */
  function FromTroughs(curve: seq<real>): real
    decreases |curve|
  {
    if curve == [] then 0.0
    else
      var before, low, last := FromTroughs(curve[..|curve| - 1]), LowestPositive(curve), curve[|curve| - 1];
      if last < 0.0 && low.Some? && low.value > 0.0 then Max(before, DropPct(low.value, last)) else before
  }

  lemma {:induction false} LowestIsLowest(curve: seq<real>)
    ensures LowestPositive(curve).Some? ==> LowestPositive(curve).value > 0.0 && LowestPositive(curve).value in curve
    ensures forall i | 0 <= i < |curve| && curve[i] > 0.0 ::
        LowestPositive(curve).Some? && LowestPositive(curve).value <= curve[i]
    decreases |curve|
  {
    if curve != [] {
      var n := |curve| - 1;
      LowestIsLowest(curve[..n]);
      assert forall i | 0 <= i < n :: curve[i] == curve[..n][i];
    }
  }

  /** From a lower peak the fall to a negative value is worse. */
  lemma LowerPeakDropsMore(low: real, high: real, value: real)
    requires 0.0 < low <= high && value < 0.0
    ensures DropPct(low, value) >= DropPct(high, value)
  {
    var x, y := (low - value) / low, (high - value) / high;
    assert x * low == low - value && y * high == high - value;
    assert (x - 1.0) * low == -value && (y - 1.0) * high == -value;
    SmallerFactor(x - 1.0, y - 1.0, low, high, -value);
  }

  lemma SmallerFactor(u: real, w: real, low: real, high: real, product: real)
    requires 0.0 < low <= high && product > 0.0 && u * low == product && w * high == product
    ensures w <= u
  {
    CompareScaled(w, 0.0, high);
    ScaleMono(0.0, w, high - low);
    assert w * (high - low) == w * high - w * low;
    CompareScaled(w, u, low);
  }

  /** The trough's fall is one that happened, or there is none. */
  lemma {:induction false} TroughHappened(curve: seq<real>)
    ensures FromTroughs(curve) >= 0.0 && (FromTroughs(curve) > 0.0 ==> IsAttained(curve, FromTroughs(curve)))
    decreases |curve|
  {
    hide DropPct;
    if curve != [] {
      var n, d := |curve| - 1, FromTroughs(curve);
      var earlier := curve[..n];
      TroughHappened(earlier);
      LowestIsLowest(curve);
      if d > 0.0 && d == FromTroughs(earlier) {
        var i, j :| IsFall(earlier, i, j) && DropPct(earlier[i], earlier[j]) == d;
        assert IsFall(curve, i, j);
      } else if d > 0.0 {
        var low := LowestPositive(curve).value;
        var i :| 0 <= i < |curve| && curve[i] == low;
        assert IsFall(curve, i, n);
      }
    }
  }

  /** On any curve the maximum over all pairs is the larger of what the peaks and the troughs see. */
  lemma {:induction false} PeaksAndTroughs(curve: seq<real>)
    ensures forall i, j | IsFall(curve, i, j) ::
        DropPct(curve[i], curve[j]) <= Max(FromPeaks(curve), FromTroughs(curve))
    decreases |curve|
  {
    hide DropPct;
    if curve != [] {
      var n := |curve| - 1;
      var earlier := curve[..n];
      PeaksAndTroughs(earlier);
      PeakIsHighest(curve);
      LowestIsLowest(curve);
      forall i, j | IsFall(curve, i, j)
        ensures DropPct(curve[i], curve[j]) <= Max(FromPeaks(curve), FromTroughs(curve))
      {
        if j < n {
          assert IsFall(earlier, i, j);
        } else if curve[n] >= 0.0 {
          HigherPeakDropsMore(curve[i], PeakOf(curve), curve[n]);
        } else {
          LowerPeakDropsMore(LowestPositive(curve).value, curve[i], curve[n]);
        }
      }
    }
  }

  /** The fall of value k from the running peak, where that is positive. */
  predicate FallsFromPeak(curve: seq<real>, k: nat, pct: real)
    requires k < |curve|
  {
    PeakOf(curve[..k + 1]) > 0.0 && DropPct(PeakOf(curve[..k + 1]), curve[k]) >= pct
  }

  /** The fall of value j, when negative, from the lowest positive value before it, where there is one. */
  predicate FallsFromTrough(curve: seq<real>, j: nat, pct: real)
    requires j < |curve|
  {
    var low := LowestPositive(curve[..j + 1]);
    curve[j] < 0.0 && low.Some? && low.value > 0.0 && DropPct(low.value, curve[j]) >= pct
  }

  lemma {:induction false} PeakFallBounds(curve: seq<real>, pct: real)
    requires pct > 0.0
    ensures FromPeaks(curve) >= pct <==> exists k: nat | k < |curve| :: FallsFromPeak(curve, k, pct)
    decreases |curve|
  {
    hide DropPct;
    if curve != [] {
      var n := |curve| - 1;
      PeakFallBounds(curve[..n], pct);
      forall k: nat | k < n ensures FallsFromPeak(curve[..n], k, pct) == FallsFromPeak(curve, k, pct) {
        assert curve[..n][..k + 1] == curve[..k + 1];
      }
      assert curve[..n + 1] == curve;
      if FromPeaks(curve) >= pct && !(FromPeaks(curve[..n]) >= pct) {
        assert FallsFromPeak(curve, n, pct);
      }
      if FromPeaks(curve[..n]) >= pct {
        var k: nat :| k < n && FallsFromPeak(curve[..n], k, pct);
        assert FallsFromPeak(curve, k, pct);
      }
    }
  }

  lemma {:induction false} TroughFallBounds(curve: seq<real>, pct: real)
    requires pct > 0.0
    ensures FromTroughs(curve) >= pct <==> exists j: nat | j < |curve| :: FallsFromTrough(curve, j, pct)
    decreases |curve|
  {
    hide DropPct;
    if curve != [] {
      var n := |curve| - 1;
      TroughFallBounds(curve[..n], pct);
      forall j: nat | j < n ensures FallsFromTrough(curve[..n], j, pct) == FallsFromTrough(curve, j, pct) {
        assert curve[..n][..j + 1] == curve[..j + 1];
      }
      assert curve[..n + 1] == curve;
      if FromTroughs(curve) >= pct && !(FromTroughs(curve[..n]) >= pct) {
        assert FallsFromTrough(curve, n, pct);
      }
      if FromTroughs(curve[..n]) >= pct {
        var j: nat :| j < n && FallsFromTrough(curve[..n], j, pct);
        assert FallsFromTrough(curve, j, pct);
      }
    }
  }

  /** Every fall from a lowest positive value to a negative one is matched by some fall from a running
      peak. */
  ghost predicate TroughsAreShallow(curve: seq<real>) {
    forall j: nat, pct: real | j < |curve| && pct > 0.0 && FallsFromTrough(curve, j, pct) ::
      exists k: nat | k < |curve| :: FallsFromPeak(curve, k, pct)
  }

  /** So on any curve, one pass is the maximum over all pairs exactly when its troughs are shallow. */
  lemma OnePassIffTroughsAreShallow(curve: seq<real>)
    ensures IsMaxDrawdown(curve, FromPeaks(curve)) <==> TroughsAreShallow(curve)
    ensures NonNegative(curve) ==> TroughsAreShallow(curve)
  {
    hide DropPct, FromPeaks, FromTroughs, FallsFromPeak, FallsFromTrough, IsMaxDrawdown;
    OnePassIffTroughsAreLower(curve);
    var deepest := FromTroughs(curve);
    TroughHappened(curve);
    if deepest > 0.0 {
      TroughFallBounds(curve, deepest);
      PeakFallBounds(curve, deepest);
    }
    forall j: nat, pct: real | j < |curve| && pct > 0.0 && FallsFromTrough(curve, j, pct)
      ensures deepest >= pct
      ensures FromPeaks(curve) >= pct <==> exists k: nat | k < |curve| :: FallsFromPeak(curve, k, pct)
    {
      TroughFallBounds(curve, pct);
      PeakFallBounds(curve, pct);
    }
    NeverOverstated(curve);
  }

  lemma OnePassIffTroughsAreLower(curve: seq<real>)
    ensures IsMaxDrawdown(curve, FromPeaks(curve)) <==> FromTroughs(curve) <= FromPeaks(curve)
    ensures NonNegative(curve) ==> FromTroughs(curve) == 0.0
  {
    hide DropPct, FromPeaks, FromTroughs;
    NeverOverstated(curve);
    TroughHappened(curve);
    PeaksAndTroughs(curve);
    if NonNegative(curve) {
      NoTroughs(curve);
    }
    if FromTroughs(curve) > FromPeaks(curve) {
      var i, j :| IsFall(curve, i, j) && DropPct(curve[i], curve[j]) == FromTroughs(curve);
    }
  }

  lemma {:induction false} NoTroughs(curve: seq<real>)
    requires NonNegative(curve)
    ensures FromTroughs(curve) == 0.0
    decreases |curve|
  {
    if curve != [] {
      NoTroughs(curve[..|curve| - 1]);
    }
  }

  /** Below zero the two part: the fall from 1 to -1 is 200 percent, and the running peak 2 hides it. */
  lemma NegativeEquityIsUnderstated()
    ensures FromPeaks([1.0, 2.0, -1.0]) == 150.0 && !IsMaxDrawdown([1.0, 2.0, -1.0], 150.0)
  {
    var curve := [1.0, 2.0, -1.0];
    assert curve[..2] == [1.0, 2.0] && curve[..2][..1] == [1.0] && [1.0][..0] == [];
    assert IsFall(curve, 0, 2);
  }
}
