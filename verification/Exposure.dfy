/** portfolio/exposure_engine.py and risk/portfolio_guard.py: exposure recomputed from the
    whole position map, and the limits checked on it. */
module Exposure {
  import opened Common
  import opened RealSums
  import opened Ledger

  datatype ExposureSnapshot = ExposureSnapshot(
    gross: real,
    net: real,
    long: real,
    short: real,
    symbolExposure: map<string, real>,
    symbolWeights: map<string, real>)

  /** A symbol without a mark price is valued at its average entry. */
  function MarkOf(symbol: string, h: Holding, marks: map<string, real>): real {
    if symbol in marks then marks[symbol] else h.averageEntry
  }

  function Notional(symbol: string, h: Holding, marks: map<string, real>): real {
    Worth(h.quantity, MarkOf(symbol, h, marks))
  }

  function Notionals(positions: map<string, Holding>, marks: map<string, real>): map<string, real> {
    map symbol | symbol in positions :: Notional(symbol, positions[symbol], marks)
  }

  function Sizes(positions: map<string, Holding>, marks: map<string, real>): map<string, real> {
    map symbol | symbol in positions :: Abs(Notional(symbol, positions[symbol], marks))
  }

  ghost function Net(positions: map<string, Holding>, marks: map<string, real>): real {
    Sum(Notionals(positions, marks))
  }

  ghost function Gross(positions: map<string, Holding>, marks: map<string, real>): real {
    Sum(Sizes(positions, marks))
  }

  /** A part's weight in a gross exposure; 0 when there is no exposure. */
  function Share(size: real, gross: real): real {
    if gross > 0.0 then size / gross else 0.0
  }

  function Weights(sizes: map<string, real>, gross: real): map<string, real> {
    map symbol | symbol in sizes :: Share(sizes[symbol], gross)
  }

  ghost function ExposureOf(positions: map<string, Holding>, marks: map<string, real>): ExposureSnapshot {
    var gross, net, sizes := Gross(positions, marks), Net(positions, marks), Sizes(positions, marks);
    ExposureSnapshot(gross, net, (gross + net) / 2.0, (gross - net) / 2.0, sizes, Weights(sizes, gross))
  }

  /** One pass over the positions, in whatever order the dictionary yields them. */
  method Calculate(positions: map<string, Holding>, marks: map<string, real>) returns (s: ExposureSnapshot)
    ensures s == ExposureOf(positions, marks)
  {
    hide Notional, Sum, Only, Weights;
    ghost var notionals, sizes := Notionals(positions, marks), Sizes(positions, marks);
    var long, short, net := 0.0, 0.0, 0.0;
    var symbolExposure: map<string, real> := map[];
    var pending := positions.Keys;
    assert notionals.Keys == sizes.Keys == positions.Keys;
    OnlyEverything(notionals);
    OnlyEverything(sizes);
    while pending != {}
      invariant pending <= positions.Keys
      invariant net == long - short
      invariant net + Sum(Only(notionals, pending)) == Sum(notionals)
      invariant long + short + Sum(Only(sizes, pending)) == Sum(sizes)
      invariant symbolExposure.Keys == positions.Keys - pending
      invariant forall symbol | symbol in symbolExposure :: symbolExposure[symbol] == sizes[symbol]
      decreases pending
    {
      var symbol :| symbol in pending;
      SumOnly(notionals, pending, symbol);
      SumOnly(sizes, pending, symbol);
      pending := pending - {symbol};
      var signed := Notional(symbol, positions[symbol], marks);
      symbolExposure := symbolExposure[symbol := Abs(signed)];
      net := net + signed;
      if signed >= 0.0 {
        long := long + signed;
      } else {
        short := short + Abs(signed);
      }
    }
    SumOfNothing(notionals);
    SumOfNothing(sizes);
    assert symbolExposure == sizes;
    var gross := long + short;
    s := ExposureSnapshot(gross, net, long, short, symbolExposure, Weights(symbolExposure, gross));
  }

  // ---------- limits ----------

  datatype Limits = Limits(maxGross: real, maxNet: real, maxWeight: real)

  /** What the guard's constructor insists on. */
  predicate ValidLimits(l: Limits) {
    l.maxGross > 0.0 && l.maxNet > 0.0 && 0.0 < l.maxWeight <= 1.0
  }

  datatype Severity = Critical | High

  datatype RiskBreach = GrossLimit | NetLimit | SymbolWeightLimit(symbol: string)

  function SeverityOf(b: RiskBreach): Severity {
    if b.SymbolWeightLimit? then High else Critical
  }

  predicate HasCritical(breaches: seq<RiskBreach>) {
    exists i :: 0 <= i < |breaches| && SeverityOf(breaches[i]) == Critical
  }

  /** One breach per overweight symbol among the given keys, in some fixed order. */
  ghost function Overweight(weights: map<string, real>, keys: set<string>, limit: real): seq<RiskBreach>
    requires keys <= weights.Keys
    decreases |keys|
  {
    if keys == {} then []
    else
      var key := Pick(keys);
      (if weights[key] > limit then [SymbolWeightLimit(key)] else []) + Overweight(weights, keys - {key}, limit)
  }

  /** The portfolio's own breaches, gross before net. */
  function PortfolioBreaches(s: ExposureSnapshot, l: Limits): seq<RiskBreach> {
    (if s.gross > l.maxGross then [GrossLimit] else []) + (if Abs(s.net) > l.maxNet then [NetLimit] else [])
  }

  ghost function BreachesOf(s: ExposureSnapshot, l: Limits): seq<RiskBreach> {
    PortfolioBreaches(s, l) + Overweight(s.symbolWeights, s.symbolWeights.Keys, l.maxWeight)
  }

  lemma {:induction false} OverweightAnyOrder(weights: map<string, real>, keys: set<string>, limit: real, key: string)
    requires keys <= weights.Keys && key in keys
    ensures multiset(Overweight(weights, keys, limit))
         == multiset(if weights[key] > limit then [SymbolWeightLimit(key)] else [])
          + multiset(Overweight(weights, keys - {key}, limit))
    decreases |keys|
  {
    var first := Pick(keys);
    if first != key {
      OverweightAnyOrder(weights, keys - {first}, limit, key);
      OverweightAnyOrder(weights, keys - {key}, limit, first);
      assert keys - {first} - {key} == keys - {key} - {first};
    }
  }

  lemma {:induction false} OverweightContents(weights: map<string, real>, keys: set<string>, limit: real)
    requires keys <= weights.Keys
    ensures forall b :: b in Overweight(weights, keys, limit) <==>
        b.SymbolWeightLimit? && b.symbol in keys && weights[b.symbol] > limit
    decreases |keys|
  {
    if keys != {} {
      OverweightContents(weights, keys - {Pick(keys)}, limit);
    }
  }

  /** Exactly the exceeded limits are reported: the portfolio limits as CRITICAL, each
      overweight symbol as HIGH. */
  lemma ReportedBreaches(s: ExposureSnapshot, l: Limits)
    ensures forall b :: b in BreachesOf(s, l) <==>
        match b
        case GrossLimit => s.gross > l.maxGross
        case NetLimit => Abs(s.net) > l.maxNet
        case SymbolWeightLimit(symbol) => symbol in s.symbolWeights && s.symbolWeights[symbol] > l.maxWeight
    ensures HasCritical(BreachesOf(s, l)) <==> s.gross > l.maxGross || Abs(s.net) > l.maxNet
  {
    OverweightContents(s.symbolWeights, s.symbolWeights.Keys, l.maxWeight);
    var all := BreachesOf(s, l);
    if s.gross > l.maxGross {
      assert all[0] == GrossLimit;
    } else if Abs(s.net) > l.maxNet {
      assert all[0] == NetLimit;
    } else {
      forall i | 0 <= i < |all| ensures SeverityOf(all[i]) == High {
        assert all[i] in all;
      }
    }
  }

  lemma NothingOverweight(weights: map<string, real>, limit: real)
    ensures Overweight(weights, {}, limit) == []
  {
  }

  method OverweightSymbols(weights: map<string, real>, limit: real) returns (found: seq<RiskBreach>)
    ensures multiset(found) == multiset(Overweight(weights, weights.Keys, limit))
  {
    hide Overweight;
    NothingOverweight(weights, limit);
    found := [];
    var pending := weights.Keys;
    while pending != {}
      invariant pending <= weights.Keys
      invariant multiset(found) + multiset(Overweight(weights, pending, limit))
             == multiset(Overweight(weights, weights.Keys, limit))
      decreases pending
    {
      var symbol :| symbol in pending;
      OverweightAnyOrder(weights, pending, limit, symbol);
      pending := pending - {symbol};
      ghost var earlier := found;
      if weights[symbol] > limit {
        found := found + [SymbolWeightLimit(symbol)];
      }
      assert found == earlier + (if weights[symbol] > limit then [SymbolWeightLimit(symbol)] else []);
    }
  }

  /** Gross, then net, then the overweight symbols in whatever order the dictionary yields them. */
  method Validate(s: ExposureSnapshot, l: Limits) returns (breaches: seq<RiskBreach>)
    ensures multiset(breaches) == multiset(BreachesOf(s, l))
    ensures PortfolioBreaches(s, l) <= breaches
    ensures forall i | |PortfolioBreaches(s, l)| <= i < |breaches| :: breaches[i].SymbolWeightLimit?
  {
    hide Overweight;
    breaches := [];
    if s.gross > l.maxGross {
      breaches := breaches + [GrossLimit];
    }
    if Abs(s.net) > l.maxNet {
      breaches := breaches + [NetLimit];
    }
    assert breaches == PortfolioBreaches(s, l);
    var overweight := OverweightSymbols(s.symbolWeights, l.maxWeight);
    OverweightContents(s.symbolWeights, s.symbolWeights.Keys, l.maxWeight);
    forall i | 0 <= i < |overweight| ensures overweight[i].SymbolWeightLimit? {
      assert overweight[i] in multiset(overweight);
    }
    breaches := breaches + overweight;
  }

  // ---------- long and short ----------

  function LongParts(notionals: map<string, real>): map<string, real> {
    map symbol | symbol in notionals :: if notionals[symbol] > 0.0 then notionals[symbol] else 0.0
  }

  function ShortParts(notionals: map<string, real>): map<string, real> {
    map symbol | symbol in notionals :: if notionals[symbol] < 0.0 then -notionals[symbol] else 0.0
  }

  /** The long exposure is the sum of the positive notionals, the short one that of the negative, each
      symbol's share its part of both together. */
  lemma LongAndShortParts(positions: map<string, Holding>, marks: map<string, real>)
    ensures var s, notionals := ExposureOf(positions, marks), Notionals(positions, marks);
            && s.long == Sum(LongParts(notionals)) && s.short == Sum(ShortParts(notionals))
            && s.gross == s.long + s.short && s.net == s.long - s.short
            && s.symbolExposure.Keys == s.symbolWeights.Keys == positions.Keys
            && forall symbol | symbol in positions ::
                 && s.symbolExposure[symbol]
                      == (if notionals[symbol] < 0.0 then -notionals[symbol] else notionals[symbol])
                 && (s.gross > 0.0 ==> s.symbolWeights[symbol] * s.gross == s.symbolExposure[symbol])
                 && (s.gross <= 0.0 ==> s.symbolWeights[symbol] == 0.0)
  {
    hide Notional, Sum;
    var notionals, sizes := Notionals(positions, marks), Sizes(positions, marks);
    var longs, shorts := LongParts(notionals), ShortParts(notionals);
    SumDifference(longs, shorts, notionals);
    SumDifference(sizes, shorts, longs);
  }
}
