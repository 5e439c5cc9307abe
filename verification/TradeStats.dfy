/** risk.py: trade counters, the loss-streak breaker and the running R statistics of RiskManager, driven
    in the order main_legacy.py closes a trade. */
module TradeStats {
  import opened Common

  datatype Stats = Stats(wins: nat, losses: nat, streak: nat, breakers: nat, pauseUntil: real,
                         trades: nat, totalWins: nat, totalLosses: nat,
                         avgWin: real, avgLoss: real, winRate: real, expectancy: real)

  const FRESH := Stats(0, 0, 0, 0, 0.0, 0, 0, 0, 0.0, 0.0, 0.0, 0.0)

  const MIN_RISK := 0.000001

  const HOUR := 3600.0

  function PauseHours(breakers: nat): nat {
    if 4 * breakers > 48 then 48 else 4 * breakers
  }

  function AtLeastOne(n: nat): nat {
    if n > 1 then n else 1
  }

  /** The new average of n values, from that of the first n - 1 and the last value. */
  function Running(average: real, value: real, n: nat): real
    requires n > 0
  {
    average + (value - average) / (n as real)
  }

  function Ratio(x: nat, y: nat): real
    requires y > 0
  {
    (x as real) / (y as real)
  }

  function Expectancy(winRate: real, avgWin: real, avgLoss: real): real {
    winRate * avgWin - (1.0 - winRate) * avgLoss
  }

  function Won(s: Stats): Stats {
    s.(wins := s.wins + 1, totalWins := s.totalWins + 1, streak := 0)
  }

  function Lost(s: Stats, now: real, limit: int): Stats {
    var counted := s.(losses := s.losses + 1, totalLosses := s.totalLosses + 1);
    if s.streak + 1 >= limit then
      counted.(streak := 0, breakers := s.breakers + 1,
               pauseUntil := now + PauseHours(s.breakers + 1) as real * HOUR)
    else counted.(streak := s.streak + 1)
  }

  function Updated(s: Stats, pnl: real, r: real): Stats {
    var avgWin := if pnl > 0.0 then Running(s.avgWin, r, AtLeastOne(s.totalWins)) else s.avgWin;
    var avgLoss := if pnl > 0.0 then s.avgLoss else Running(s.avgLoss, Abs(r), AtLeastOne(s.totalLosses));
    var winRate := Ratio(s.totalWins, s.trades + 1);
    s.(trades := s.trades + 1, avgWin := avgWin, avgLoss := avgLoss, winRate := winRate,
       expectancy := Expectancy(winRate, avgWin, avgLoss))
  }

  function RMultiple(pnl: real, risk: real): real {
    pnl / Max(risk, MIN_RISK)
  }

  function Closed(s: Stats, pnl: real, risk: real, now: real, limit: int): Stats {
    Updated(if pnl > 0.0 then Won(s) else Lost(s, now, limit), pnl, RMultiple(pnl, risk))
  }

  function NextDay(s: Stats): Stats {
    s.(wins := 0, losses := 0)
  }

  /** What else a day starts with. */
  datatype Day = Day(tradesToday: nat, stopTriggered: bool, startEquity: real, barCounter: nat)

  class RiskManager {
    const maxConsecutiveLosses: int
    var tradesToday: nat
    var dailyStopTriggered: bool
    var dailyStartEquity: real
    var barCounter: nat
    var wins: nat
    var losses: nat
    var consecutiveLosses: nat
    var breakerCount: nat
    var pauseUntil: real
    var totalTrades: nat
    var totalWins: nat
    var totalLosses: nat
    var avgWinR: real
    var avgLossR: real
    var winRate: real
    var expectancy: real

    function State(): Stats
      reads this
    {
      Stats(wins, losses, consecutiveLosses, breakerCount, pauseUntil, totalTrades, totalWins, totalLosses,
            avgWinR, avgLossR, winRate, expectancy)
    }

    function Today(): Day
      reads this
    {
      Day(tradesToday, dailyStopTriggered, dailyStartEquity, barCounter)
    }

    constructor (limit: int)
      ensures State() == FRESH && Today() == Day(0, false, 0.0, 0) && maxConsecutiveLosses == limit
    {
      tradesToday, dailyStopTriggered, dailyStartEquity, barCounter := 0, false, 0.0, 0;
      maxConsecutiveLosses := limit;
      wins, losses, consecutiveLosses, breakerCount, pauseUntil := 0, 0, 0, 0, 0.0;
      totalTrades, totalWins, totalLosses := 0, 0, 0;
      avgWinR, avgLossR, winRate, expectancy := 0.0, 0.0, 0.0, 0.0;
    }

    method OnLoss(now: real)
      modifies this
      ensures State() == Lost(old(State()), now, maxConsecutiveLosses) && Today() == old(Today())
    {
      hide PauseHours;
      losses := losses + 1;
      totalLosses := totalLosses + 1;
      consecutiveLosses := consecutiveLosses + 1;
      if consecutiveLosses >= maxConsecutiveLosses {
        breakerCount := breakerCount + 1;
        pauseUntil := now + PauseHours(breakerCount) as real * HOUR;
        consecutiveLosses := 0;
      }
    }

    method OnWin()
      modifies this
      ensures State() == Won(old(State())) && Today() == old(Today())
    {
      wins := wins + 1;
      totalWins := totalWins + 1;
      consecutiveLosses := 0;
    }

    method UpdateStats(pnl: real, rMultiple: real)
      modifies this
      ensures State() == Updated(old(State()), pnl, rMultiple) && Today() == old(Today())
    {
      hide Running, Ratio, Expectancy;
      totalTrades := totalTrades + 1;
      if pnl > 0.0 {
        avgWinR := Running(avgWinR, rMultiple, AtLeastOne(totalWins));
      } else {
        avgLossR := Running(avgLossR, Abs(rMultiple), AtLeastOne(totalLosses));
      }
      if totalTrades > 0 {
        winRate := Ratio(totalWins, totalTrades);
        expectancy := Expectancy(winRate, avgWinR, avgLossR);
      }
    }

    method ResetDaily(currentEquity: real)
      modifies this
      ensures State() == NextDay(old(State())) && Today() == Day(0, false, currentEquity, 0)
    {
      tradesToday := 0;
      wins := 0;
      losses := 0;
      dailyStopTriggered := false;
      dailyStartEquity := currentEquity;
      barCounter := 0;
    }

    /** The calls main_legacy.py makes for every closed trade. */
    method CloseTrade(pnl: real, riskDollars: real, now: real)
      modifies this
      ensures State() == Closed(old(State()), pnl, riskDollars, now, maxConsecutiveLosses) && Today() == old(Today())
    {
      hide Running, Ratio, Expectancy, RMultiple;
      var rMultiple := RMultiple(pnl, riskDollars);
      if pnl > 0.0 {
        OnWin();
      } else {
        OnLoss(now);
      }
      UpdateStats(pnl, rMultiple);
    }
  }

  // ---------- whole runs ----------

  datatype Event = Trade(pnl: real, risk: real, at: real) | Midnight

  function Next(s: Stats, e: Event, limit: int): Stats {
    match e
    case Trade(pnl, risk, at) => Closed(s, pnl, risk, at, limit)
    case Midnight => NextDay(s)
  }

  function After(events: seq<Event>, limit: int): Stats
    decreases |events|
  {
    if events == [] then FRESH
    else Next(After(events[..|events| - 1], limit), events[|events| - 1], limit)
  }

  predicate IsWin(e: Event) {
    e.Trade? && e.pnl > 0.0
  }

  predicate IsLoss(e: Event) {
    e.Trade? && e.pnl <= 0.0
  }

  function Wins(events: seq<Event>): seq<real>
    decreases |events|
  {
    if events == [] then []
    else
      var before, last := Wins(events[..|events| - 1]), events[|events| - 1];
      if IsWin(last) then before + [RMultiple(last.pnl, last.risk)] else before
  }

  function Losses(events: seq<Event>): seq<real>
    decreases |events|
  {
    if events == [] then []
    else
      var before, last := Losses(events[..|events| - 1]), events[|events| - 1];
      if IsLoss(last) then before + [RMultiple(last.pnl, last.risk)] else before
  }

  function Multiples(events: seq<Event>): seq<real>
    decreases |events|
  {
    if events == [] then []
    else
      var before, last := Multiples(events[..|events| - 1]), events[|events| - 1];
      if last.Trade? then before + [RMultiple(last.pnl, last.risk)] else before
  }

  function Total(xs: seq<real>): real {
    if xs == [] then 0.0 else Total(xs[..|xs| - 1]) + xs[|xs| - 1]
  }

  /** The arithmetic mean; 0 for no values, as the fields start. */
  function Mean(xs: seq<real>): real {
    if xs == [] then 0.0 else Total(xs) / (|xs| as real)
  }

  /** A trade's R multiple has the sign of its profit. */
  lemma RMultipleSign(pnl: real, risk: real)
    ensures pnl > 0.0 <==> RMultiple(pnl, risk) > 0.0
    ensures pnl <= 0.0 <==> RMultiple(pnl, risk) <= 0.0
  {
    var r, d := RMultiple(pnl, risk), Max(risk, MIN_RISK);
    assert r * d == pnl;
    if r > 0.0 { ScaleStrict(0.0, r, d); } else { ScaleMono(r, 0.0, d); }
  }

  lemma RunningMean(average: real, value: real, sum: real, n: nat)
    requires n > 0 && Worth(average, (n - 1) as real) == sum
    ensures Worth(Running(average, value, n), n as real) == sum + value
  {
    var k, step := n as real, (value - average) / (n as real);
    assert step * k == value - average;
    assert (average + step) * k == average * k + step * k;
    assert average * k == average * (k - 1.0) + average;
  }

  lemma ExpectancyIsMean(wins: nat, losses: nat, avgWin: real, avgLoss: real)
    requires wins + losses > 0
    ensures Worth(Expectancy(Ratio(wins, wins + losses), avgWin, avgLoss), (wins + losses) as real)
         == Worth(avgWin, wins as real) - Worth(avgLoss, losses as real)
  {
    var n, p := (wins + losses) as real, Ratio(wins, wins + losses);
    assert p * n == wins as real;
    assert (1.0 - p) * n == losses as real;
    assert (p * avgWin) * n == (p * n) * avgWin;
    assert ((1.0 - p) * avgLoss) * n == ((1.0 - p) * n) * avgLoss;
    assert (p * avgWin - (1.0 - p) * avgLoss) * n == (p * avgWin) * n - ((1.0 - p) * avgLoss) * n;
  }

  lemma TotalOfAppended(xs: seq<real>, x: real)
    ensures Total(xs + [x]) == Total(xs) + x
  {
    assert (xs + [x])[..|xs|] == xs;
  }

  /** Counters and sums kept by the running averages. */
  ghost predicate Consistent(s: Stats, events: seq<Event>) {
    && s.totalWins == |Wins(events)| && s.totalLosses == |Losses(events)|
    && s.trades == |Multiples(events)| == s.totalWins + s.totalLosses
    && Worth(s.avgWin, s.totalWins as real) == Total(Wins(events))
    && Worth(s.avgLoss, s.totalLosses as real) == -Total(Losses(events))
    && Total(Multiples(events)) == Total(Wins(events)) + Total(Losses(events))
    && (s.trades > 0 ==> s.winRate == Ratio(s.totalWins, s.trades))
    && (s.trades > 0 ==> s.expectancy == Expectancy(s.winRate, s.avgWin, s.avgLoss))
    && (s.totalWins == 0 ==> s.avgWin == 0.0) && (s.totalLosses == 0 ==> s.avgLoss == 0.0)
    && (s.trades == 0 ==> s.winRate == 0.0 && s.expectancy == 0.0)
  }

  lemma {:induction false} StatisticsAreConsistent(events: seq<Event>, limit: int)
    ensures Consistent(After(events, limit), events)
    decreases |events|
  {
    hide Worth, Running, Ratio, Expectancy, RMultiple, Total;
    if events == [] {
      WorthZero(0.0);
      assert Total([]) == 0.0 by { TotalOfNothing(); }
    } else {
      var before, last := events[..|events| - 1], events[|events| - 1];
      StatisticsAreConsistent(before, limit);
      var s := After(before, limit);
      if last.Trade? {
        var r := RMultiple(last.pnl, last.risk);
        RMultipleSign(last.pnl, last.risk);
        TotalOfAppended(Multiples(before), r);
        if last.pnl > 0.0 {
          TotalOfAppended(Wins(before), r);
          RunningMean(s.avgWin, r, Total(Wins(before)), s.totalWins + 1);
        } else {
          TotalOfAppended(Losses(before), r);
          RunningMean(s.avgLoss, Abs(r), -Total(Losses(before)), s.totalLosses + 1);
        }
      }
    }
  }

  lemma TotalOfNothing()
    ensures Total([]) == 0.0
  {
  }

  lemma MeanFromSum(average: real, xs: seq<real>)
    requires xs != [] && Worth(average, |xs| as real) == Total(xs)
    ensures average == Mean(xs)
  {
    hide Total;
    var k := |xs| as real;
    var mean := Total(xs) / k;
    assert mean * k == average * k;
    CompareScaled(average, mean, k);
    CompareScaled(mean, average, k);
  }

  /** Over any run of closed trades and midnights the running averages are the arithmetic means of the
      winning R multiples and of the losing ones (in absolute value), and the expectancy is the mean of
      all R multiples so far. */
  lemma StatisticsAreMeans(events: seq<Event>, limit: int)
    ensures var s := After(events, limit);
            && s.avgWin == Mean(Wins(events)) && s.avgLoss == -Mean(Losses(events))
            && s.expectancy == Mean(Multiples(events))
            && s.trades == |Multiples(events)|
            && (s.trades > 0 ==> s.winRate == Ratio(|Wins(events)|, s.trades))
  {
    hide Worth, Ratio, Expectancy, Total, After, Wins, Losses, Multiples;
    StatisticsAreConsistent(events, limit);
    var s := After(events, limit);
    if s.totalWins > 0 { MeanFromSum(s.avgWin, Wins(events)); }
    if s.totalLosses > 0 {
      WorthNegated(s.avgLoss, s.totalLosses as real);
      MeanFromSum(-s.avgLoss, Losses(events));
    }
    if s.trades > 0 {
      ExpectancyIsMean(s.totalWins, s.totalLosses, s.avgWin, s.avgLoss);
      MeanFromSum(s.expectancy, Multiples(events));
    }
  }

  lemma WorthNegated(x: real, k: real)
    ensures Worth(-x, k) == -Worth(x, k)
  {
  }

  // ---------- the loss-streak breaker ----------

  /** Losses since the last win, midnights ignored. */
  function Trailing(events: seq<Event>): nat
    decreases |events|
  {
    if events == [] then 0
    else
      var before, last := Trailing(events[..|events| - 1]), events[|events| - 1];
      if IsWin(last) then 0 else if IsLoss(last) then before + 1 else before
  }

  /** A limit below 1 behaves as 1: every loss trips the breaker. */
  function Every(limit: int): nat
    ensures Every(limit) > 0
  {
    if limit > 1 then limit else 1
  }

  /** How far a streak has got towards the next trip. */
  function Progress(streak: nat, limit: int): (r: nat)
    ensures r < Every(limit)
  {
    streak % Every(limit)
  }

  /** The breaker trips on every limit-th loss of an unbroken streak. */
  predicate Trips(events: seq<Event>, limit: int) {
    events != [] && IsLoss(events[|events| - 1]) && Progress(Trailing(events), limit) == 0
  }

  /** The pause in force: that of the last trip, 4 hours times the trips so far, at most 48. */
  function Pause(events: seq<Event>, limit: int): real
    decreases |events|
  {
    if events == [] then 0.0
    else if Trips(events, limit) then
      events[|events| - 1].at + PauseHours(TripCount(events, limit)) as real * HOUR
    else Pause(events[..|events| - 1], limit)
  }

  function TripCount(events: seq<Event>, limit: int): nat
    decreases |events|
  {
    if events == [] then 0
    else TripCount(events[..|events| - 1], limit) + if Trips(events, limit) then 1 else 0
  }

  lemma NextProgress(n: nat, limit: int)
    ensures Progress(n + 1, limit) == if Progress(n, limit) + 1 == Every(limit) then 0 else Progress(n, limit) + 1
  {
    var k := Every(limit);
    var q, r := n / k, n % k;
    assert n == q * k + r;
    if r + 1 == k {
      assert n + 1 == (q + 1) * k;
      RemainderIs(n + 1, q + 1, 0, k);
    } else {
      RemainderIs(n + 1, q, r + 1, k);
    }
  }

  lemma RemainderIs(n: int, q: int, r: nat, k: nat)
    requires r < k && n == q * k + r
    ensures n % k == r
  {
    var gap := q - n / k;
    assert gap * k == n % k - r;
    assert gap == 0;
  }

  /** What one event does to the breaker's fields. */
  lemma BreakerStep(s: Stats, e: Event, limit: int)
    requires s.streak < Every(limit)
    ensures var t := Next(s, e, limit);
            var trips := IsLoss(e) && s.streak + 1 == Every(limit);
            && t.streak == (if trips || IsWin(e) then 0 else if IsLoss(e) then s.streak + 1 else s.streak)
            && t.breakers == (if trips then s.breakers + 1 else s.breakers)
            && t.pauseUntil == (if trips then e.at + PauseHours(s.breakers + 1) as real * HOUR else s.pauseUntil)
  {
    hide Running, Ratio, Expectancy, RMultiple, PauseHours;
  }

  /** Over any run the breaker trips exactly on every limit-th consecutive loss; a trip restarts the
      count, a win clears it, midnight does neither. */
  lemma {:induction false} BreakerIsExact(events: seq<Event>, limit: int)
    ensures After(events, limit).streak == Progress(Trailing(events), limit)
    ensures After(events, limit).breakers == TripCount(events, limit)
    ensures After(events, limit).pauseUntil == Pause(events, limit)
    decreases |events|
  {
    hide Next, PauseHours, Progress;
    NoProgress(limit);
    if events != [] {
      var before := events[..|events| - 1];
      BreakerIsExact(before, limit);
      BreakerStep(After(before, limit), events[|events| - 1], limit);
      NextProgress(Trailing(before), limit);
    }
  }

  lemma NoProgress(limit: int)
    ensures Progress(0, limit) == 0
  {
    RemainderIs(0, 0, 0, Every(limit));
  }

  predicate ClockMovesOn(events: seq<Event>) {
    forall i, j | 0 <= i < j < |events| && events[i].Trade? && events[j].Trade? :: events[i].at <= events[j].at
  }

  /** While the clock does not run back, nothing shortens a pause. */
  lemma PausesNeverShrink(events: seq<Event>, limit: int, n: nat)
    requires n <= |events| && ClockMovesOn(events)
    requires forall e | e in events && e.Trade? :: e.at >= 0.0
    ensures After(events[..n], limit).pauseUntil <= After(events, limit).pauseUntil
    decreases |events|
  {
    hide After;
    BreakerIsExact(events[..n], limit);
    BreakerIsExact(events, limit);
    PauseGrows(events, limit, n);
  }

  /** The hours in force end with a trade of the run, or there are none. */
  lemma {:induction false} PauseIsBounded(events: seq<Event>, limit: int, until: real)
    requires forall e | e in events && e.Trade? :: e.at <= until
    requires until >= 0.0
    ensures Pause(events, limit) <= until + PauseHours(TripCount(events, limit)) as real * HOUR
    decreases |events|
  {
    hide Trips;
    if events == [] {
    } else if Trips(events, limit) {
      TripIsATrade(events, limit);
    } else {
      PauseIsBounded(events[..|events| - 1], limit, until);
    }
  }

  lemma {:induction false} PauseGrows(events: seq<Event>, limit: int, n: nat)
    requires n <= |events| && ClockMovesOn(events)
    requires forall e | e in events && e.Trade? :: e.at >= 0.0
    ensures Pause(events[..n], limit) <= Pause(events, limit)
    decreases |events|
  {
    hide Trips;
    if n < |events| {
      var m := |events| - 1;
      var before := events[..m];
      assert events[..n] == before[..n];
      PauseGrows(before, limit, n);
      if Trips(events, limit) {
        TripIsATrade(events, limit);
        PauseIsBounded(before, limit, events[m].at);
      }
    } else {
      assert events[..n] == events;
    }
  }

  lemma TripIsATrade(events: seq<Event>, limit: int)
    requires Trips(events, limit)
    ensures events != [] && events[|events| - 1].Trade?
  {
  }

  // ---------- sizes ----------

  /** An R multiple is the profit over the risk, and over a millionth where less was risked. */
  lemma RMultipleMeans(pnl: real, risk: real)
    ensures risk >= 0.000001 ==> RMultiple(pnl, risk) * risk == pnl
    ensures risk < 0.000001 ==> RMultiple(pnl, risk) == pnl * 1000000.0
  {
  }

  /** What all trades of a run earned, and how many there were. */
  function Profit(events: seq<Event>): real
    decreases |events|
  {
    if events == [] then 0.0
    else
      var before, last := Profit(events[..|events| - 1]), events[|events| - 1];
      if last.Trade? then before + last.pnl else before
  }

  /** When every trade risks the same amount, the expectancy is the mean profit in units of that amount. */
  lemma ExpectancyIsProfit(events: seq<Event>, limit: int, risk: real)
    requires risk >= 0.000001 && forall e | e in events && e.Trade? :: e.risk == risk
    ensures var s := After(events, limit);
            s.expectancy * s.trades as real * risk == Profit(events)
  {
    hide After, Profit, Multiples, Total;
    StatisticsAreMeans(events, limit);
    MultiplesAddUp(events, risk);
    var s := After(events, limit);
    if s.trades > 0 {
      var mean, n := s.expectancy, s.trades as real;
      assert mean * n == Total(Multiples(events));
      assert mean * n * risk == (mean * n) * risk;
    } else {
      assert Total(Multiples(events)) == 0.0 by { TotalOfNothing(); }
    }
  }

  lemma {:induction false} MultiplesAddUp(events: seq<Event>, risk: real)
    requires risk >= 0.000001 && forall e | e in events && e.Trade? :: e.risk == risk
    ensures Total(Multiples(events)) * risk == Profit(events)
    decreases |events|
  {
    hide RMultiple, Total;
    if events == [] {
      TotalOfNothing();
    } else {
      var before, last := events[..|events| - 1], events[|events| - 1];
      MultiplesAddUp(before, risk);
      if last.Trade? {
        assert last in events;
        TotalOfAppended(Multiples(before), RMultiple(last.pnl, risk));
        RMultipleMeans(last.pnl, risk);
      }
    }
  }

  /** A trip pauses for four hours times the trips so far, two days at most. */
  lemma TripPausesFor(s: Stats, e: Event, limit: int)
    requires IsLoss(e) && s.streak + 1 >= limit
    ensures var t := Next(s, e, limit);
            && t.breakers == s.breakers + 1 && t.streak == 0
            && t.pauseUntil - e.at == (if t.breakers <= 12 then t.breakers as real * 14400.0 else 172800.0)
  {
    hide Running, Ratio, Expectancy, RMultiple;
  }

  /** Trades since the last midnight. */
  function SinceMidnight(events: seq<Event>): seq<Event>
    decreases |events|
  {
    if events == [] || events[|events| - 1].Midnight? then []
    else SinceMidnight(events[..|events| - 1]) + [events[|events| - 1]]
  }

  /** What one more event adds to the counts of wins and losses. */
  lemma OneMoreEvent(events: seq<Event>, e: Event)
    ensures |Wins(events + [e])| == |Wins(events)| + (if e.Trade? && e.pnl > 0.0 then 1 else 0)
    ensures |Losses(events + [e])| == |Losses(events)| + (if e.Trade? && e.pnl <= 0.0 then 1 else 0)
  {
    hide RMultiple;
    assert (events + [e])[..|events|] == events;
  }

  lemma DailyStep(s: Stats, e: Event, limit: int)
    ensures var t := Next(s, e, limit);
            match e
            case Midnight => t.wins == 0 && t.losses == 0
            case Trade(pnl, _, _) =>
              && t.wins == s.wins + (if pnl > 0.0 then 1 else 0) && t.losses == s.losses + (if pnl <= 0.0 then 1 else 0)
  {
    hide Running, Ratio, Expectancy, RMultiple, PauseHours;
  }

  lemma {:induction false} DailyCounters(events: seq<Event>, limit: int)
    ensures After(events, limit).wins == |Wins(SinceMidnight(events))|
    ensures After(events, limit).losses == |Losses(SinceMidnight(events))|
    decreases |events|
  {
    hide Next, Wins, Losses;
    if events == [] {
      NoTrades();
    } else {
      var before, last := events[..|events| - 1], events[|events| - 1];
      DailyCounters(before, limit);
      DailyStep(After(before, limit), last, limit);
      if last.Trade? {
        OneMoreEvent(SinceMidnight(before), last);
      } else {
        NoTrades();
      }
    }
  }

  lemma NoTrades()
    ensures Wins([]) == [] && Losses([]) == []
  {
  }

  /** The daily counters are the wins and losses since the last midnight, the others those of all time, and
      the win rate is their ratio. */
  lemma CountersCount(events: seq<Event>, limit: int)
    ensures var s := After(events, limit);
            && s.wins == |Wins(SinceMidnight(events))| && s.losses == |Losses(SinceMidnight(events))|
            && s.totalWins == |Wins(events)| && s.totalLosses == |Losses(events)|
            && s.trades == s.totalWins + s.totalLosses
            && (s.trades > 0 ==> s.winRate * s.trades as real == s.totalWins as real)
  {
    hide After, Wins, Losses, Multiples, Total, Worth, Expectancy;
    DailyCounters(events, limit);
    StatisticsAreConsistent(events, limit);
  }
}
