/** What the live strategy keeps over every stream of ticks, order books and positions. */
module StrategyLaws {
  import opened Common
  import opened Strategy

  // ---------- streams ----------

  datatype Input =
    | Tick(symbol: string, mid: real)
    | Book(active: bool, view: BookView, readings: Readings, held: Option<Held>)

  /** A signal with the clock reading it was stamped with and the position it was made for. */
  datatype Emission = Emission(signal: Signal, at: real, held: Option<Held>)

  datatype Run = Run(state: State, log: seq<Emission>)

  function Play(c: Config, inputs: seq<Input>): Run {
    if inputs == [] then Run(FRESH, [])
    else Next(c, Play(c, inputs[..|inputs| - 1]), inputs[|inputs| - 1])
  }

  function Next(c: Config, run: Run, i: Input): Run {
    match i
    case Tick(symbol, mid) => run.(state := TickStep(c, run.state, symbol, mid))
    case Book(active, view, readings, held) =>
      var (state, signal) := OrderbookStep(c, run.state, active, view, readings, held);
      Run(state, if signal.Some? then run.log + [Emission(signal.value, readings.stamp, held)] else run.log)
  }

  /** The clock never runs backwards: not within a call, and not from one call to a later one. */
  predicate Timely(inputs: seq<Input>) {
    && (forall i | 0 <= i < |inputs| && inputs[i].Book? :: inputs[i].readings.now <= inputs[i].readings.stamp)
    && (forall i, j | 0 <= i < j < |inputs| && inputs[i].Book? && inputs[j].Book? ::
          inputs[i].readings.stamp <= inputs[j].readings.now)
  }

  predicate AllBy(inputs: seq<Input>, t: real) {
    forall i | 0 <= i < |inputs| && inputs[i].Book? :: inputs[i].readings.stamp <= t
  }

  // ---------- what one order book does ----------

  predicate KeepsBlocks(before: State, after: State, now: real) {
    forall symbol | symbol in before.blockedUntil ::
      now >= before.blockedUntil[symbol]
      || (symbol in after.blockedUntil && after.blockedUntil[symbol] >= before.blockedUntil[symbol])
  }

  predicate BlocksFor(st: State, symbol: string, until: real) {
    symbol in st.blockedUntil && st.blockedUntil[symbol] >= until
  }

  /** An exit trades the whole position away. */
  predicate ClosesAll(s: Signal, held: Option<Held>) {
    && held.Some? && held.value.quantity != 0.0
    && s.quantity == Abs(held.value.quantity)
    && s.side == (if held.value.quantity > 0.0 then Sell else Buy)
  }

  lemma CheckingKeepsBlocks(st: State, symbol: string, now: real)
    ensures KeepsBlocks(st, BlockChecked(st, symbol, now), now)
    ensures BlockChecked(st, symbol, now) == st.(blockedUntil := BlockChecked(st, symbol, now).blockedUntil)
  {
  }

  lemma BlockingKeepsBlocks(st: State, symbol: string, seconds: real, at: real, now: real)
    ensures KeepsBlocks(st, BlockFor(st, symbol, seconds, at), now)
    ensures BlockFor(st, symbol, seconds, at) == st.(blockedUntil := BlockFor(st, symbol, seconds, at).blockedUntil)
    ensures seconds > 0.0 ==> BlocksFor(BlockFor(st, symbol, seconds, at), symbol, at + seconds)
  {
  }

  lemma KeepsBlocksTwice(x: State, y: State, z: State, now: real)
    requires KeepsBlocks(x, y, now) && KeepsBlocks(y, z, now)
    ensures KeepsBlocks(x, z, now)
  {
  }

  lemma EntryEffects(c: Config, st: State, b: BookView, zscore: real)
    ensures var (after, signal) := EntryDecision(c, st, b, zscore);
            && after == st.(imbalances := after.imbalances)
            && (signal.Some? ==> signal.value.kind == Entry && signal.value.symbol == b.symbol)
  {
    hide Pushed, Confirmed, ExpectedEdgeBps, RequiredEdgeBps, EntryQuantity;
  }

  lemma FlatEffects(c: Config, st: State, b: BookView, r: Readings)
    ensures var (after, signal) := FlatStep(c, st, b, r);
            && after.lastExit == st.lastExit && after.mids == st.mids
            && KeepsBlocks(st, after, r.now)
            && (signal.None? ==> after.lastEntry == st.lastEntry)
            && (signal.Some? ==>
                && signal.value.kind == Entry && signal.value.symbol == b.symbol
                && !OnCooldown(st.lastEntry, b.symbol, c.cooldown, r.now) && !Blocked(st, b.symbol, r.now)
                && after.lastEntry == st.lastEntry[b.symbol := r.stamp])
  {
    hide EntryDecision, RecentReturnBps, BtcAllows, OnCooldown, Blocked, BlockChecked, BlockFor, KeepsBlocks, WindowOf;
    var unseen := st.(seenAt := st.seenAt - {b.symbol});
    var checked := BlockChecked(unseen, b.symbol, r.now);
    SameBlocks(st, unseen, r.now);
    CheckingKeepsBlocks(unseen, b.symbol, r.now);
    EntryEffects(c, checked, b, r.zscore);
    var dropped := BlockFor(checked, b.symbol, c.lossCooldown, r.stamp);
    BlockingKeepsBlocks(checked, b.symbol, c.lossCooldown, r.stamp, r.now);
    KeepsBlocksTwice(unseen, checked, dropped, r.now);
    KeepsBlocksTwice(st, unseen, checked, r.now);
    KeepsBlocksTwice(st, unseen, dropped, r.now);
    var after := FlatStep(c, st, b, r).0;
    SameBlocks(checked, after.(blockedUntil := checked.blockedUntil), r.now);
    KeepsBlocksTwice(st, checked, after.(blockedUntil := checked.blockedUntil), r.now);
  }

  lemma SameBlocks(x: State, y: State, now: real)
    requires x.blockedUntil == y.blockedUntil
    ensures KeepsBlocks(x, y, now)
  {
  }

  lemma ExitSignal(c: Config, st: State, h: Held, b: BookView, r: Readings)
    requires h.quantity != 0.0 && ExitDecision(c, st, h, b, r).Some?
    ensures var s := ExitDecision(c, st, h, b, r).value;
            s.kind.Exit? && s.symbol == b.symbol && ClosesAll(s, Some(h))
  {
    hide ExitReason, PnlBps, JudgedAt;
  }

  lemma HoldingEffects(c: Config, st: State, h: Held, b: BookView, r: Readings)
    requires h.quantity != 0.0
    ensures var (after, signal) := HoldingStep(c, st, h, b, r);
            && after.lastEntry == st.lastEntry && after.mids == st.mids
            && KeepsBlocks(st, after, r.now)
            && (signal.None? ==> after.lastExit == st.lastExit)
            && (signal.Some? ==>
                && signal.value.kind.Exit? && signal.value.symbol == b.symbol
                && ClosesAll(signal.value, Some(h))
                && !OnCooldown(st.lastExit, b.symbol, ExitCooldown(c), r.now)
                && after.lastExit == st.lastExit[b.symbol := r.stamp]
                && (BlockAfter(c, signal.value.kind.why) > 0.0 ==>
                    BlocksFor(after, b.symbol, r.stamp + BlockAfter(c, signal.value.kind.why))))
  {
    hide ExitDecision, OnCooldown, BlockAfter, BlockFor, KeepsBlocks, ClosesAll, BlocksFor;
    var seen := if b.symbol in st.seenAt then st else st.(seenAt := st.seenAt[b.symbol := r.now]);
    SameBlocks(st, seen, r.now);
    var signal := ExitDecision(c, seen, h, b, r);
    if signal.Some? {
      ExitSignal(c, seen, h, b, r);
      var stamped := seen.(lastExit := seen.lastExit[b.symbol := r.stamp]);
      SameBlocks(st, stamped, r.now);
      BlockingKeepsBlocks(stamped, b.symbol, BlockAfter(c, signal.value.kind.why), r.stamp, r.now);
      KeepsBlocksTwice(st, stamped, HoldingStep(c, st, h, b, r).0, r.now);
    } else {
      SameBlocks(st, st, r.now);
    }
  }

  // ---------- the invariant ----------

  /** Two emissions, the first earlier in the log, keep their distance. */
  predicate Apart(c: Config, first: Emission, second: Emission) {
    first.signal.symbol == second.signal.symbol ==>
      match (first.signal.kind, second.signal.kind)
      case (Entry, Entry) => second.at >= first.at + c.cooldown
      case (Exit(_), Exit(_)) => second.at >= first.at + ExitCooldown(c)
      case (Exit(why), Entry) => second.at >= first.at + BlockAfter(c, why)
      case (Entry, Exit(_)) => second.at >= first.at
  }

  predicate Spaced(c: Config, log: seq<Emission>) {
    forall i, j | 0 <= i < j < |log| :: Apart(c, log[i], log[j])
  }

  /** What the state remembers about an emission, at a time t no earlier than it. */
  predicate Remembered(c: Config, st: State, e: Emission, t: real) {
    var symbol := e.signal.symbol;
    && e.at <= t
    && (e.signal.kind == Entry ==> symbol in st.lastEntry && e.at <= st.lastEntry[symbol])
    && (e.signal.kind.Exit? ==>
        && symbol in st.lastExit && e.at <= st.lastExit[symbol]
        && ClosesAll(e.signal, e.held)
        && (t >= e.at + BlockAfter(c, e.signal.kind.why)
            || BlocksFor(st, symbol, e.at + BlockAfter(c, e.signal.kind.why))))
  }

  predicate StampsBy(store: map<string, real>, t: real) {
    forall symbol | symbol in store :: store[symbol] <= t
  }

  predicate Kept(c: Config, run: Run, t: real) {
    && Spaced(c, run.log)
    && (forall i | 0 <= i < |run.log| :: Remembered(c, run.state, run.log[i], t))
    && StampsBy(run.state.lastEntry, t) && StampsBy(run.state.lastExit, t)
  }

  /** Recorded times are kept, or replaced by a given stamp. */
  predicate OnlyStamped(before: map<string, real>, after: map<string, real>, stamp: real) {
    forall symbol | symbol in before :: symbol in after && (after[symbol] == before[symbol] || after[symbol] == stamp)
  }

  lemma StillRemembered(c: Config, before: State, after: State, e: Emission, r: Readings, t: real)
    requires ValidConfig(c) && r.now <= r.stamp <= t
    requires Remembered(c, before, e, r.now) && StampsBy(before.lastEntry, r.now) && StampsBy(before.lastExit, r.now)
    requires KeepsBlocks(before, after, r.now)
    requires OnlyStamped(before.lastEntry, after.lastEntry, r.stamp)
    requires OnlyStamped(before.lastExit, after.lastExit, r.stamp)
    ensures Remembered(c, after, e, t)
  {
    hide BlockAfter, ClosesAll;
  }

  /** Everything remembered keeps its distance from what one order book emits. */
  lemma NewEmissionIsApart(c: Config, st: State, old_: Emission, e: Emission, r: Readings)
    requires ValidConfig(c) && r.now <= r.stamp && e.at == r.stamp && Remembered(c, st, old_, r.now)
    requires e.signal.kind == Entry ==>
      !OnCooldown(st.lastEntry, e.signal.symbol, c.cooldown, r.now) && !Blocked(st, e.signal.symbol, r.now)
    requires e.signal.kind.Exit? ==> !OnCooldown(st.lastExit, e.signal.symbol, ExitCooldown(c), r.now)
    ensures Apart(c, old_, e)
  {
    hide BlockAfter, ClosesAll;
  }

  /** The combined effect of an order book, whichever branch it takes. */
  lemma BookEffects(c: Config, st: State, active: bool, b: BookView, r: Readings, held: Option<Held>)
    ensures var (after, signal) := OrderbookStep(c, st, active, b, r, held);
            && KeepsBlocks(st, after, r.now)
            && (signal.None? ==> after.lastEntry == st.lastEntry && after.lastExit == st.lastExit)
            && (signal.Some? ==> signal.value.symbol == b.symbol)
            && (signal.Some? && signal.value.kind == Entry ==>
                && !OnCooldown(st.lastEntry, b.symbol, c.cooldown, r.now) && !Blocked(st, b.symbol, r.now)
                && after.lastExit == st.lastExit && after.lastEntry == st.lastEntry[b.symbol := r.stamp])
            && (signal.Some? && signal.value.kind.Exit? ==>
                && !OnCooldown(st.lastExit, b.symbol, ExitCooldown(c), r.now)
                && ClosesAll(signal.value, held)
                && after.lastEntry == st.lastEntry && after.lastExit == st.lastExit[b.symbol := r.stamp]
                && (BlockAfter(c, signal.value.kind.why) > 0.0 ==>
                    BlocksFor(after, b.symbol, r.stamp + BlockAfter(c, signal.value.kind.why))))
  {
    hide FlatStep, HoldingStep, BlockAfter, OnCooldown, Pushed;
    var pushed := TickStep(c, st, b.symbol, b.mid);
    assert pushed == st.(mids := pushed.mids);
    FlatEffects(c, pushed, b, r);
    if held.Some? && held.value.quantity != 0.0 {
      HoldingEffects(c, pushed, held.value, b, r);
    }
  }

  lemma BookKeeps(c: Config, run: Run, i: Input, t: real)
    requires ValidConfig(c) && i.Book? && i.readings.now <= i.readings.stamp <= t
    requires Kept(c, run, i.readings.now)
    ensures Kept(c, Next(c, run, i), t)
  {
    hide OrderbookStep, Remembered, Apart, BlockAfter, OnCooldown, Blocked, KeepsBlocks, ClosesAll;
    var r := i.readings;
    var (after, signal) := OrderbookStep(c, run.state, i.active, i.view, r, i.held);
    BookEffects(c, run.state, i.active, i.view, r, i.held);
    var next := Next(c, run, i);
    forall k | 0 <= k < |run.log| ensures Remembered(c, after, run.log[k], t) {
      StillRemembered(c, run.state, after, run.log[k], r, t);
    }
    if signal.Some? {
      var e := Emission(signal.value, r.stamp, i.held);
      forall k | 0 <= k < |run.log| ensures Apart(c, run.log[k], e) {
        NewEmissionIsApart(c, run.state, run.log[k], e, r);
      }
      NewIsRemembered(c, after, e, t);
    }
  }

  lemma NewIsRemembered(c: Config, st: State, e: Emission, t: real)
    requires ValidConfig(c) && e.at <= t
    requires e.signal.kind == Entry ==> e.signal.symbol in st.lastEntry && st.lastEntry[e.signal.symbol] == e.at
    requires e.signal.kind.Exit? ==>
      && e.signal.symbol in st.lastExit && st.lastExit[e.signal.symbol] == e.at
      && ClosesAll(e.signal, e.held)
      && (BlockAfter(c, e.signal.kind.why) > 0.0 ==>
          BlocksFor(st, e.signal.symbol, e.at + BlockAfter(c, e.signal.kind.why)))
    ensures Remembered(c, st, e, t)
  {
  }

  lemma {:induction false} PlayKeeps(c: Config, inputs: seq<Input>, t: real)
    requires ValidConfig(c) && Timely(inputs) && AllBy(inputs, t)
    ensures Kept(c, Play(c, inputs), t)
  {
    hide Next, Remembered, Apart;
    if inputs != [] {
      var earlier, i := inputs[..|inputs| - 1], inputs[|inputs| - 1];
      match i {
        case Tick(symbol, mid) =>
          PlayKeeps(c, earlier, t);
          TickKeeps(c, Play(c, earlier), symbol, mid, t);
        case Book(_, _, readings, _) =>
          PlayKeeps(c, earlier, readings.now);
          BookKeeps(c, Play(c, earlier), i, t);
      }
    }
  }

  lemma TickKeeps(c: Config, run: Run, symbol: string, mid: real, t: real)
    requires Kept(c, run, t)
    ensures Kept(c, Next(c, run, Tick(symbol, mid)), t)
  {
    hide Apart, Pushed;
    var next := Next(c, run, Tick(symbol, mid));
    forall k | 0 <= k < |run.log| ensures Remembered(c, next.state, run.log[k], t) {
    }
  }

  lemma LatestStamp(inputs: seq<Input>) returns (t: real)
    ensures AllBy(inputs, t)
  {
    t := 0.0;
    for i := 0 to |inputs|
      invariant AllBy(inputs[..i], t)
    {
      if inputs[i].Book? {
        t := Max(t, inputs[i].readings.stamp);
      }
    }
    assert inputs[..|inputs|] == inputs;
  }

  /** Over every stream with a clock that never runs backwards: entries of one symbol are at least
      `cooldown` apart, its exits at least max(5, min(cooldown, 30)), no entry falls within the block
      its exit set (`lossCooldown` after a stop loss), and every exit trades the whole position away. */
  lemma SignalsAreSpaced(c: Config, inputs: seq<Input>)
    requires ValidConfig(c) && Timely(inputs)
    ensures var log := Play(c, inputs).log;
            && (forall i, j | 0 <= i < j < |log| :: Apart(c, log[i], log[j]))
            && (forall i | 0 <= i < |log| && log[i].signal.kind.Exit? :: ClosesAll(log[i].signal, log[i].held))
  {
    hide Play, Apart, ClosesAll;
    var t := LatestStamp(inputs);
    PlayKeeps(c, inputs, t);
  }

  /** The same in the configuration's own numbers. */
  lemma SpacingInSeconds(c: Config, inputs: seq<Input>, i: nat, j: nat)
    requires ValidConfig(c) && Timely(inputs) && i < j < |Play(c, inputs).log|
    requires Play(c, inputs).log[i].signal.symbol == Play(c, inputs).log[j].signal.symbol
    ensures var first, second := Play(c, inputs).log[i], Play(c, inputs).log[j];
            && (first.signal.kind == Entry == second.signal.kind ==> second.at - first.at >= c.cooldown)
            && (first.signal.kind.Exit? && second.signal.kind.Exit? ==>
                second.at - first.at >= 5.0 && (second.at - first.at >= 30.0 || second.at - first.at >= c.cooldown))
            && (first.signal.kind == Exit(StopLoss) && second.signal.kind == Entry ==>
                second.at - first.at >= c.lossCooldown)
            && (first.signal.kind in {Exit(TakeProfit), Exit(TimeStop)} && second.signal.kind == Entry ==>
                second.at - first.at >= c.cooldownAfterExit)
  {
    hide Play, ClosesAll;
    SignalsAreSpaced(c, inputs);
    assert Apart(c, Play(c, inputs).log[i], Play(c, inputs).log[j]);
  }

  // ---------- how long an exit blocks ----------

  /** A symbol that is not blocked for another reason is blocked after an exit exactly for the time of the
      exit's kind: loss cooldown after a stop loss, exit cooldown after a take-profit or time stop, no
      time at all after a mean-reversion profit. */
  lemma ExitBlocksExactly(
    c: Config, st: State, active: bool, b: BookView, r: Readings, held: Option<Held>, t: real)
    requires OrderbookStep(c, st, active, b, r, held).1.Some?
    requires OrderbookStep(c, st, active, b, r, held).1.value.kind.Exit?
    requires t >= r.stamp >= 0.0 && !Blocked(st, b.symbol, t)
    ensures var (after, signal) := OrderbookStep(c, st, active, b, r, held);
            && (Blocked(after, b.symbol, t) <==> t < r.stamp + BlockAfter(c, signal.value.kind.why))
            && (signal.value.kind == Exit(StopLoss) ==> (Blocked(after, b.symbol, t) <==> t - r.stamp < c.lossCooldown))
            && (signal.value.kind in {Exit(TakeProfit), Exit(TimeStop)} ==>
                (Blocked(after, b.symbol, t) <==> t - r.stamp < c.cooldownAfterExit))
            && (signal.value.kind == Exit(MeanReversionProfit) ==> !Blocked(after, b.symbol, t))
  {
    hide FlatStep, ExitDecision, TickStep, OnCooldown;
    var pushed := TickStep(c, st, b.symbol, b.mid);
    assert pushed.blockedUntil == st.blockedUntil by { TicksKeepBlocks(c, st, b.symbol, b.mid); }
    FlatEffects(c, pushed, b, r);
  }

  lemma TicksKeepBlocks(c: Config, st: State, symbol: string, mid: real)
    ensures TickStep(c, st, symbol, mid).blockedUntil == st.blockedUntil
  {
  }

  /** What an entry is decided on. */
  predicate SameForEntries(x: State, y: State) {
    x.mids == y.mids && x.lastEntry == y.lastEntry && x.blockedUntil == y.blockedUntil && x.imbalances == y.imbalances
  }

  lemma EntriesReadOnly(c: Config, x: State, y: State, b: BookView, r: Readings)
    requires SameForEntries(x, y)
    ensures FlatStep(c, x, b, r).1 == FlatStep(c, y, b, r).1
  {
    hide EntryDecision, BtcAllows, RecentReturnBps, BlockFor;
    var u := BlockChecked(x.(seenAt := x.seenAt - {b.symbol}), b.symbol, r.now);
    var v := BlockChecked(y.(seenAt := y.seenAt - {b.symbol}), b.symbol, r.now);
    DecisionsReadOnly(c, u, v, b, r.zscore);
    OnlyMidsMatter(c, x, y, r.btcVolatilityBps);
  }

  lemma DecisionsReadOnly(c: Config, x: State, y: State, b: BookView, zscore: real)
    requires x.mids == y.mids && x.imbalances == y.imbalances
    ensures EntryDecision(c, x, b, zscore).1 == EntryDecision(c, y, b, zscore).1
  {
    hide Pushed, Confirmed, ExpectedEdgeBps, RequiredEdgeBps, EntryQuantity, OrderPrice;
    PushedHolds(x.imbalances, b.symbol, b.imbalance, c.confirmSnapshots);
  }

  /** So an entry can follow a mean-reversion profit at once: on any book, a flat strategy decides after it
      as it would have before. */
  lemma EntryMayFollowReversionProfit(
    c: Config, st: State, h: Held, b: BookView, r: Readings, next: BookView, later: Readings)
    requires h.quantity != 0.0 && HoldingStep(c, st, h, b, r).1.Some?
    requires HoldingStep(c, st, h, b, r).1.value.kind == Exit(MeanReversionProfit)
    ensures FlatStep(c, HoldingStep(c, st, h, b, r).0, next, later).1 == FlatStep(c, st, next, later).1
  {
    hide FlatStep, ExitDecision, OnCooldown;
    EntriesReadOnly(c, HoldingStep(c, st, h, b, r).0, st, next, later);
  }

  // ---------- the rolling window ----------

  /** The mid price an input feeds into a symbol's window, if it feeds one. */
  function Fed(i: Input, symbol: string): Option<real> {
    match i
    case Tick(s, mid) => if s == symbol != "" && mid > 0.0 then Some(mid) else None
    case Book(active, view, _, _) =>
      if active && view.symbol == symbol != "" && view.mid > 0.0 then Some(view.mid) else None
  }

  /** Every mid price a stream feeds into a symbol's window. */
  function MidsSeen(inputs: seq<Input>, symbol: string): seq<real> {
    if inputs == [] then []
    else
      var seen, fed := MidsSeen(inputs[..|inputs| - 1], symbol), Fed(inputs[|inputs| - 1], symbol);
      if fed.Some? then seen + [fed.value] else seen
  }

  lemma LastOfPushed(s: seq<real>, x: real, n: nat)
    requires n > 0
    ensures LastOf(LastOf(s, n) + [x], n) == LastOf(s + [x], n)
  {
  }

  lemma OnlyPushesMids(c: Config, st: State, active: bool, b: BookView, r: Readings, held: Option<Held>)
    ensures OrderbookStep(c, st, active, b, r, held).0.mids
         == (if active then TickStep(c, st, b.symbol, b.mid).mids else st.mids)
  {
    hide FlatStep, HoldingStep, Pushed;
    var pushed := TickStep(c, st, b.symbol, b.mid);
    FlatEffects(c, pushed, b, r);
    if held.Some? && held.value.quantity != 0.0 {
      HoldingEffects(c, pushed, held.value, b, r);
    }
  }

  lemma WindowAfter(c: Config, run: Run, i: Input, symbol: string)
    ensures WindowOf(Next(c, run, i).state.mids, symbol)
         == (if Fed(i, symbol).Some?
             then LastOf(WindowOf(run.state.mids, symbol) + [Fed(i, symbol).value], c.rollingWindow)
             else WindowOf(run.state.mids, symbol))
  {
    hide OrderbookStep;
    if i.Book? {
      OnlyPushesMids(c, run.state, i.active, i.view, i.readings, i.held);
    }
  }

  /** The window of a symbol is always the last `rollingWindow` mids it was fed. */
  lemma {:induction false} WindowIsRecent(c: Config, inputs: seq<Input>, symbol: string)
    requires ValidConfig(c)
    ensures WindowOf(Play(c, inputs).state.mids, symbol) == LastOf(MidsSeen(inputs, symbol), c.rollingWindow)
  {
    hide Next, Fed, LastOf, WindowOf;
    if inputs == [] {
      assert WindowOf(FRESH.mids, symbol) == LastOf([], c.rollingWindow) by { NothingSeen(c, symbol); }
    } else {
      var earlier, i := inputs[..|inputs| - 1], inputs[|inputs| - 1];
      WindowIsRecent(c, earlier, symbol);
      WindowAfter(c, Play(c, earlier), i, symbol);
      if Fed(i, symbol).Some? {
        LastOfPushed(MidsSeen(earlier, symbol), Fed(i, symbol).value, c.rollingWindow);
      }
    }
  }

  lemma NothingSeen(c: Config, symbol: string)
    ensures WindowOf(FRESH.mids, symbol) == LastOf([], c.rollingWindow)
  {
  }
}
