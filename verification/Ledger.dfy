/** portfolio/position_ledger.py and models/position.py: signed quantities, weighted
    average entry prices, a dust rule and a running realised total.

    `LedgerState` is the abstract value of the mutable `PositionLedger`. */
module Ledger {
  import opened Common

  // ---------- values ----------

  datatype Holding = Holding(
    quantity: real,
    averageEntry: real,
    realizedPnl: real,
    unrealizedPnl: real)

  const FLAT := Holding(0.0, 0.0, 0.0, 0.0)

  /** A fill as reported. `side` is None when the side text is neither BUY nor SELL
      in any letter case. */
  datatype Fill = Fill(symbol: string, side: Option<Side>, quantity: real, price: real, fee: real)

  datatype Trade = Trade(symbol: string, side: Side, quantity: real, price: real, pnl: real, fee: real)

  datatype LedgerError = SymbolRequired | QuantityNotPositive | PriceNotPositive | UnknownSide

  datatype LedgerState = LedgerState(
    holdings: map<string, Holding>,
    trades: seq<Trade>,
    realizedTotal: real)

  const EMPTY := LedgerState(map[], [], 0.0)

  // ---------- specification of one fill ----------

  predicate Opposite(quantity: real, delta: real) {
    (quantity > 0.0 && delta < 0.0) || (quantity < 0.0 && delta > 0.0)
  }

  /** How much of a holding an incoming signed quantity closes. */
  function ClosedBy(quantity: real, delta: real, eps: real): real {
    if Abs(quantity) > eps && Opposite(quantity, delta) then Min(Abs(quantity), Abs(delta)) else 0.0
  }

  /** What closing some units earns before fees: a long earns price - entry per unit,
      a short earns entry - price. */
  function PnlOn(h: Holding, price: real, closed: real): real {
    if h.quantity > 0.0 then (price - h.averageEntry) * closed else (h.averageEntry - price) * closed
  }

  function GrossPnl(h: Holding, delta: real, price: real, eps: real): real {
    PnlOn(h, price, ClosedBy(h.quantity, delta, eps))
  }

  lemma NothingClosed(h: Holding, price: real)
    ensures PnlOn(h, price, 0.0) == 0.0
  {
  }

  /** The average price of w units bought at a and v units bought at p. */
  function Blended(w: real, a: real, v: real, p: real): real
    requires w + v > 0.0
  {
    (w * a + v * p) / (w + v)
  }

  /** The holding after an incoming signed quantity, before the ledger decides whether to keep it. */
  function Settled(h: Holding, delta: real, price: real, fee: real, eps: real): Holding
    requires eps >= 0.0
  {
    var left := h.quantity + delta;
    if Abs(h.quantity) <= eps then
      h.(quantity := delta, averageEntry := price)
    else if !Opposite(h.quantity, delta) then
      h.(quantity := left,
         averageEntry := Blended(Abs(h.quantity), h.averageEntry, Abs(delta), price))
    else
      var booked := h.(realizedPnl := h.realizedPnl + GrossPnl(h, delta, price, eps) - fee);
      if Abs(left) <= eps then booked.(quantity := 0.0, averageEntry := 0.0)
      else if Opposite(h.quantity, left) then booked.(quantity := left, averageEntry := price)
      else booked.(quantity := left)
  }

  function Before(st: LedgerState, symbol: string): Holding {
    if symbol in st.holdings then st.holdings[symbol] else FLAT
  }

  /** A holding of at most eps units is removed, not stored. */
  function Store(holdings: map<string, Holding>, symbol: string, h: Holding, eps: real): map<string, Holding> {
    if Abs(h.quantity) <= eps then holdings - {symbol} else holdings[symbol := h]
  }

  function Rejection(f: Fill): Option<LedgerError> {
    if f.symbol == "" then Some(SymbolRequired)
    else if f.quantity <= 0.0 then Some(QuantityNotPositive)
    else if f.price <= 0.0 then Some(PriceNotPositive)
    else if f.side.None? then Some(UnknownSide)
    else None
  }

  predicate Accepted(f: Fill) {
    Rejection(f).None?
  }

  function Delta(f: Fill): real
    requires Accepted(f)
  {
    Signed(f.side.value, f.quantity)
  }

  function TradeOf(st: LedgerState, f: Fill, eps: real): Trade
    requires Accepted(f)
  {
    var pnl := GrossPnl(Before(st, f.symbol), Delta(f), f.price, eps) - f.fee;
    Trade(f.symbol, f.side.value, f.quantity, f.price, pnl, f.fee)
  }

  /** The ledger after a fill; a rejected fill changes nothing. */
  function Apply(st: LedgerState, f: Fill, eps: real): LedgerState
    requires eps >= 0.0
  {
    if !Accepted(f) then st
    else
      var trade := TradeOf(st, f, eps);
      LedgerState(
        Store(st.holdings, f.symbol, Settled(Before(st, f.symbol), Delta(f), f.price, f.fee, eps), eps),
        st.trades + [trade],
        st.realizedTotal + trade.pnl)
  }

  /** Every fill of a run, oldest first. */
  function Replay(st: LedgerState, fills: seq<Fill>, eps: real): LedgerState
    requires eps >= 0.0
  {
    if fills == [] then st else Apply(Replay(st, fills[..|fills| - 1], eps), fills[|fills| - 1], eps)
  }

  /** Unrealised profit at a mark, one formula for longs and shorts. */
  function Marked(h: Holding, mark: real): Holding {
    h.(unrealizedPnl := h.quantity * (mark - h.averageEntry))
  }

  function MarkOne(h: Holding, symbol: string, prices: map<string, real>): Holding {
    if symbol in prices && prices[symbol] > 0.0 then Marked(h, prices[symbol]) else h
  }

  function MarkAll(holdings: map<string, Holding>, prices: map<string, real>): map<string, Holding> {
    map symbol | symbol in holdings :: MarkOne(holdings[symbol], symbol, prices)
  }

  // ---------- saved snapshots ----------

  datatype Snapshot = Snapshot(positions: map<string, Holding>, tradeCount: nat, realizedTotal: real)

  /** One saved position: Malformed stands for anything that is not a dictionary of numbers. */
  datatype RawPosition = Malformed | Raw(quantity: real, averageEntry: real, realizedPnl: real, unrealizedPnl: real)

  /** A saved payload: `realizedTotal` is None when its text is not a number. */
  datatype Payload =
    | NotADictionary
    | PositionsNotADictionary
    | Saved(positions: map<string, RawPosition>, realizedTotal: Option<real>)

  predicate Restorable(raw: RawPosition, eps: real) {
    raw.Raw? && Abs(raw.quantity) > eps && raw.averageEntry > 0.0
  }

  function FromRaw(raw: RawPosition): Holding
    requires raw.Raw?
  {
    Holding(raw.quantity, raw.averageEntry, raw.realizedPnl, raw.unrealizedPnl)
  }

  function Restored(saved: map<string, RawPosition>, eps: real): map<string, Holding> {
    map symbol | symbol in saved && Restorable(saved[symbol], eps) :: FromRaw(saved[symbol])
  }

  /** The payload a snapshot turns into when it is written out and read back. */
  function ToPayload(s: Snapshot): Payload {
    Saved(
      map symbol | symbol in s.positions ::
        Raw(s.positions[symbol].quantity, s.positions[symbol].averageEntry,
            s.positions[symbol].realizedPnl, s.positions[symbol].unrealizedPnl),
      Some(s.realizedTotal))
  }

  function SnapshotOf(st: LedgerState): Snapshot {
    Snapshot(st.holdings, |st.trades|, st.realizedTotal)
  }

  /** The ledger after a restore. A total that is not a number raises after the
      positions were already replaced. */
  function Restore(st: LedgerState, payload: Payload, eps: real): LedgerState {
    match payload
    case NotADictionary => st
    case PositionsNotADictionary => st
    case Saved(positions, total) =>
      LedgerState(Restored(positions, eps), st.trades, if total.Some? then total.value else st.realizedTotal)
  }

  // ---------- the mutable ledger ----------

  /** Positions never leave the ledger except as copies, so the dictionary of position
      objects is a map of values that the methods reassign. */
  class PositionLedger {
    const epsilon: real
    var positions: map<string, Holding>
    var trades: seq<Trade>
    var realizedPnlTotal: real

    ghost predicate Valid() {
      epsilon >= 0.0
    }

    function State(): LedgerState
      reads this
    {
      LedgerState(positions, trades, realizedPnlTotal)
    }

    constructor (epsilon: real)
      requires epsilon >= 0.0
      ensures Valid() && State() == EMPTY && this.epsilon == epsilon
    {
      this.epsilon := epsilon;
      positions := map[];
      trades := [];
      realizedPnlTotal := 0.0;
    }

    method ApplySignedFill(position: Holding, delta: real, price: real, fee: real)
      returns (after: Holding, pnl: real)
      requires Valid() && delta != 0.0
      ensures after == Settled(position, delta, price, fee, epsilon)
      ensures pnl == GrossPnl(position, delta, price, epsilon) - fee
    {
      hide PnlOn, Blended;
      NothingClosed(position, price);
      var current := position.quantity;
      if Abs(current) <= epsilon {
        return position.(quantity := delta, averageEntry := price), -fee;
      }
      if (current > 0.0 && delta > 0.0) || (current < 0.0 && delta < 0.0) {
        var entry := Blended(Abs(current), position.averageEntry, Abs(delta), price);
        assert ClosedBy(current, delta, epsilon) == 0.0;
        return position.(quantity := current + delta, averageEntry := entry), -fee;
      }
      after := position;
      var closed := Min(Abs(current), Abs(delta));
      var gross := PnlOn(position, price, closed);
      var remaining := current + delta;
      if Abs(remaining) <= epsilon {
        after := after.(quantity := 0.0, averageEntry := 0.0);
      } else if (current > 0.0 && 0.0 > remaining) || (current < 0.0 && 0.0 < remaining) {
        after := after.(quantity := remaining, averageEntry := price);
      } else {
        after := after.(quantity := remaining);
      }
      pnl := gross - fee;
      after := after.(realizedPnl := after.realizedPnl + pnl);
    }

    method ApplyFill(f: Fill) returns (r: Result<Trade, LedgerError>)
      requires Valid()
      modifies this
      ensures State() == Apply(old(State()), f, epsilon)
      ensures r == match Rejection(f) case Some(e) => Err(e) case None => Ok(TradeOf(old(State()), f, epsilon))
    {
      if f.symbol == "" { return Err(SymbolRequired); }
      if f.quantity <= 0.0 { return Err(QuantityNotPositive); }
      if f.price <= 0.0 { return Err(PriceNotPositive); }
      if f.side.None? { return Err(UnknownSide); }
      var side := f.side.value;
      var delta := if side == Buy then f.quantity else -f.quantity;
      var position := if f.symbol in positions then positions[f.symbol] else FLAT;
      var after, pnl := ApplySignedFill(position, delta, f.price, f.fee);
      realizedPnlTotal := realizedPnlTotal + pnl;
      if Abs(after.quantity) <= epsilon {
        positions := positions - {f.symbol};
      } else {
        positions := positions[f.symbol := after];
      }
      var trade := Trade(f.symbol, side, f.quantity, f.price, pnl, f.fee);
      trades := trades + [trade];
      return Ok(trade);
    }

    method MarkToMarket(position: Holding, markPrice: real) returns (after: Holding)
      ensures after == Marked(position, markPrice)
    {
      if position.quantity > 0.0 {
        after := position.(unrealizedPnl := (markPrice - position.averageEntry) * position.quantity);
      } else if position.quantity < 0.0 {
        after := position.(unrealizedPnl := (position.averageEntry - markPrice) * Abs(position.quantity));
        assert after.unrealizedPnl == position.quantity * (markPrice - position.averageEntry);
      } else {
        after := position.(unrealizedPnl := 0.0);
      }
    }

    method MarkPositions(prices: map<string, real>)
      modifies this
      ensures State() == old(State()).(holdings := MarkAll(old(positions), prices))
    {
      var pending := positions.Keys;
      while pending != {}
        invariant pending <= positions.Keys == old(positions).Keys
        invariant trades == old(trades) && realizedPnlTotal == old(realizedPnlTotal)
        invariant forall symbol | symbol in pending :: positions[symbol] == old(positions)[symbol]
        invariant forall symbol | symbol in positions && symbol !in pending ::
            positions[symbol] == MarkOne(old(positions)[symbol], symbol, prices)
        decreases pending
      {
        var symbol :| symbol in pending;
        if symbol in prices && prices[symbol] > 0.0 {
          var marked := MarkToMarket(positions[symbol], prices[symbol]);
          positions := positions[symbol := marked];
        }
        pending := pending - {symbol};
      }
    }

    method TakeSnapshot() returns (s: Snapshot)
      ensures s == SnapshotOf(State())
    {
      s := Snapshot(positions, |trades|, realizedPnlTotal);
    }

    /** Returns false when reading the saved total raised. */
    method RestoreSnapshot(payload: Payload) returns (ok: bool)
      modifies this
      ensures State() == Restore(old(State()), payload, epsilon)
      ensures ok <==> !(payload.Saved? && payload.realizedTotal.None?)
    {
      if !payload.Saved? { return true; }
      var restored: map<string, Holding> := map[];
      var pending := payload.positions.Keys;
      while pending != {}
        invariant pending <= payload.positions.Keys
        invariant forall symbol :: symbol in restored <==>
            symbol in payload.positions && symbol !in pending && Restorable(payload.positions[symbol], epsilon)
        invariant forall symbol | symbol in restored :: restored[symbol] == FromRaw(payload.positions[symbol])
        decreases pending
      {
        var symbol :| symbol in pending;
        pending := pending - {symbol};
        var raw := payload.positions[symbol];
        if raw.Raw? && Abs(raw.quantity) > epsilon && raw.averageEntry > 0.0 {
          restored := restored[symbol :=
            Holding(raw.quantity, raw.averageEntry, raw.realizedPnl, raw.unrealizedPnl)];
        }
      }
      positions := restored;
      if payload.realizedTotal.None? { return false; }
      realizedPnlTotal := payload.realizedTotal.value;
      return true;
    }
  }
}
