/** risk/kill_switch.py: a latch tripped by a drawdown, a daily loss or an explicit trigger. */
module KillSwitch {
  import opened Common

  datatype KillLimits = KillLimits(maxDailyLoss: real, maxDrawdownPct: real)

  predicate ValidKillLimits(l: KillLimits) {
    l.maxDailyLoss > 0.0 && l.maxDrawdownPct > 0.0
  }

  datatype TripReason = Balance | Drawdown | DailyLoss | Breach | Operator

  /** `reason` is None while the switch is not triggered. */
  datatype KillState = KillState(dailyPnl: real, peak: Option<real>, reason: Option<TripReason>)

  const ARMED := KillState(0.0, None, None)

  predicate Triggered(k: KillState) {
    k.reason.Some?
  }

  function Triggering(k: KillState, why: TripReason): KillState {
    if Triggered(k) then k else k.(reason := Some(why))
  }

  function PeakWith(peak: Option<real>, balance: real): real {
    if peak.None? then balance else Max(peak.value, balance)
  }

  /** Drawdown in percent; peaks are positive balances. */
  function DrawdownPct(peak: real, balance: real): real {
    if peak == 0.0 then 0.0 else ((peak - balance) / peak) * 100.0
  }

  function BalanceUpdated(k: KillState, balance: real, l: KillLimits): KillState {
    if balance <= 0.0 then Triggering(k, Balance)
    else
      var peak := PeakWith(k.peak, balance);
      var risen := k.(peak := Some(peak));
      if DrawdownPct(peak, balance) >= l.maxDrawdownPct then Triggering(risen, Drawdown) else risen
  }

  function PnlUpdated(k: KillState, pnl: real, l: KillLimits): KillState {
    var total := k.dailyPnl + pnl;
    var booked := k.(dailyPnl := total);
    if total <= -Abs(l.maxDailyLoss) then Triggering(booked, DailyLoss) else booked
  }

  class KillSwitch {
    const limits: KillLimits
    var dailyPnl: real
    var peakBalance: Option<real>
    var triggered: bool
    var reason: Option<TripReason>

    ghost predicate Valid()
      reads this
    {
      && ValidKillLimits(limits)
      && (triggered <==> reason.Some?)
      && (peakBalance.Some? ==> peakBalance.value > 0.0)
    }

    function State(): KillState
      reads this
    {
      KillState(dailyPnl, peakBalance, reason)
    }

    constructor (limits: KillLimits)
      requires ValidKillLimits(limits)
      ensures Valid() && State() == ARMED && this.limits == limits
    {
      this.limits := limits;
      dailyPnl, peakBalance, triggered, reason := 0.0, None, false, None;
    }

    method Trigger(why: TripReason)
      requires Valid()
      modifies this
      ensures Valid() && State() == Triggering(old(State()), why)
    {
      if triggered { return; }
      triggered := true;
      reason := Some(why);
    }

    method Reset()
      requires Valid()
      modifies this
      ensures Valid() && State() == ARMED
    {
      triggered, reason, dailyPnl, peakBalance := false, None, 0.0, None;
    }

    method UpdateBalance(balance: real) returns (active: bool)
      requires Valid()
      modifies this
      ensures Valid() && State() == BalanceUpdated(old(State()), balance, limits)
      ensures active == !Triggered(State())
    {
      if balance <= 0.0 {
        Trigger(Balance);
        return false;
      }
      if peakBalance.None? {
        peakBalance := Some(balance);
      }
      if balance > peakBalance.value {
        peakBalance := Some(balance);
      }
      var drawdown := ((peakBalance.value - balance) / peakBalance.value) * 100.0;
      if drawdown >= limits.maxDrawdownPct {
        Trigger(Drawdown);
        return false;
      }
      return !triggered;
    }

    method UpdatePnl(pnl: real) returns (active: bool)
      requires Valid()
      modifies this
      ensures Valid() && State() == PnlUpdated(old(State()), pnl, limits)
      ensures active == !Triggered(State())
    {
      dailyPnl := dailyPnl + pnl;
      if dailyPnl <= -Abs(limits.maxDailyLoss) {
        Trigger(DailyLoss);
        return false;
      }
      return !triggered;
    }
  }

  // ---------- runs of updates ----------

  datatype Update = BalanceSeen(balance: real) | PnlBooked(pnl: real) | TriggeredBy(why: TripReason)

  function After(k: KillState, u: Update, l: KillLimits): KillState {
    match u
    case BalanceSeen(balance) => BalanceUpdated(k, balance, l)
    case PnlBooked(pnl) => PnlUpdated(k, pnl, l)
    case TriggeredBy(why) => Triggering(k, why)
  }

  function AfterAll(updates: seq<Update>, l: KillLimits): KillState {
    if updates == [] then ARMED
    else After(AfterAll(updates[..|updates| - 1], l), updates[|updates| - 1], l)
  }

  /** The sum of all profits booked. */
  function PnlSum(updates: seq<Update>): real {
    if updates == [] then 0.0
    else
      var last := updates[|updates| - 1];
      PnlSum(updates[..|updates| - 1]) + (if last.PnlBooked? then last.pnl else 0.0)
  }

  /** A balance lies at least so many percent of an earlier one below it. */
  predicate FellBy(earlier: real, balance: real, pct: real) {
    100.0 * (earlier - balance) >= pct * earlier
  }

  lemma FallIsDrawdown(earlier: real, balance: real, pct: real)
    requires earlier > 0.0
    ensures FellBy(earlier, balance, pct) <==> DrawdownPct(earlier, balance) >= pct
  {
    var part, drawdown := (earlier - balance) / earlier, DrawdownPct(earlier, balance);
    assert part * earlier == earlier - balance;
    assert drawdown == part * 100.0;
    Percent(part, earlier, earlier - balance);
    assert drawdown * earlier == 100.0 * (earlier - balance);
    CompareScaled(pct, drawdown, earlier);
  }

  lemma Percent(part: real, whole: real, value: real)
    requires part * whole == value
    ensures (part * 100.0) * whole == 100.0 * value
  {
  }

  /** What an update must show to trip the switch: a balance that is not positive or far enough below
      some earlier positive one, a loss sum at the limit, or an explicit trigger. */
  predicate Trips(updates: seq<Update>, n: nat, l: KillLimits)
    requires n < |updates|
  {
    match updates[n]
    case TriggeredBy(_) => true
    case PnlBooked(_) => PnlSum(updates[..n + 1]) <= -l.maxDailyLoss
    case BalanceSeen(balance) =>
      balance <= 0.0 ||
      exists i | 0 <= i <= n && updates[i].BalanceSeen? ::
        updates[i].balance > 0.0 && FellBy(updates[i].balance, balance, l.maxDrawdownPct)
  }

  /** The peak is the greatest positive balance seen. */
  predicate IsPeak(updates: seq<Update>, peak: Option<real>) {
    && (peak.None? ==> forall i | 0 <= i < |updates| && updates[i].BalanceSeen? :: updates[i].balance <= 0.0)
    && (peak.Some? ==>
        && peak.value > 0.0
        && (forall i | 0 <= i < |updates| && updates[i].BalanceSeen? :: updates[i].balance <= peak.value)
        && exists i | 0 <= i < |updates| && updates[i].BalanceSeen? :: updates[i].balance == peak.value)
  }

  lemma {:induction false} Accumulated(updates: seq<Update>, l: KillLimits)
    ensures IsPeak(updates, AfterAll(updates, l).peak)
    ensures AfterAll(updates, l).dailyPnl == PnlSum(updates)
  {
    hide DrawdownPct;
    if updates != [] {
      var earlier, last := updates[..|updates| - 1], updates[|updates| - 1];
      Accumulated(earlier, l);
      var before, peak := AfterAll(earlier, l).peak, AfterAll(updates, l).peak;
      if last.BalanceSeen? && last.balance > 0.0 {
        if before.Some? && before.value >= last.balance {
          var i :| 0 <= i < |earlier| && earlier[i].BalanceSeen? && earlier[i].balance == before.value;
          assert updates[i].balance == peak.value;
        } else {
          assert updates[|updates| - 1].balance == peak.value;
        }
      } else if peak.Some? {
        var i :| 0 <= i < |earlier| && earlier[i].BalanceSeen? && earlier[i].balance == before.value;
        assert updates[i].balance == peak.value;
      }
    }
  }

  /** A drawdown from the peak is the deepest of all. */
  lemma PeakIsDeepest(peak: real, earlier: real, balance: real)
    requires 0.0 < earlier <= peak && 0.0 < balance
    ensures DrawdownPct(earlier, balance) <= DrawdownPct(peak, balance)
  {
    var x, y := balance / earlier, balance / peak;
    assert x * earlier == balance && y * peak == balance;
    if x < y {
      ScaleStrict(x, y, earlier);
      ScaleMono(earlier, peak, y);
    }
    DrawdownFromRatio(earlier, balance);
    DrawdownFromRatio(peak, balance);
  }

  lemma DrawdownFromRatio(peak: real, balance: real)
    requires peak > 0.0
    ensures DrawdownPct(peak, balance) == (1.0 - balance / peak) * 100.0
  {
    var x, y := (peak - balance) / peak, balance / peak;
    assert x * peak == peak - balance && y * peak == balance;
    assert (x + y) * peak == x * peak + y * peak;
    CompareScaled(x + y, 1.0, peak);
    CompareScaled(1.0, x + y, peak);
  }

  /** Without a reset the switch is triggered exactly when some update so far met a trip condition. */
  lemma {:induction false} LatchIsExact(updates: seq<Update>, l: KillLimits)
    requires ValidKillLimits(l)
    ensures Triggered(AfterAll(updates, l)) <==> exists n: nat | n < |updates| :: Trips(updates, n, l)
  {
    hide After, Trips;
    if updates != [] {
      var earlier, n := updates[..|updates| - 1], |updates| - 1;
      LatchIsExact(earlier, l);
      LastTrips(updates, l);
      forall m: nat | m < |earlier| ensures Trips(earlier, m, l) == Trips(updates, m, l) {
        SamePrefixTrips(updates, m, l);
      }
      if Triggered(AfterAll(updates, l)) && Triggered(AfterAll(earlier, l)) {
        var m: nat :| m < |earlier| && Trips(earlier, m, l);
        assert Trips(updates, m, l);
      }
      if exists m: nat | m < |updates| :: Trips(updates, m, l) {
        var m: nat :| m < |updates| && Trips(updates, m, l);
        if m < n {
          assert Trips(earlier, m, l);
        }
      }
    }
  }

  lemma SamePrefixTrips(updates: seq<Update>, m: nat, l: KillLimits)
    requires m < |updates| - 1
    ensures Trips(updates[..|updates| - 1], m, l) == Trips(updates, m, l)
  {
    hide FellBy;
    var earlier := updates[..|updates| - 1];
    assert earlier[..m + 1] == updates[..m + 1];
    assert forall i | 0 <= i <= m :: earlier[i] == updates[i];
  }

  /** One more update: it can only trip the switch, and a tripped switch keeps its reason. */
  lemma LastTrips(updates: seq<Update>, l: KillLimits)
    requires ValidKillLimits(l) && updates != []
    ensures Triggered(AfterAll(updates, l)) <==>
        Triggered(AfterAll(updates[..|updates| - 1], l)) || Trips(updates, |updates| - 1, l)
    ensures Triggered(AfterAll(updates[..|updates| - 1], l)) ==>
        AfterAll(updates, l).reason == AfterAll(updates[..|updates| - 1], l).reason
  {
    hide DrawdownPct, FellBy;
    var n := |updates| - 1;
    Accumulated(updates, l);
    assert updates[..n + 1] == updates;
    if updates[n].BalanceSeen? && updates[n].balance > 0.0 {
      var peak, balance := AfterAll(updates, l).peak.value, updates[n].balance;
      var top :| 0 <= top < |updates| && updates[top].BalanceSeen? && updates[top].balance == peak;
      assert DrawdownPct(updates[top].balance, balance) == DrawdownPct(peak, balance);
      forall i | 0 <= i <= n && updates[i].BalanceSeen? && updates[i].balance > 0.0
        ensures FellBy(updates[i].balance, balance, l.maxDrawdownPct) ==>
            FellBy(peak, balance, l.maxDrawdownPct)
      {
        PeakIsDeepest(peak, updates[i].balance, balance);
        FallIsDrawdown(updates[i].balance, balance, l.maxDrawdownPct);
        FallIsDrawdown(peak, balance, l.maxDrawdownPct);
      }
      FallIsDrawdown(peak, balance, l.maxDrawdownPct);
      assert FellBy(updates[top].balance, balance, l.maxDrawdownPct) == FellBy(peak, balance, l.maxDrawdownPct);
    }
  }

  /** Why an update that meets a trip condition trips the switch. */
  function ReasonFor(u: Update): TripReason {
    match u
    case TriggeredBy(why) => why
    case PnlBooked(_) => DailyLoss
    case BalanceSeen(balance) => if balance > 0.0 then Drawdown else Balance
  }

  /** The reason kept is that of the first update that met a trip condition. */
  lemma {:induction false} ReasonIsTheFirst(updates: seq<Update>, l: KillLimits)
    requires ValidKillLimits(l)
    ensures var reason := AfterAll(updates, l).reason;
            && (reason.None? <==> forall n: nat | n < |updates| :: !Trips(updates, n, l))
            && forall n: nat | n < |updates| && Trips(updates, n, l)
                               && (forall m: nat | m < n :: !Trips(updates, m, l)) ::
                 reason == Some(ReasonFor(updates[n]))
  {
    hide Trips;
    LatchIsExact(updates, l);
    if updates != [] {
      var earlier, last := updates[..|updates| - 1], |updates| - 1;
      ReasonIsTheFirst(earlier, l);
      LatchIsExact(earlier, l);
      LastTrips(updates, l);
      forall m: nat | m < last ensures Trips(earlier, m, l) == Trips(updates, m, l) {
        SamePrefixTrips(updates, m, l);
      }
      if !Triggered(AfterAll(earlier, l)) && Triggered(AfterAll(updates, l)) {
        ReasonOf(AfterAll(earlier, l), updates[last], l);
      }
    }
  }

  lemma ReasonOf(k: KillState, u: Update, l: KillLimits)
    requires !Triggered(k) && Triggered(After(k, u, l))
    ensures After(k, u, l).reason == Some(ReasonFor(u))
  {
    hide DrawdownPct;
  }
}
