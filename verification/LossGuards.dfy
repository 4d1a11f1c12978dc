/** The three intraday loss guards: a pause until midnight, the session's profit peak,
    the rolling equity window, and their saving across a restart. Days have a fixed offset. */
module LossGuards {
  import opened Sums

  const DAY := 86_400_000
  const MAX_AGE := 10_000

  datatype Config = Config(limit: real, maxDrawdown: real, windowSize: nat, rollingPct: real, offset: int)

  datatype Reason = NoReason | DailyLoss | ProfitDrawdown | RollingDrawdown

  /** What is written to the state sink. */
  datatype Guards = Guards(day: Option<int>, pct: real, startEquity: real, pausedUntil: int, reason: Reason,
                           pnl: real, peak: real, drawback: real, equityPeak: real, window: seq<real>)

  /** updatedAt and error describe the freshness of the data and are not saved. */
  datatype State = State(guards: Guards, updatedAt: int, error: bool)

  datatype Event = Daily(pct: real, startEquity: real) | Close(pnl: real) | Equity(equity: real) | Unavailable

  function Today(c: Config, now: int): int { (now + c.offset) / DAY }

  function DayEnd(c: Config, day: int): int { (day + 1) * DAY - c.offset }

  predicate Paused(g: Guards, now: int) { g.pausedUntil != 0 && now < g.pausedUntil }

  /** A pause is only set when none is running. */
  function Pause(c: Config, g: Guards, now: int, reason: Reason): Guards
  {
    if g.pausedUntil == 0 || now >= g.pausedUntil
    then g.(pausedUntil := DayEnd(c, Today(c, now)), reason := reason)
    else g
  }

  function Rolled(g: Guards, today: int, startEquity: real): Guards
  {
    if g.day != Some(today) then
      var equity := Max(startEquity, 0.0);
      Guards(Some(today), g.pct, equity, 0, NoReason, 0.0, 0.0, 0.0, equity, [])
    else if g.startEquity <= 0.0 && startEquity > 0.0 then
      g.(startEquity := startEquity, equityPeak := startEquity)
    else g
  }

  function CheckedLoss(c: Config, g: Guards, now: int, today: int, pct: real): Guards
  {
    if pct >= c.limit then g.(pausedUntil := DayEnd(c, today), reason := DailyLoss)
    else if g.pausedUntil != 0 && now >= g.pausedUntil then g.(pausedUntil := 0, reason := NoReason)
    else g
  }

  function OnDaily(c: Config, g: Guards, now: int, pct: real, startEquity: real): Guards
  {
    CheckedLoss(c, Rolled(g.(pct := pct), Today(c, now), startEquity), now, Today(c, now), pct)
  }

  function Booked(g: Guards, pnl: real): Guards
  {
    var sum := g.pnl + pnl;
    var peak := Max(g.peak, sum);
    var drawback := if peak > 0.0 && g.startEquity > 0.0 then (peak - sum) / g.startEquity * 100.0 else 0.0;
    g.(pnl := sum, peak := peak, drawback := drawback)
  }

  predicate GaveBack(c: Config, g: Guards) { c.maxDrawdown > 0.0 && g.drawback >= c.maxDrawdown }

  function OnClose(c: Config, g: Guards, now: int, pnl: real): Guards
  {
    if GaveBack(c, Booked(g, pnl)) then Pause(c, Booked(g, pnl), now, ProfitDrawdown) else Booked(g, pnl)
  }

  /** A queue that keeps its last n entries. */
  function Push(window: seq<real>, x: real, n: nat): seq<real>
  {
    LastOf(window + [x], n)
  }

  function LastOf(s: seq<real>, n: nat): seq<real>
  {
    if |s| <= n then s else s[|s| - n..]
  }

  function Highest(s: seq<real>): (m: real)
    requires s != []
    ensures m in s && forall x :: x in s ==> x <= m
  {
    if |s| == 1 then s[0]
    else
      assert s == [s[0]] + s[1..];
      Max(s[0], Highest(s[1..]))
  }

  function Lowest(s: seq<real>): (m: real)
    requires s != []
    ensures m in s && forall x :: x in s ==> m <= x
  {
    if |s| == 1 then s[0]
    else
      assert s == [s[0]] + s[1..];
      Min(s[0], Lowest(s[1..]))
  }

  predicate WindowOn(c: Config) { c.windowSize > 0 && c.rollingPct > 0.0 }

  predicate Swung(c: Config, window: seq<real>)
  {
    && |window| >= 3 && Highest(window) > 0.0
    && (Highest(window) - Lowest(window)) / Highest(window) * 100.0 >= c.rollingPct
  }

  function Read(c: Config, g: Guards, equity: real): Guards
  {
    g.(equityPeak := Max(g.equityPeak, equity),
       window := if WindowOn(c) then Push(g.window, equity, c.windowSize) else g.window)
  }

  function OnEquity(c: Config, g: Guards, now: int, equity: real): Guards
  {
    if equity <= 0.0 then g
    else if WindowOn(c) && Swung(c, Read(c, g, equity).window) then Pause(c, Read(c, g, equity), now, RollingDrawdown)
    else Read(c, g, equity)
  }

  function OnGuards(c: Config, g: Guards, now: int, e: Event): Guards
  {
    match e
    case Daily(pct, start) => OnDaily(c, g, now, pct, start)
    case Close(pnl) => OnClose(c, g, now, pnl)
    case Equity(equity) => OnEquity(c, g, now, equity)
    case Unavailable => g
  }

  function Step(c: Config, s: State, now: int, e: Event): State
  {
    State(OnGuards(c, s.guards, now, e), if e.Daily? then now else s.updatedAt,
          if e.Daily? then false else s.error || e.Unavailable?)
  }

  const BLANK := Guards(None, 0.0, 0.0, 0, NoReason, 0.0, 0.0, 0.0, 0.0, [])

  predicate Fresh(s: State, now: int) { !s.error && s.updatedAt != 0 && now - s.updatedAt <= MAX_AGE }

  /** The loss guard's verdict on a signal. */
  predicate Admits(s: State, now: int) { Fresh(s, now) && !Paused(s.guards, now) }

  function DailyRisk(c: Config, g: Guards, slots: int): real
  {
    if g.startEquity <= 0.0 then 0.0
    else g.startEquity * (c.limit / 100.0) / (if slots < 1 then 1.0 else slots as real)
  }

  /** Reading back what was saved; a save of another day is ignored. */
  function Restored(c: Config, saved: Option<Guards>, g: Guards, now: int): Guards
  {
    if saved.Some? && saved.value.day == Some(Today(c, now))
    then saved.value.(window := LastOf(saved.value.window, c.windowSize))
    else g
  }

  class LossTracker {
    const config: Config
    var currentPct: real
    var startOfDayEquity: real
    var trackedDay: Option<int>
    var pausedUntil: int
    var pauseReason: Reason
    var sessionClosedPnl: real
    var sessionClosedPeak: real
    var profitDrawbackPct: real
    var equityWindow: seq<real>
    var equityPeak: real
    var riskDataUpdatedAt: int
    var riskDataError: bool
    var sinkSet: bool
    var sink: Option<Guards>

    ghost function Value(): State
      reads this
    {
      State(Kept(), riskDataUpdatedAt, riskDataError)
    }

    function Kept(): Guards
      reads this
    {
      Guards(trackedDay, currentPct, startOfDayEquity, pausedUntil, pauseReason, sessionClosedPnl, sessionClosedPeak,
             profitDrawbackPct, equityPeak, equityWindow)
    }

    constructor (c: Config)
      ensures config == c && Value() == State(BLANK, 0, false) && !sinkSet && sink == None
    {
      config := c;
      currentPct, startOfDayEquity, trackedDay := 0.0, 0.0, None;
      pausedUntil, pauseReason := 0, NoReason;
      sessionClosedPnl, sessionClosedPeak, profitDrawbackPct := 0.0, 0.0, 0.0;
      equityWindow, equityPeak := [], 0.0;
      riskDataUpdatedAt, riskDataError := 0, false;
      sinkSet, sink := false, None;
    }

    method UpdateDailyLossPct(now: int, pct: real, startEquity: real)
      modifies this
      ensures Value() == State(OnDaily(config, old(Kept()), now, pct, startEquity), now, false)
      ensures sinkSet == old(sinkSet) && sink == if sinkSet then Some(Value().guards) else old(sink)
    {
      riskDataUpdatedAt, riskDataError, currentPct := now, false, pct;
      var today := Today(config, now);
      RollDay(today, startEquity);
      CheckDailyLoss(now, today, pct);
      PersistState();
    }

    /** A new day resets every guard; start equity is latched once it is known. */
    method RollDay(today: int, startEquity: real)
      modifies this`trackedDay, this`profitDrawbackPct, this`sessionClosedPnl, this`sessionClosedPeak
      modifies this`equityWindow, this`pausedUntil, this`pauseReason, this`startOfDayEquity, this`equityPeak
      ensures Kept() == Rolled(old(Kept()), today, startEquity)
    {
      if trackedDay != Some(today) {
        trackedDay := Some(today);
        profitDrawbackPct, sessionClosedPnl, sessionClosedPeak := 0.0, 0.0, 0.0;
        equityWindow := [];
        pausedUntil, pauseReason := 0, NoReason;
        if startEquity > 0.0 {
          startOfDayEquity, equityPeak := startEquity, startEquity;
        } else {
          startOfDayEquity, equityPeak := 0.0, 0.0;
        }
      } else if startOfDayEquity <= 0.0 && startEquity > 0.0 {
        startOfDayEquity, equityPeak := startEquity, startEquity;
      }
    }

    method CheckDailyLoss(now: int, today: int, pct: real)
      modifies this`pausedUntil, this`pauseReason
      ensures Kept() == CheckedLoss(config, old(Kept()), now, today, pct)
    {
      if pausedUntil != 0 && now >= pausedUntil {
        pausedUntil, pauseReason := 0, NoReason;
      }
      if pct >= config.limit {
        pausedUntil, pauseReason := DayEnd(config, today), DailyLoss;
      }
    }

    method RecordTradeClosed(now: int, realizedPnl: real)
      modifies this
      ensures Value() == old(Value()).(guards := OnClose(config, old(Kept()), now, realizedPnl))
      ensures sinkSet == old(sinkSet) && sink == if sinkSet then Some(Value().guards) else old(sink)
    {
      sessionClosedPnl := sessionClosedPnl + realizedPnl;
      if sessionClosedPnl > sessionClosedPeak {
        sessionClosedPeak := sessionClosedPnl;
      }
      if sessionClosedPeak > 0.0 && startOfDayEquity > 0.0 {
        var drawback := sessionClosedPeak - sessionClosedPnl;
        profitDrawbackPct := drawback / startOfDayEquity * 100.0;
      } else {
        profitDrawbackPct := 0.0;
      }
      if config.maxDrawdown > 0.0 && profitDrawbackPct >= config.maxDrawdown {
        PauseUntilMidnight(now, ProfitDrawdown);
      }
      PersistState();
    }

    method UpdateEquity(now: int, equity: real)
      modifies this
      ensures Value() == old(Value()).(guards := OnEquity(config, old(Kept()), now, equity))
      ensures sinkSet == old(sinkSet)
      ensures sink == if sinkSet && equity > 0.0 then Some(Value().guards) else old(sink)
    {
      if equity <= 0.0 {
        return;
      }
      if equity > equityPeak {
        equityPeak := equity;
      }
      if config.windowSize > 0 && config.rollingPct > 0.0 {
        equityWindow := Push(equityWindow, equity, config.windowSize);
        var swung := Swung(config, equityWindow);
        if swung {
          PauseUntilMidnight(now, RollingDrawdown);
        }
      }
      PersistState();
    }

    /** A running pause is left as it is. */
    method PauseUntilMidnight(now: int, reason: Reason)
      modifies this`pausedUntil, this`pauseReason
      ensures Kept() == Pause(config, old(Kept()), now, reason)
    {
      if pausedUntil == 0 || now >= pausedUntil {
        pausedUntil, pauseReason := DayEnd(config, Today(config, now)), reason;
      }
    }

    method MarkRiskDataUnavailable(now: int)
      modifies this
      ensures Value() == old(Value()).(error := true)
      ensures sinkSet == old(sinkSet) && sink == old(sink)
    {
      riskDataError := true;
    }

    method PersistState()
      modifies this`sink
      ensures sink == if sinkSet then Some(Kept()) else old(sink)
    {
      if sinkSet {
        sink := Some(Kept());
      }
    }

    method SetStateSink()
      modifies this`sinkSet
      ensures sinkSet
    {
      sinkSet := true;
    }

    method HydrateState(now: int, saved: Option<Guards>)
      modifies this
      ensures Value() == old(Value()).(guards := Restored(config, saved, old(Value()).guards, now))
      ensures sinkSet == old(sinkSet) && sink == old(sink)
    {
      if saved.None? || saved.value.day != Some(Today(config, now)) {
        return;
      }
      var v := saved.value;
      trackedDay, currentPct, startOfDayEquity := v.day, v.pct, v.startEquity;
      pausedUntil, pauseReason := v.pausedUntil, v.reason;
      sessionClosedPnl, sessionClosedPeak, profitDrawbackPct := v.pnl, v.peak, v.drawback;
      equityPeak := v.equityPeak;
      RefillWindow(v.window);
    }

    /** The saved readings go into a window of the configured size, one by one. */
    method RefillWindow(saved: seq<real>)
      modifies this`equityWindow
      ensures equityWindow == LastOf(saved, config.windowSize)
    {
      equityWindow := [];
      for i := 0 to |saved|
        invariant equityWindow == LastOf(saved[..i], config.windowSize)
      {
        PushLast(saved[..i], saved[i], config.windowSize);
        assert saved[..i + 1] == saved[..i] + [saved[i]];
        equityWindow := Push(equityWindow, saved[i], config.windowSize);
      }
      assert saved[..|saved|] == saved;
    }

    method IsPaused(now: int) returns (paused: bool, reason: Reason)
      ensures paused == Paused(Kept(), now)
      ensures reason == if paused then pauseReason else NoReason
    {
      paused := pausedUntil != 0 && now < pausedUntil;
      reason := if paused then pauseReason else NoReason;
    }

    method DailyRiskAmount(maxLosingStreak: int) returns (amount: real)
      ensures amount == DailyRisk(config, Kept(), maxLosingStreak)
    {
      if startOfDayEquity <= 0.0 {
        return 0.0;
      }
      var budget := startOfDayEquity * (config.limit / 100.0);
      var slots := if maxLosingStreak > 1 then maxLosingStreak else 1;
      amount := budget / slots as real;
    }

    /** The rule asks for fresh data first and for no pause second. */
    method LossGuardRule(now: int) returns (approved: bool)
      ensures approved == Admits(State(Kept(), riskDataUpdatedAt, riskDataError), now)
    {
      if riskDataError || riskDataUpdatedAt == 0 || now - riskDataUpdatedAt > MAX_AGE {
        return false;
      }
      var paused, _ := IsPaused(now);
      approved := !paused;
    }
  }

  lemma PushLast(s: seq<real>, x: real, n: nat)
    ensures Push(LastOf(s, n), x, n) == LastOf(s + [x], n)
  {
  }
}
