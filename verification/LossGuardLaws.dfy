/** What the loss guards promise over a day of updates, in any order and number. */
module LossGuardLaws {
  import opened Sums
  import opened LossGuards

  datatype Timed = Timed(at: int, event: Event)

  /** A tracker that has just started. */
  const START := State(BLANK, 0, false)

  function Run(c: Config, s: State, run: seq<Timed>): State
  {
    if run == [] then s
    else Step(c, Run(c, s, run[..|run| - 1]), run[|run| - 1].at, run[|run| - 1].event)
  }

  ghost predicate Within(c: Config, run: seq<Timed>, day: int)
  {
    forall k :: 0 <= k < |run| ==> run[k].at >= 0 && Today(c, run[k].at) == day
  }

  ghost predicate InOrder(run: seq<Timed>)
  {
    && (forall k :: 0 <= k < |run| ==> run[k].at >= 0)
    && (forall j, k :: 0 <= j < k < |run| ==> run[j].at <= run[k].at)
  }

  /** One of the three guards fires on this event. */
  predicate Trips(c: Config, g: Guards, e: Event)
  {
    match e
    case Daily(pct, _) => pct >= c.limit
    case Close(pnl) => GaveBack(c, Booked(g, pnl))
    case Equity(equity) => equity > 0.0 && WindowOn(c) && Swung(c, Read(c, g, equity).window)
    case Unavailable => false
  }

  /** A pause ends at a midnight, and no later than the coming one. */
  ghost predicate EndsAtMidnight(c: Config, g: Guards, day: int)
  {
    g.pausedUntil == 0 || exists d :: d <= day && g.pausedUntil == DayEnd(c, d)
  }

  lemma TimeIsInItsDay(c: Config, now: int)
    ensures DayEnd(c, Today(c, now)) - DAY <= now < DayEnd(c, Today(c, now))
  {
  }

  lemma DaysAreOrdered(c: Config, early: int, late: int)
    ensures early <= late ==> Today(c, early) <= Today(c, late)
    ensures forall d :: d < Today(c, late) ==> DayEnd(c, d) <= late
  {
    TimeIsInItsDay(c, late);
  }

  lemma PauseEndsAtMidnight(c: Config, g: Guards, now: int, reason: Reason)
    requires now >= 0 && EndsAtMidnight(c, g, Today(c, now))
    ensures Pause(c, g, now, reason).pausedUntil == DayEnd(c, Today(c, now)) > now
  {
    TimeIsInItsDay(c, now);
    DaysAreOrdered(c, now, now);
  }

  lemma EndsAtMidnightKept(c: Config, g: Guards, now: int, e: Event)
    requires now >= 0 && EndsAtMidnight(c, g, Today(c, now))
    ensures EndsAtMidnight(c, OnGuards(c, g, now, e), Today(c, now))
  {
    var next := OnGuards(c, g, now, e);
    if next.pausedUntil != 0 && next.pausedUntil != g.pausedUntil {
      assert next.pausedUntil == DayEnd(c, Today(c, now));
    }
  }

  /** A firing guard pauses until the coming midnight, whatever was set before. */
  lemma TripPauses(c: Config, g: Guards, now: int, e: Event)
    requires now >= 0 && EndsAtMidnight(c, g, Today(c, now)) && Trips(c, g, e)
    ensures OnGuards(c, g, now, e).pausedUntil == DayEnd(c, Today(c, now))
  {
    if e.Close? {
      PauseEndsAtMidnight(c, Booked(g, e.pnl), now, ProfitDrawdown);
    } else if e.Equity? {
      PauseEndsAtMidnight(c, Read(c, g, e.equity), now, RollingDrawdown);
    }
  }

  ghost predicate PausedFor(c: Config, g: Guards, day: int)
  {
    g.day == Some(day) && g.pausedUntil == DayEnd(c, day)
  }

  lemma PauseIsKept(c: Config, g: Guards, now: int, e: Event)
    requires now >= 0 && PausedFor(c, g, Today(c, now))
    ensures PausedFor(c, OnGuards(c, g, now, e), Today(c, now))
  {
    TimeIsInItsDay(c, now);
  }

  lemma {:induction false} DayIsTracked(c: Config, s: State, run: seq<Timed>, day: int)
    requires Within(c, run, day) && s.guards.day == Some(day) && EndsAtMidnight(c, s.guards, day)
    ensures Run(c, s, run).guards.day == Some(day) && EndsAtMidnight(c, Run(c, s, run).guards, day)
  {
    if run != [] {
      var n := |run| - 1;
      DayIsTracked(c, s, run[..n], day);
      EndsAtMidnightKept(c, Run(c, s, run[..n]).guards, run[n].at, run[n].event);
    }
  }

  lemma {:induction false} PauseLasts(c: Config, s: State, run: seq<Timed>, day: int)
    requires Within(c, run, day) && PausedFor(c, s.guards, day)
    ensures PausedFor(c, Run(c, s, run).guards, day)
  {
    if run != [] {
      var n := |run| - 1;
      PauseLasts(c, s, run[..n], day);
      PauseIsKept(c, Run(c, s, run[..n]).guards, run[n].at, run[n].event);
    }
  }

  lemma {:induction false} RunSplits(c: Config, s: State, a: seq<Timed>, b: seq<Timed>)
    ensures Run(c, s, a + b) == Run(c, Run(c, s, a), b)
  {
    if b == [] {
      assert a + b == a;
    } else {
      var n := |b| - 1;
      RunSplits(c, s, a, b[..n]);
      assert (a + b)[..|a + b| - 1] == a + b[..n];
    }
  }

  lemma {:induction false} RunInTwo(c: Config, s: State, run: seq<Timed>, k: nat)
    requires k <= |run|
    ensures Run(c, s, run) == Run(c, Run(c, s, run[..k]), run[k..])
  {
    assert run[..k] + run[k..] == run;
    RunSplits(c, s, run[..k], run[k..]);
  }

  lemma {:induction false} MidnightsAlways(c: Config, run: seq<Timed>)
    requires InOrder(run) && run != []
    ensures EndsAtMidnight(c, Run(c, START, run).guards, Today(c, run[|run| - 1].at))
  {
    var n := |run| - 1;
    var before := Run(c, START, run[..n]).guards;
    if n > 0 {
      MidnightsAlways(c, run[..n]);
      DaysAreOrdered(c, run[n - 1].at, run[n].at);
    }
    EndsAtMidnightKept(c, before, run[n].at, run[n].event);
  }

  lemma LastEventPauses(c: Config, s: State, run: seq<Timed>, day: int)
    requires Within(c, run, day) && run != []
    requires s.guards.day == Some(day) && EndsAtMidnight(c, s.guards, day)
    requires Trips(c, Run(c, s, run[..|run| - 1]).guards, run[|run| - 1].event)
    ensures PausedFor(c, Run(c, s, run).guards, day)
  {
    var n := |run| - 1;
    DayIsTracked(c, s, run[..n], day);
    TripPauses(c, Run(c, s, run[..n]).guards, run[n].at, run[n].event);
    DayIsTracked(c, s, run, day);
  }

  /** Within one tracked day a firing guard leaves the day paused to its end. */
  lemma {:induction false} TrippedDayStaysPaused(c: Config, s: State, run: seq<Timed>, k: nat, day: int)
    requires Within(c, run, day) && k < |run|
    requires s.guards.day == Some(day) && EndsAtMidnight(c, s.guards, day)
    requires Trips(c, Run(c, s, run[..k]).guards, run[k].event)
    ensures PausedFor(c, Run(c, s, run).guards, day)
  {
    RunInTwo(c, s, run, k + 1);
    TripPausesTheDay(c, s, run, k, day);
    PauseLasts(c, Run(c, s, run[..k + 1]), run[k + 1..], day);
  }

  lemma TripPausesTheDay(c: Config, s: State, run: seq<Timed>, k: nat, day: int)
    requires Within(c, run, day) && k < |run|
    requires s.guards.day == Some(day) && EndsAtMidnight(c, s.guards, day)
    requires Trips(c, Run(c, s, run[..k]).guards, run[k].event)
    ensures PausedFor(c, Run(c, s, run[..k + 1]).guards, day)
  {
    assert run[..k + 1][..k] == run[..k];
    LastEventPauses(c, s, run[..k + 1], day);
  }

  lemma PausedDayAdmitsNothing(c: Config, s: State, now: int)
    requires now >= 0 && PausedFor(c, s.guards, Today(c, now))
    ensures !Admits(s, now)
  {
    TimeIsInItsDay(c, now);
  }

  lemma RestIsWithin(c: Config, run: seq<Timed>, j: nat, day: int)
    requires InOrder(run) && j < |run| && forall i :: j <= i < |run| ==> Today(c, run[i].at) == day
    ensures Within(c, run[j + 1..], day)
  {
  }

  lemma HeadIsInOrder(run: seq<Timed>, j: nat)
    requires InOrder(run) && j < |run|
    ensures InOrder(run[..j + 1])
  {
  }

  lemma OpeningAndRest(c: Config, run: seq<Timed>, j: nat, day: int)
    requires InOrder(run) && j < |run| && forall i :: j <= i < |run| ==> Today(c, run[i].at) == day
    ensures run == run[..j + 1] + run[j + 1..] && run[..j + 1][j] == run[j] && Today(c, run[j].at) == day
    ensures InOrder(run[..j + 1]) && Within(c, run[j + 1..], day)
  {
    HeadIsInOrder(run, j);
    RestIsWithin(c, run, j, day);
  }

  /** The day opened at the end of head stays paused once a later event trips a guard. */
  lemma {:induction false} LaterTripPauses(c: Config, head: seq<Timed>, rest: seq<Timed>, m: nat, day: int)
    requires m < |rest| && Within(c, rest, day) && IsOpen(c, Run(c, START, head).guards, day)
    requires Trips(c, Run(c, START, head + rest[..m]).guards, rest[m].event)
    ensures PausedFor(c, Run(c, START, head + rest).guards, day)
  {
    RunSplits(c, START, head, rest[..m]);
    TrippedDayStaysPaused(c, Run(c, START, head), rest, m, day);
    RunSplits(c, START, head, rest);
  }

  lemma {:induction false} OpeningTripPauses(c: Config, head: seq<Timed>, rest: seq<Timed>, day: int)
    requires head != [] && Within(c, rest, day) && Today(c, head[|head| - 1].at) == day
    requires head[|head| - 1].event.Daily? && head[|head| - 1].event.pct >= c.limit
    ensures PausedFor(c, Run(c, START, head + rest).guards, day)
  {
    DailyTripsAtOnce(c, START, head);
    PauseLasts(c, Run(c, START, head), rest, day);
    RunSplits(c, START, head, rest);
  }

  lemma PrefixOfTheRest(head: seq<Timed>, rest: seq<Timed>, k: nat)
    requires |head| <= k < |head| + |rest|
    ensures (head + rest)[..k] == head + rest[..k - |head|] && (head + rest)[k] == rest[k - |head|]
  {
  }

  /** The same, with the events up to the tripping one as they were read. */
  lemma {:induction false} TripInTheRest(
    c: Config, head: seq<Timed>, rest: seq<Timed>, before: seq<Timed>, m: nat, day: int)
    requires m < |rest| && before == head + rest[..m] && Within(c, rest, day)
    requires IsOpen(c, Run(c, START, head).guards, day)
    requires Trips(c, Run(c, START, before).guards, rest[m].event)
    ensures PausedFor(c, Run(c, START, head + rest).guards, day)
  {
    LaterTripPauses(c, head, rest, m, day);
  }

  lemma {:induction false} TripAfterTheHead(
    c: Config, head: seq<Timed>, rest: seq<Timed>, run: seq<Timed>, k: nat, day: int)
    requires run == head + rest && |head| <= k < |run| && Within(c, rest, day)
    requires IsOpen(c, Run(c, START, head).guards, day)
    requires Trips(c, Run(c, START, run[..k]).guards, run[k].event)
    ensures PausedFor(c, Run(c, START, run).guards, day)
  {
    PrefixOfTheRest(head, rest, k);
    TripInTheRest(c, head, rest, run[..k], k - |head|, day);
  }

  lemma {:induction false} TripPausesToTheEnd(
    c: Config, head: seq<Timed>, rest: seq<Timed>, run: seq<Timed>, k: nat, day: int)
    requires InOrder(head) && head != [] && head[|head| - 1].event.Daily? && Today(c, head[|head| - 1].at) == day
    requires run == head + rest && Within(c, rest, day) && |head| - 1 <= k < |run|
    requires Trips(c, Run(c, START, run[..k]).guards, run[k].event)
    ensures PausedFor(c, Run(c, START, run).guards, day)
  {
    if k < |head| {
      OpeningTripPauses(c, head, rest, day);
    } else {
      OpenedDay(c, head, day);
      TripAfterTheHead(c, head, rest, run, k, day);
    }
  }

  lemma {:induction false} TrippedDayIsPaused(c: Config, run: seq<Timed>, j: nat, k: nat, day: int)
    requires InOrder(run) && j <= k < |run| && run[j].event.Daily?
    requires forall i :: j <= i < |run| ==> Today(c, run[i].at) == day
    requires Trips(c, Run(c, START, run[..k]).guards, run[k].event)
    ensures PausedFor(c, Run(c, START, run).guards, day)
  {
    OpeningAndRest(c, run, j, day);
    TripPausesToTheEnd(c, run[..j + 1], run[j + 1..], run, k, day);
  }

  /** The circuit breaker, over a whole life of the tracker: once the day has been opened
      by a daily update (at j) and any guard fires (at k), no signal passes for the rest of
      that day, whatever closes, readings and updates follow. */
  lemma {:induction false} OnceTrippedNothingPasses(c: Config, run: seq<Timed>, j: nat, k: nat, now: int)
    requires InOrder(run) && j <= k < |run| && run[j].event.Daily? && now >= 0
    requires forall i :: j <= i < |run| ==> Today(c, run[i].at) == Today(c, now)
    requires Trips(c, Run(c, START, run[..k]).guards, run[k].event)
    ensures !Admits(Run(c, START, run), now)
  {
    TrippedDayIsPaused(c, run, j, k, Today(c, now));
    PausedDayAdmitsNothing(c, Run(c, START, run), now);
  }

  ghost predicate IsOpen(c: Config, g: Guards, day: int) { g.day == Some(day) && EndsAtMidnight(c, g, day) }

  lemma {:induction false} OpenedDay(c: Config, head: seq<Timed>, day: int)
    requires InOrder(head) && head != [] && head[|head| - 1].event.Daily? && Today(c, head[|head| - 1].at) == day
    ensures IsOpen(c, Run(c, START, head).guards, day)
  {
    MidnightsAlways(c, head);
    DailyOpensTheDay(c, START, head);
  }

  lemma {:induction false} DailyOpensTheDay(c: Config, s: State, run: seq<Timed>)
    requires run != [] && run[|run| - 1].event.Daily?
    ensures Run(c, s, run).guards.day == Some(Today(c, run[|run| - 1].at))
  {
  }

  lemma {:induction false} DailyTripsAtOnce(c: Config, s: State, run: seq<Timed>)
    requires run != [] && run[|run| - 1].event.Daily? && run[|run| - 1].event.pct >= c.limit
    ensures PausedFor(c, Run(c, s, run).guards, Today(c, run[|run| - 1].at))
  {
  }

  /** Opening the day matters: an update below the limit keeps a running pause exactly
      when the day it was set on is the tracked one. */
  lemma PauseSurvivesAnUpdate(c: Config, g: Guards, now: int, pct: real, startEquity: real)
    requires Paused(g, now) && pct < c.limit
    ensures Paused(OnDaily(c, g, now, pct, startEquity), now) <==> g.day == Some(Today(c, now))
  {
  }

  // ----------------------------------------------------- the session's profit

  ghost function Total(s: seq<real>): real { if s == [] then 0.0 else Total(s[..|s| - 1]) + s[|s| - 1] }

  ghost function Closes(run: seq<Timed>): seq<real>
  {
    if run == [] then []
    else
      var e := run[|run| - 1].event;
      Closes(run[..|run| - 1]) + if e.Close? then [e.pnl] else []
  }

  /** m is the largest running total, counting the empty start as 0. */
  ghost predicate IsBestPrefix(s: seq<real>, m: real)
  {
    && (forall j :: 0 <= j <= |s| ==> Total(s[..j]) <= m)
    && (exists j :: 0 <= j <= |s| && Total(s[..j]) == m)
  }

  lemma {:induction false} BestPrefixGrows(s: seq<real>, x: real, m: real)
    requires IsBestPrefix(s, m)
    ensures Total(s + [x]) == Total(s) + x
    ensures IsBestPrefix(s + [x], Max(m, Total(s) + x))
  {
    var t := s + [x];
    assert t[..|s|] == s && t[..|t|] == t && s[..|s|] == s;
    forall j | 0 <= j <= |t| ensures Total(t[..j]) <= Max(m, Total(s) + x) {
      if j <= |s| {
        assert t[..j] == s[..j];
      }
    }
    if m >= Total(s) + x {
      var j :| 0 <= j <= |s| && Total(s[..j]) == m;
      assert t[..j] == s[..j];
    }
  }

  lemma {:induction false} CloseMovesThePeak(c: Config, g: Guards, now: int, pnl: real, closes: seq<real>)
    requires g.pnl == Total(closes) && IsBestPrefix(closes, g.peak)
    ensures
      var h := OnGuards(c, g, now, Close(pnl));
      h.pnl == Total(closes + [pnl]) && IsBestPrefix(closes + [pnl], h.peak)
  {
    BestPrefixGrows(closes, pnl, g.peak);
  }

  /** Within the tracked day nothing but a close moves the session total and its peak. */
  lemma OthersKeepThePeak(c: Config, g: Guards, now: int, e: Event)
    requires !e.Close? && g.day == Some(Today(c, now))
    ensures OnGuards(c, g, now, e).pnl == g.pnl && OnGuards(c, g, now, e).peak == g.peak
  {
  }

  lemma {:induction false} ClosesSoFar(run: seq<Timed>)
    requires run != []
    ensures
      var n := |run| - 1;
      Closes(run) == if run[n].event.Close? then Closes(run[..n]) + [run[n].event.pnl] else Closes(run[..n])
  {
  }

  /** Over a day's events the session total is the sum of its closes and the peak the
      best running total, never below zero. */
  lemma {:induction false} PeakIsBestPrefix(c: Config, s: State, run: seq<Timed>, day: int)
    requires Within(c, run, day)
    requires s.guards.day == Some(day) && s.guards.pnl == 0.0 == s.guards.peak && EndsAtMidnight(c, s.guards, day)
    ensures Run(c, s, run).guards.pnl == Total(Closes(run))
    ensures IsBestPrefix(Closes(run), Run(c, s, run).guards.peak)
  {
    if run == [] {
      assert Closes(run)[..0] == [];
    } else {
      var n := |run| - 1;
      PeakIsBestPrefix(c, s, run[..n], day);
      DayIsTracked(c, s, run[..n], day);
      ClosesSoFar(run);
      var g := Run(c, s, run[..n]).guards;
      if run[n].event.Close? {
        CloseMovesThePeak(c, g, run[n].at, run[n].event.pnl, Closes(run[..n]));
      } else {
        OthersKeepThePeak(c, g, run[n].at, run[n].event);
      }
    }
  }

  /** The total stands the configured share of start equity below its best. */
  predicate StandsBelow(c: Config, startEquity: real, best: real, total: real)
  {
    best > 0.0 && startEquity > 0.0 && (best - total) / startEquity * 100.0 >= c.maxDrawdown
  }

  lemma GivesBack(c: Config, g: Guards, pnl: real)
    requires c.maxDrawdown > 0.0
    ensures
      var sum := g.pnl + pnl;
      var peak := Max(g.peak, sum);
      Trips(c, g, Close(pnl)) <==> StandsBelow(c, g.startEquity, peak, sum)
  {
  }

  /** So the second guard fires on a close exactly when the day's realized total stands
      the configured share of start equity below its best. */
  lemma {:induction false} ProfitGuardFires(c: Config, s: State, run: seq<Timed>, day: int, pnl: real, best: real)
    requires Within(c, run, day)
    requires s.guards.day == Some(day) && s.guards.pnl == 0.0 == s.guards.peak && EndsAtMidnight(c, s.guards, day)
    requires IsBestPrefix(Closes(run) + [pnl], best) && c.maxDrawdown > 0.0
    ensures
      var g := Run(c, s, run).guards;
      Trips(c, g, Close(pnl)) <==> StandsBelow(c, g.startEquity, best, Total(Closes(run) + [pnl]))
  {
    PeakIsBestPrefix(c, s, run, day);
    CloseFires(c, Run(c, s, run).guards, Closes(run), pnl, best);
  }

  lemma {:induction false} CloseFires(c: Config, g: Guards, closes: seq<real>, pnl: real, best: real)
    requires g.pnl == Total(closes) && IsBestPrefix(closes, g.peak)
    requires IsBestPrefix(closes + [pnl], best) && c.maxDrawdown > 0.0
    ensures Trips(c, g, Close(pnl)) <==> StandsBelow(c, g.startEquity, best, Total(closes + [pnl]))
  {
    BestAfterClose(closes, pnl, best, g.peak);
    GivesBack(c, g, pnl);
  }

  lemma {:induction false} BestAfterClose(closes: seq<real>, pnl: real, best: real, peak: real)
    requires IsBestPrefix(closes + [pnl], best) && IsBestPrefix(closes, peak)
    ensures Total(closes + [pnl]) == Total(closes) + pnl && best == Max(peak, Total(closes) + pnl)
  {
    BestPrefixGrows(closes, pnl, peak);
    BestPrefixIsUnique(closes + [pnl], best, Max(peak, Total(closes) + pnl));
  }

  lemma BestPrefixIsUnique(s: seq<real>, m: real, n: real)
    requires IsBestPrefix(s, m) && IsBestPrefix(s, n)
    ensures m == n
  {
    var i :| 0 <= i <= |s| && Total(s[..i]) == m;
    var j :| 0 <= j <= |s| && Total(s[..j]) == n;
  }

  // ------------------------------------------------------------ the day's budget

  /** Start equity, once known, is the same at every signal of the day, and so is the
      money each slot may risk. */
  lemma {:induction false} BudgetIsLatched(c: Config, s: State, run: seq<Timed>, day: int, slots: int)
    requires Within(c, run, day) && s.guards.day == Some(day) && EndsAtMidnight(c, s.guards, day)
    requires s.guards.startEquity > 0.0
    ensures Run(c, s, run).guards.startEquity == s.guards.startEquity
    ensures DailyRisk(c, Run(c, s, run).guards, slots) == DailyRisk(c, s.guards, slots)
  {
    EquityIsLatched(c, s, run, day);
    RiskDependsOnEquity(c, Run(c, s, run).guards, s.guards, slots);
  }

  lemma RiskDependsOnEquity(c: Config, g: Guards, h: Guards, slots: int)
    requires g.startEquity == h.startEquity
    ensures DailyRisk(c, g, slots) == DailyRisk(c, h, slots)
  {
  }

  lemma {:induction false} EquityIsLatched(c: Config, s: State, run: seq<Timed>, day: int)
    requires Within(c, run, day) && s.guards.day == Some(day) && EndsAtMidnight(c, s.guards, day)
    requires s.guards.startEquity > 0.0
    ensures Run(c, s, run).guards.startEquity == s.guards.startEquity
  {
    if run != [] {
      var n := |run| - 1;
      EquityIsLatched(c, s, run[..n], day);
      DayIsTracked(c, s, run[..n], day);
      EquityStays(c, Run(c, s, run[..n]).guards, run[n].at, run[n].event);
    }
  }

  lemma EquityStays(c: Config, g: Guards, now: int, e: Event)
    requires g.day == Some(Today(c, now)) && g.startEquity > 0.0
    ensures OnGuards(c, g, now, e).startEquity == g.startEquity
  {
  }

  // ----------------------------------------------------------------- the window

  ghost function Readings(run: seq<Timed>): seq<real>
  {
    if run == [] then []
    else
      var e := run[|run| - 1].event;
      Readings(run[..|run| - 1]) + if e.Equity? && e.equity > 0.0 then [e.equity] else []
  }

  lemma WindowStep(c: Config, g: Guards, now: int, e: Event)
    requires g.day == Some(Today(c, now)) && WindowOn(c)
    ensures OnGuards(c, g, now, e).window
         == if e.Equity? && e.equity > 0.0 then Push(g.window, e.equity, c.windowSize) else g.window
  {
  }

  /** The window holds the day's latest positive readings, as many as configured. */
  lemma {:induction false} WindowIsTheLastReadings(c: Config, s: State, run: seq<Timed>, day: int)
    requires Within(c, run, day) && WindowOn(c)
    requires s.guards.day == Some(day) && s.guards.window == [] && EndsAtMidnight(c, s.guards, day)
    ensures Run(c, s, run).guards.window == LastOf(Readings(run), c.windowSize)
  {
    if run != [] {
      var n := |run| - 1;
      WindowIsTheLastReadings(c, s, run[..n], day);
      DayIsTracked(c, s, run[..n], day);
      var e := run[n].event;
      WindowStep(c, Run(c, s, run[..n]).guards, run[n].at, e);
      if e.Equity? && e.equity > 0.0 {
        PushLast(Readings(run[..n]), e.equity, c.windowSize);
      } else {
        assert Readings(run) == Readings(run[..n]);
      }
    }
  }

  // ----------------------------------------------------------------- restart

  lemma {:induction false} WindowIsBounded(c: Config, s: State, run: seq<Timed>)
    requires |s.guards.window| <= c.windowSize
    ensures |Run(c, s, run).guards.window| <= c.windowSize
  {
    if run != [] {
      WindowIsBounded(c, s, run[..|run| - 1]);
    }
  }

  lemma {:induction false} GuardsDependOnGuards(c: Config, s: State, t: State, run: seq<Timed>)
    requires s.guards == t.guards
    ensures Run(c, s, run).guards == Run(c, t, run).guards
  {
    if run != [] {
      GuardsDependOnGuards(c, s, t, run[..|run| - 1]);
    }
  }

  /** Saving, restarting and reading back within the tracked day leaves no trace in the
      guards: everything after goes as if the engine had never stopped. */
  lemma {:induction false} RestartIsInvisible(c: Config, s: State, before: seq<Timed>, now: int, after: seq<Timed>)
    requires |s.guards.window| <= c.windowSize
    requires Run(c, s, before).guards.day == Some(Today(c, now))
    ensures
      var restarted := State(Restored(c, Some(Run(c, s, before).guards), BLANK, now), 0, false);
      Run(c, restarted, after).guards == Run(c, s, before + after).guards
  {
    WindowIsBounded(c, s, before);
    RunSplits(c, s, before, after);
    GuardsDependOnGuards(c, State(Run(c, s, before).guards, 0, false), Run(c, s, before), after);
  }

  /** A restarted tracker admits nothing until fresh risk data arrives. */
  lemma {:induction false} RestartAdmitsNothingYet(c: Config, g: Guards, run: seq<Timed>, now: int)
    requires forall k :: 0 <= k < |run| ==> !run[k].event.Daily?
    ensures !Admits(Run(c, State(g, 0, false), run), now) && Run(c, State(g, 0, false), run).updatedAt == 0
  {
    if run != [] {
      RestartAdmitsNothingYet(c, g, run[..|run| - 1], now);
    }
  }
}
