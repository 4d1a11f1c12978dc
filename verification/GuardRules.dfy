/** The loss guards exactly: when data is fresh, when the third guard fires, what a new day
    starts with, and which guard names the pause. */
module GuardRules {
  import opened Sums
  import opened LossGuards
  import opened LossGuardLaws

  // ------------------------------------------------------------------- admission

  /** The last word on the data was a daily update at the given time. */
  ghost predicate LastUpdate(run: seq<Timed>, j: nat)
  {
    j < |run| && run[j].event.Daily? && forall k :: j < k < |run| ==> !run[k].event.Daily? && !run[k].event.Unavailable?
  }

  ghost predicate LastDaily(run: seq<Timed>, j: nat)
  {
    j < |run| && run[j].event.Daily? && forall k :: j < k < |run| ==> !run[k].event.Daily?
  }

  ghost predicate FailedSince(run: seq<Timed>, j: nat)
  {
    exists k :: j < k < |run| && run[k].event.Unavailable?
  }

  ghost predicate FreshFrom(s: State, run: seq<Timed>, j: nat)
  {
    LastDaily(run, j) && s.updatedAt == run[j].at && (s.error <==> FailedSince(run, j))
  }

  ghost predicate NoDaily(run: seq<Timed>) { forall k :: 0 <= k < |run| ==> !run[k].event.Daily? }

  lemma StillTheLast(init: seq<Timed>, e: Timed, j: nat)
    requires LastDaily(init, j) && !e.event.Daily?
    ensures LastDaily(init + [e], j) && (init + [e])[j] == init[j]
    ensures FailedSince(init + [e], j) <==> FailedSince(init, j) || e.event.Unavailable?
  {
    var run := init + [e];
    assert forall k :: 0 <= k < |init| ==> run[k] == init[k];
    assert run[|init|] == e;
    if FailedSince(init, j) {
      var k :| j < k < |init| && init[k].event.Unavailable?;
      assert run[k].event.Unavailable?;
    }
  }

  lemma EventsMoveFreshness(c: Config, s: State, e: Timed)
    ensures
      var t := Step(c, s, e.at, e.event);
      && (e.event.Daily? ==> t.updatedAt == e.at && !t.error)
      && (!e.event.Daily? ==> t.updatedAt == s.updatedAt && (t.error <==> s.error || e.event.Unavailable?))
  {
  }

  lemma {:induction false} FreshnessOf(c: Config, run: seq<Timed>, t: State)
    requires t == Run(c, START, run)
    ensures (NoDaily(run) && t.updatedAt == 0) || exists j: nat :: FreshFrom(t, run, j)
  {
    if run != [] {
      var n := |run| - 1;
      var init, s := run[..n], Run(c, START, run[..n]);
      FreshnessOf(c, init, s);
      EventsMoveFreshness(c, s, run[n]);
      if run[n].event.Daily? {
        assert FreshFrom(t, run, n);
      } else if exists j: nat :: FreshFrom(s, init, j) {
        var j: nat :| FreshFrom(s, init, j);
        StillTheLast(init, run[n], j);
        assert init + [run[n]] == run;
        assert FreshFrom(t, run, j);
      } else {
        assert forall k :: 0 <= k < n ==> run[k] == init[k];
      }
    }
  }

  /** Over a tracker's whole life, a signal is admitted exactly when the last word on the data
      was a daily update of the last ten seconds and no pause is running. */
  lemma {:induction false} AdmittedExactly(c: Config, run: seq<Timed>, now: int)
    requires forall k :: 0 <= k < |run| ==> run[k].at > 0
    ensures Admits(Run(c, START, run), now) <==>
              && (exists j: nat :: LastUpdate(run, j) && now - run[j].at <= 10_000)
              && (Run(c, START, run).guards.pausedUntil == 0 || Run(c, START, run).guards.pausedUntil <= now)
  {
    var s := Run(c, START, run);
    FreshnessOf(c, run, s);
    if !NoDaily(run) {
      var j: nat :| FreshFrom(s, run, j);
      LastIsTheLast(run, j);
    }
  }

  lemma LastIsTheLast(run: seq<Timed>, j: nat)
    requires LastDaily(run, j)
    ensures forall i: nat :: LastUpdate(run, i) ==> i == j
    ensures LastUpdate(run, j) <==> !FailedSince(run, j)
  {
    assert run[j].event.Daily?;
  }

  // ------------------------------------------------------------------- the third guard

  /** Two readings of the window differ by the configured share of the higher one. */
  ghost predicate Differ(c: Config, w: seq<real>, i: int, j: int)
    requires 0 <= i < |w| && 0 <= j < |w|
  {
    (w[i] - w[j]) * 100.0 >= c.rollingPct * w[i]
  }

  lemma SwingOverPeak(hi: real, lo: real, pct: real, share: real)
    requires hi > 0.0 && share == pct * hi
    ensures (hi - lo) / hi * 100.0 >= pct <==> (hi - lo) * 100.0 >= share
  {
    var q := (hi - lo) / hi;
    assert q * hi == hi - lo;
    assert (q * 100.0) * hi == (hi - lo) * 100.0;
    Scaled(pct, q * 100.0, hi, share, (hi - lo) * 100.0);
  }

  /** What two readings differ by, the highest and the lowest do. */
  lemma ExtremesDiffer(a: real, b: real, hi: real, lo: real, pct: real)
    requires 0.0 < a <= hi && lo <= b && 0.0 <= lo && (a - b) * 100.0 >= pct * a
    ensures (hi - lo) * 100.0 >= pct * hi
  {
    var ba, ha := b * hi, hi * a;
    assert (a - b) * 100.0 * hi >= pct * a * hi by {
      Scaled(pct * a, (a - b) * 100.0, hi, pct * a * hi, (a - b) * 100.0 * hi);
    }
    assert lo * a <= b * hi by {
      Scaled(lo, b, a, lo * a, b * a);
      if b > 0.0 {
        Scaled(a, hi, b, a * b, hi * b);
      }
    }
    var left, right := (hi - lo) * 100.0, pct * hi;
    assert left * a == 100.0 * ha - 100.0 * (lo * a);
    assert right * a == pct * a * hi;
    assert (a - b) * 100.0 * hi == 100.0 * ha - 100.0 * ba;
    Scaled(right, left, a, right * a, left * a);
  }

  lemma {:induction false} SwungByExtremes(c: Config, w: seq<real>, hi: real, lo: real)
    requires w != [] && hi == Highest(w) > 0.0 && lo == Lowest(w)
    ensures Swung(c, w) <==> |w| >= 3 && (hi - lo) * 100.0 >= c.rollingPct * hi
  {
    SwingOverPeak(hi, lo, c.rollingPct, c.rollingPct * hi);
  }

  lemma ExtremesOf(w: seq<real>) returns (hi: real, lo: real, i: int, j: int)
    requires w != [] && forall x :: x in w ==> x > 0.0
    ensures hi == Highest(w) > 0.0 && lo == Lowest(w) > 0.0
    ensures 0 <= i < |w| && w[i] == hi && 0 <= j < |w| && w[j] == lo
    ensures forall k :: 0 <= k < |w| ==> lo <= w[k] <= hi
  {
    hi, lo := Highest(w), Lowest(w);
    i :| 0 <= i < |w| && w[i] == hi;
    j :| 0 <= j < |w| && w[j] == lo;
    forall k | 0 <= k < |w| ensures lo <= w[k] <= hi {
      assert w[k] in w;
    }
  }

  ghost predicate SomeDiffer(c: Config, w: seq<real>)
  {
    exists i, j :: 0 <= i < |w| && 0 <= j < |w| && Differ(c, w, i, j)
  }

  lemma SwungExactly(c: Config, w: seq<real>)
    requires forall x :: x in w ==> x > 0.0
    ensures Swung(c, w) <==> |w| >= 3 && SomeDiffer(c, w)
  {
    if |w| >= 3 {
      var hi, lo, i, j := ExtremesOf(w);
      SwungByExtremes(c, w, hi, lo);
      SomeDifferAsExtremesDo(c, w, hi, lo, i, j);
    }
  }

  lemma SomeDifferAsExtremesDo(c: Config, w: seq<real>, hi: real, lo: real, i: int, j: int)
    requires 0 <= i < |w| && w[i] == hi && 0 <= j < |w| && w[j] == lo && lo > 0.0
    requires forall k :: 0 <= k < |w| ==> lo <= w[k] <= hi
    ensures SomeDiffer(c, w) <==> (hi - lo) * 100.0 >= c.rollingPct * hi
  {
    if SomeDiffer(c, w) {
      var a, b :| 0 <= a < |w| && 0 <= b < |w| && Differ(c, w, a, b);
      ExtremesDiffer(w[a], w[b], hi, lo, c.rollingPct);
    } else {
      assert !Differ(c, w, i, j);
    }
  }

  lemma {:induction false} ReadingsArePositive(run: seq<Timed>)
    ensures forall x :: x in Readings(run) ==> x > 0.0
  {
    if run != [] {
      ReadingsArePositive(run[..|run| - 1]);
    }
  }

  /** Within a day the third guard fires on a reading exactly when it is switched on, the
      reading is positive, the window then holds three at least, and two of them differ by
      the configured share of the higher. */
  lemma {:induction false} RollingGuardFires(c: Config, s: State, run: seq<Timed>, day: int, equity: real)
    requires Within(c, run, day) && c.windowSize > 0 && c.rollingPct > 0.0
    requires s.guards.day == Some(day) && s.guards.window == [] && EndsAtMidnight(c, s.guards, day)
    ensures
      var w := LastOf(Readings(run) + [equity], c.windowSize);
      Trips(c, Run(c, s, run).guards, Equity(equity)) <==> equity > 0.0 && |w| >= 3 && SomeDiffer(c, w)
  {
    WindowIsTheLastReadings(c, s, run, day);
    ReadingsArePositive(run);
    TripsOnReading(c, Run(c, s, run).guards, Readings(run), equity);
  }

  lemma TripsOnReading(c: Config, g: Guards, readings: seq<real>, equity: real)
    requires c.windowSize > 0 && c.rollingPct > 0.0 && g.window == LastOf(readings, c.windowSize)
    requires forall x :: x in readings ==> x > 0.0
    ensures
      var w := LastOf(readings + [equity], c.windowSize);
      Trips(c, g, Equity(equity)) <==> equity > 0.0 && |w| >= 3 && SomeDiffer(c, w)
  {
    PushLast(readings, equity, c.windowSize);
    if equity > 0.0 {
      forall x | x in LastOf(readings + [equity], c.windowSize) ensures x > 0.0 {
        assert x in readings + [equity];
      }
      SwungExactly(c, LastOf(readings + [equity], c.windowSize));
    }
  }

  /** Switched off, neither the second nor the third guard fires or pauses. */
  lemma GuardsCanBeOff(c: Config, g: Guards, now: int, pnl: real, equity: real)
    ensures c.maxDrawdown <= 0.0 ==> !Trips(c, g, Close(pnl)) && OnClose(c, g, now, pnl).pausedUntil == g.pausedUntil
    ensures c.windowSize == 0 || c.rollingPct <= 0.0 ==>
              && !Trips(c, g, Equity(equity)) && OnEquity(c, g, now, equity).pausedUntil == g.pausedUntil
              && OnEquity(c, g, now, equity).window == g.window
  {
  }

  // ------------------------------------------------------------------- days and pauses

  /** Days end at local midnights, and every moment belongs to the day that ends next. */
  lemma DaysEndAtMidnight(c: Config, now: int, day: int)
    ensures (DayEnd(c, day) + c.offset) % 86_400_000 == 0 && DayEnd(c, day + 1) == DayEnd(c, day) + 86_400_000
    ensures day == Today(c, now) <==> DayEnd(c, day) - 86_400_000 <= now < DayEnd(c, day)
  {
  }

  /** The first update of a day forgets the day before: nothing is booked, read or paused but
      what this update itself brings. */
  lemma NewDayStartsClean(c: Config, g: Guards, now: int, pct: real, startEquity: real)
    requires g.day != Some(Today(c, now))
    ensures
      var h := OnDaily(c, g, now, pct, startEquity);
      && h.day == Some(Today(c, now)) && h.pct == pct && h.pnl == 0.0 == h.peak && h.drawback == 0.0 && h.window == []
      && h.startEquity == (if startEquity > 0.0 then startEquity else 0.0) == h.equityPeak
      && (if pct >= c.limit then h.pausedUntil == DayEnd(c, Today(c, now)) && h.reason == DailyLoss
          else h.pausedUntil == 0 && h.reason == NoReason)
  {
  }

  /** Later updates of the day keep what is booked and read, and latch the start equity if it
      was not known yet. */
  lemma SameDayGoesOn(c: Config, g: Guards, now: int, pct: real, startEquity: real)
    requires g.day == Some(Today(c, now))
    ensures
      var h, latches := OnDaily(c, g, now, pct, startEquity), g.startEquity <= 0.0 && startEquity > 0.0;
      && h.day == g.day && h.pct == pct && h.pnl == g.pnl && h.peak == g.peak && h.drawback == g.drawback
      && h.window == g.window
      && h.startEquity == (if latches then startEquity else g.startEquity)
      && h.equityPeak == (if latches then startEquity else g.equityPeak)
      && (pct >= c.limit ==> h.pausedUntil == DayEnd(c, Today(c, now)) && h.reason == DailyLoss)
      && (pct < c.limit ==>
            if g.pausedUntil != 0 && g.pausedUntil <= now then h.pausedUntil == 0 && h.reason == NoReason
            else h.pausedUntil == g.pausedUntil && h.reason == g.reason)
  {
  }

  /** A close or a reading that trips a guard pauses in its own name, unless a pause is still
      running: then that one stands. One that trips none leaves the pause as it is. */
  lemma FirstGuardNamesThePause(c: Config, g: Guards, now: int, e: Event)
    requires e.Close? || e.Equity?
    ensures
      var h, running := OnGuards(c, g, now, e), g.pausedUntil != 0 && now < g.pausedUntil;
      && h.day == g.day && h.pct == g.pct && h.startEquity == g.startEquity
      && (Trips(c, g, e) && !running ==>
            && h.pausedUntil == DayEnd(c, Today(c, now))
            && h.reason == if e.Close? then ProfitDrawdown else RollingDrawdown)
      && (!Trips(c, g, e) || running ==> h.pausedUntil == g.pausedUntil && h.reason == g.reason)
      && (e.Close? ==> h.equityPeak == g.equityPeak && h.window == g.window)
      && (e.Equity? ==>
            && h.pnl == g.pnl && h.peak == g.peak && h.drawback == g.drawback
            && h.equityPeak == if e.equity > 0.0 && e.equity > g.equityPeak then e.equity else g.equityPeak)
  {
  }

  /** What is shown as given back after a close: the distance from the peak in per cent of the
      start equity, while there is a profit to lose. */
  lemma DrawbackIsShown(g: Guards, pnl: real)
    ensures
      var h := Booked(g, pnl);
      && (h.peak > 0.0 && g.startEquity > 0.0 ==> h.drawback * g.startEquity == (h.peak - h.pnl) * 100.0)
      && (h.peak <= 0.0 || g.startEquity <= 0.0 ==> h.drawback == 0.0)
  {
  }

  /** A save is read back only on the day it tells of. */
  lemma SavesOfOtherDaysAreIgnored(c: Config, saved: Option<Guards>, g: Guards, now: int)
    requires saved.None? || saved.value.day != Some(Today(c, now))
    ensures Restored(c, saved, g, now) == g
  {
  }

  /** The money of one trade: the daily limit of the start equity, split among the losing
      trades allowed, at least one. */
  lemma SlotMoneyIsExact(c: Config, g: Guards, slots: int)
    ensures g.startEquity <= 0.0 ==> DailyRisk(c, g, slots) == 0.0
    ensures g.startEquity > 0.0 && slots >= 1 ==>
              DailyRisk(c, g, slots) * slots as real * 100.0 == g.startEquity * c.limit
    ensures g.startEquity > 0.0 && slots < 1 ==> DailyRisk(c, g, slots) * 100.0 == g.startEquity * c.limit
  {
    if g.startEquity > 0.0 && slots >= 1 {
      var budget, n := g.startEquity * (c.limit / 100.0), slots as real;
      assert (budget / n) * n == budget;
    }
  }
}
