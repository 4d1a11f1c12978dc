/** What the throttle promises over whole runs of closes, restarts and looks. */
module EquityThrottleLaws {
  import opened Sums
  import opened EquityThrottle

  ghost predicate TimeOrdered(w: seq<Entry>)
  {
    forall i, j :: 0 <= i < j < |w| ==> w[i].closedAt <= w[j].closedAt
  }

  function Recent(w: seq<Entry>, cutoff: int): seq<Entry>
  {
    if w == [] then []
    else (if w[0].closedAt >= cutoff then [w[0]] else []) + Recent(w[1..], cutoff)
  }

  // -------------------------------------------------------- the rolling window

  lemma {:induction false} RecentOfRecent(w: seq<Entry>, a: int, b: int)
    requires a <= b
    ensures Recent(Recent(w, a), b) == Recent(w, b)
  {
    if w != [] {
      RecentOfRecent(w[1..], a, b);
      if w[0].closedAt >= a {
        assert Recent(w, a)[1..] == Recent(w[1..], a);
      } else {
        assert Recent(w, a) == Recent(w[1..], a);
      }
    }
  }

  lemma {:induction false} RecentAppend(w: seq<Entry>, e: Entry, cutoff: int)
    ensures Recent(w + [e], cutoff) == Recent(w, cutoff) + if e.closedAt >= cutoff then [e] else []
  {
    if w != [] {
      RecentAppend(w[1..], e, cutoff);
      assert (w + [e])[1..] == w[1..] + [e];
    }
  }

  lemma {:induction false} RecentKeeps(w: seq<Entry>, cutoff: int)
    ensures forall e :: e in Recent(w, cutoff) <==> e in w && e.closedAt >= cutoff
    ensures TimeOrdered(w) ==> TimeOrdered(Recent(w, cutoff))
  {
    if w != [] {
      RecentKeeps(w[1..], cutoff);
      assert forall e :: e in w <==> e == w[0] || e in w[1..];
      if TimeOrdered(w) {
        assert TimeOrdered(w[1..]);
        var r := Recent(w, cutoff);
        forall i, j | 0 <= i < j < |r|
          ensures r[i].closedAt <= r[j].closedAt
        {
          if r == [w[0]] + Recent(w[1..], cutoff) && i == 0 {
            assert r[j] in Recent(w[1..], cutoff);
          }
        }
      }
    }
  }

  /** On an ordered window, popping from the left is filtering. */
  lemma {:induction false} DropExpiredIsRecent(w: seq<Entry>, cutoff: int)
    requires TimeOrdered(w)
    ensures DropExpired(w, cutoff) == Recent(w, cutoff)
  {
    if w != [] {
      DropExpiredIsRecent(w[1..], cutoff);
      if w[0].closedAt >= cutoff {
        assert DropExpired(w[1..], cutoff) == w[1..];
        assert w == [w[0]] + w[1..];
      }
    }
  }

  lemma AppendKeepsOrder(w: seq<Entry>, e: Entry)
    requires TimeOrdered(w) && forall x :: x in w ==> x.closedAt <= e.closedAt
    ensures TimeOrdered(w + [e])
  {
    var v := w + [e];
    forall i, j | 0 <= i < j < |v|
      ensures v[i].closedAt <= v[j].closedAt
    {
      assert w[i] in w;
    }
  }

  lemma {:induction false} InsertAdds(w: seq<Entry>, e: Entry)
    ensures multiset(Insert(w, e)) == multiset(w) + multiset{e}
  {
    if w != [] && w[|w| - 1].closedAt > e.closedAt {
      InsertAdds(w[..|w| - 1], e);
      assert w == w[..|w| - 1] + [w[|w| - 1]];
    }
  }

  lemma {:induction false} InsertKeepsOrder(w: seq<Entry>, e: Entry)
    requires TimeOrdered(w)
    ensures TimeOrdered(Insert(w, e))
  {
    if w == [] || w[|w| - 1].closedAt <= e.closedAt {
      forall x | x in w
        ensures x.closedAt <= e.closedAt
      {
        var i :| 0 <= i < |w| && w[i] == x;
        assert i < |w| - 1 ==> w[i].closedAt <= w[|w| - 1].closedAt;
      }
      AppendKeepsOrder(w, e);
    } else {
      var init, last := w[..|w| - 1], w[|w| - 1];
      InsertKeepsOrder(init, e);
      InsertAdds(init, e);
      forall x | x in Insert(init, e)
        ensures x.closedAt <= last.closedAt
      {
        assert x in multiset(Insert(init, e));
        assert x == e || x in init;
        if x in init {
          var i :| 0 <= i < |init| && init[i] == x;
          assert w[i] == x;
        }
      }
      AppendKeepsOrder(Insert(init, e), last);
    }
  }

  lemma {:induction false} SortSorts(es: seq<Entry>)
    ensures TimeOrdered(SortByTime(es))
  {
    if es != [] {
      SortSorts(es[..|es| - 1]);
      InsertKeepsOrder(SortByTime(es[..|es| - 1]), es[|es| - 1]);
    }
  }

  lemma {:induction false} SortIsAPermutation(es: seq<Entry>)
    ensures multiset(SortByTime(es)) == multiset(es)
  {
    if es != [] {
      var init := es[..|es| - 1];
      assert es == init + [es[|es| - 1]];
      SortIsAPermutation(init);
      InsertAdds(SortByTime(init), es[|es| - 1]);
    }
  }

  lemma {:induction false} SortOfOrdered(es: seq<Entry>)
    requires TimeOrdered(es)
    ensures SortByTime(es) == es
  {
    if es != [] {
      assert es == es[..|es| - 1] + [es[|es| - 1]];
      SortOfOrdered(es[..|es| - 1]);
    }
  }

  /** Every close since the last rebuild, in the order it was recorded. */
  function Recorded(evs: seq<Event>): seq<Entry>
  {
    if evs == [] then []
    else
      var before := Recorded(evs[..|evs| - 1]);
      match evs[|evs| - 1]
      case Close(e, _) => before + [e]
      case Hydrate(rows, _) => SortByTime(rows)
      case Look(_) => before
  }

  /** The clock does not run backwards and closes arrive in the order they happened. */
  ghost predicate InTimeOrder(evs: seq<Event>)
  {
    && (forall i, j :: 0 <= i < j < |evs| ==> evs[i].now <= evs[j].now)
    && (forall k :: 0 <= k <= |evs| ==> TimeOrdered(Recorded(evs[..k])))
  }

  lemma {:induction false} InTimeOrderPrefix(evs: seq<Event>)
    requires evs != [] && InTimeOrder(evs)
    ensures InTimeOrder(evs[..|evs| - 1])
    ensures TimeOrdered(Recorded(evs))
  {
    var init := evs[..|evs| - 1];
    forall k | 0 <= k <= |init|
      ensures TimeOrdered(Recorded(init[..k]))
    {
      assert init[..k] == evs[..k];
    }
    assert evs[..|evs|] == evs;
  }

  lemma {:induction false} WindowIsRecentCloses(c: Config, evs: seq<Event>)
    requires c.Valid() && InTimeOrder(evs) && evs != []
    ensures Run(c, FRESH, evs).window == Recent(Recorded(evs), Cutoff(c, evs[|evs| - 1].now))
    ensures Cutoff(c, evs[|evs| - 1].now) == evs[|evs| - 1].now - c.windowDays * 86_400_000
  {
    var init, ev := evs[..|evs| - 1], evs[|evs| - 1];
    InTimeOrderPrefix(evs);
    var now := Cutoff(c, ev.now);
    if ev.Hydrate? {
      DropExpiredIsRecent(SortByTime(ev.rows), now);
      return;
    }
    var past := Recorded(init);
    var w := Run(c, FRESH, init).window;
    var since := if init == [] then now else Cutoff(c, init[|init| - 1].now);
    if init == [] {
      assert w == [] == Recent(past, since);
    } else {
      WindowIsRecentCloses(c, init);
    }
    assert since <= now;
    if ev.Close? {
      RecentAppend(past, ev.entry, since);
      RecentAppend(past, ev.entry, now);
      RecentAppend(w, ev.entry, now);
      WindowAppendOrdered(past, ev.entry, since);
      DropExpiredIsRecent(w + [ev.entry], now);
      RecentOfRecent(past, since, now);
    } else {
      InTimeOrderPrefix(evs);
      assert TimeOrdered(past);
      RecentKeeps(past, since);
      DropExpiredIsRecent(w, now);
      RecentOfRecent(past, since, now);
    }
  }

  lemma {:induction false} WindowAppendOrdered(past: seq<Entry>, e: Entry, cutoff: int)
    requires TimeOrdered(past + [e])
    ensures TimeOrdered(Recent(past, cutoff) + [e])
  {
    assert TimeOrdered(past) by {
      assert forall i :: 0 <= i < |past| ==> past[i] == (past + [e])[i];
    }
    RecentKeeps(past, cutoff);
    var r := Recent(past, cutoff);
    forall i | 0 <= i < |r|
      ensures r[i].closedAt <= e.closedAt
    {
      assert r[i] in past;
      var k :| 0 <= k < |past| && past[k] == r[i];
      assert (past + [e])[k] == r[i] && (past + [e])[|past|] == e;
    }
  }

  // ---------------------------------------------------------------- the switch

  ghost predicate InBand(c: Config, dd: real)
  {
    c.release <= dd <= c.threshold
  }

  /** Settled: the drawdown belongs to the window, and the flag to the drawdown. */
  ghost predicate Settled(c: Config, t: Throttle)
  {
    && t.dd == Drawdown(Contributions(t.window))
    && (t.engaged ==> t.dd >= c.release)
    && (!t.engaged ==> t.dd <= c.threshold)
  }

  lemma {:induction false} RunIsSettled(c: Config, evs: seq<Event>)
    requires c.Valid()
    ensures Settled(c, Run(c, FRESH, evs))
  {
    if evs != [] {
      RunIsSettled(c, evs[..|evs| - 1]);
    }
  }

  function Drawdowns(c: Config, evs: seq<Event>): (dds: seq<real>)
    ensures |dds| == |evs|
  {
    if evs == [] then [] else Drawdowns(c, evs[..|evs| - 1]) + [Run(c, FRESH, evs).dd]
  }

  /** Drawdown k lies outside the band and all later ones inside. */
  ghost predicate IsLastCrossing(c: Config, dds: seq<real>, k: int)
    requires 0 <= k < |dds|
  {
    !InBand(c, dds[k]) && forall j :: k < j < |dds| ==> InBand(c, dds[j])
  }

  /** on is what the last drawdown outside the band says, or false when none was. */
  ghost predicate SaysLastCrossing(c: Config, dds: seq<real>, on: bool)
  {
    || (exists k :: 0 <= k < |dds| && IsLastCrossing(c, dds, k) && on == (dds[k] > c.threshold))
    || (!on && forall j :: 0 <= j < |dds| ==> InBand(c, dds[j]))
  }

  lemma CrossingStays(c: Config, dds: seq<real>, dd: real, before: bool, on: bool)
    requires SaysLastCrossing(c, dds, before)
    requires on == if InBand(c, dd) then before else dd > c.threshold
    ensures SaysLastCrossing(c, dds + [dd], on)
  {
    var more := dds + [dd];
    if !InBand(c, dd) {
      assert !InBand(c, more[|dds|]);
    } else if exists k :: 0 <= k < |dds| && IsLastCrossing(c, dds, k) && before == (dds[k] > c.threshold) {
      var k :| 0 <= k < |dds| && IsLastCrossing(c, dds, k) && before == (dds[k] > c.threshold);
      assert IsLastCrossing(c, more, k);
    }
  }

  lemma {:induction false} FlagMovesOutsideTheBand(c: Config, evs: seq<Event>)
    requires c.Valid() && evs != []
    ensures
      var s, t := Run(c, FRESH, evs[..|evs| - 1]), Run(c, FRESH, evs);
      t.engaged == if InBand(c, t.dd) then s.engaged else t.dd > c.threshold
  {
    RunIsSettled(c, evs[..|evs| - 1]);
  }

  lemma {:induction false} FlagIsTheLastCrossing(c: Config, evs: seq<Event>)
    requires c.Valid()
    ensures SaysLastCrossing(c, Drawdowns(c, evs), Run(c, FRESH, evs).engaged)
  {
    if evs != [] {
      var init := evs[..|evs| - 1];
      FlagIsTheLastCrossing(c, init);
      FlagMovesOutsideTheBand(c, evs);
      CrossingStays(c, Drawdowns(c, init), Run(c, FRESH, evs).dd, Run(c, FRESH, init).engaged,
                    Run(c, FRESH, evs).engaged);
    }
  }

  lemma {:induction false} DropExpiredIsASuffix(w: seq<Entry>, cutoff: int) returns (k: nat)
    ensures k <= |w| && DropExpired(w, cutoff) == w[k..]
    ensures k < |w| ==> w[k].closedAt >= cutoff
  {
    if w == [] || w[0].closedAt >= cutoff {
      k := 0;
    } else {
      var j := DropExpiredIsASuffix(w[1..], cutoff);
      k := j + 1;
    }
  }

  lemma {:induction false} ExpiryNeverDeepens(w: seq<Entry>, cutoff: int)
    ensures Drawdown(Contributions(DropExpired(w, cutoff))) <= Drawdown(Contributions(w))
  {
    var k := DropExpiredIsASuffix(w, cutoff);
    assert Contributions(w[k..]) == Contributions(w)[k..];
    DroppingAPrefixNeverDeepens(Contributions(w), k);
  }

  lemma AWinNeverDeepens(w: seq<Entry>, e: Entry)
    requires e.r >= 0.0
    ensures Drawdown(Contributions(w + [e])) <= Drawdown(Contributions(w))
  {
    var cs := Contributions(w + [e]);
    assert cs[..|cs| - 1] == Contributions(w);
    DrawdownIsWorstSuffix(Contributions(w));
    assert Total(Contributions(w)[|w|..]) == 0.0;
  }

  /** From a settled, released tracker the switch goes on only at a rebuild or when
      a losing trade is recorded; the mere passing of time can only release it. */
  lemma OnlyALossEngages(c: Config, t: Throttle, ev: Event)
    requires c.Valid() && Settled(c, t) && !t.engaged && Step(c, t, ev).engaged
    ensures ev.Hydrate? || (ev.Close? && ev.entry.r < 0.0)
  {
    match ev
    case Hydrate(_, _) =>
    case Look(now) =>
      ExpiryNeverDeepens(t.window, Cutoff(c, now));
    case Close(e, now) =>
      ExpiryNeverDeepens(t.window + [e], Cutoff(c, now));
      if e.r >= 0.0 {
        AWinNeverDeepens(t.window, e);
      }
  }

  lemma {:induction false} LookingNeverEngages(c: Config, evs: seq<Event>, now: int)
    requires c.Valid()
    ensures Step(c, Run(c, FRESH, evs), Look(now)).engaged ==> Run(c, FRESH, evs).engaged
  {
    RunIsSettled(c, evs);
    var t := Run(c, FRESH, evs);
    if Step(c, t, Look(now)).engaged && !t.engaged {
      OnlyALossEngages(c, t, Look(now));
    }
  }

  lemma HydrateTwiceIsHydrateOnce(c: Config, t: Throttle, rows: seq<Entry>, now: int)
    requires c.Valid()
    ensures Step(c, Step(c, t, Hydrate(rows, now)), Hydrate(rows, now)) == Step(c, t, Hydrate(rows, now))
  {
  }

  /** Restart at one moment from everything that was recorded: window and drawdown
      come back; the flag comes back unless it was held on inside the band. */
  lemma {:induction false} RestartForgetsOnlyTheHeldFlag(c: Config, evs: seq<Event>, now: int)
    requires c.Valid() && InTimeOrder(evs + [Look(now)])
    ensures
      var live := Run(c, FRESH, evs + [Look(now)]);
      var back := Step(c, FRESH, Hydrate(Recent(Recorded(evs), Cutoff(c, now)), now));
      && back.window == live.window
      && back.dd == live.dd
      && (back.engaged == live.engaged <==> !(live.engaged && live.dd <= c.threshold))
  {
    var all := evs + [Look(now)];
    assert all[..|all| - 1] == evs;
    WindowIsRecentCloses(c, all);
    InTimeOrderPrefix(all);
    var rows := Recent(Recorded(evs), Cutoff(c, now));
    RecentKeeps(Recorded(evs), Cutoff(c, now));
    SortOfOrdered(rows);
    RecentOfRecent(Recorded(evs), Cutoff(c, now), Cutoff(c, now));
    DropExpiredIsRecent(rows, Cutoff(c, now));
    RunIsSettled(c, all);
  }

  // ------------------------------------------------------------- what a trade counts

  /** A trade counts its own ratio unless it was managed at TP1 and all of its prices are known
      with the stop on the losing side; without a ratio it does not count. */
  lemma OtherTradesCountTheirRatio(side: Side, entry: Option<real>, sl: Option<real>, close: Option<real>,
                                   rr: Option<real>, hit: bool, fraction: real, exit: Option<real>)
    ensures rr == None ==> MoneyR(side, entry, sl, close, rr, hit, fraction, exit) == None
    ensures !hit || fraction <= 0.0 ==> MoneyR(side, entry, sl, close, rr, hit, fraction, exit) == rr
    ensures entry == None || sl == None || close == None || exit == None ==>
              MoneyR(side, entry, sl, close, rr, hit, fraction, exit) == rr
    ensures entry.Some? && sl.Some? && (if side == Buy then entry.value <= sl.value else sl.value <= entry.value) ==>
              MoneyR(side, entry, sl, close, rr, hit, fraction, exit) == rr
  {
  }

  /** A share of more than the whole counts as the whole: the TP1 leg alone. */
  lemma WholeShareCountsTheTp1Leg(side: Side, entry: real, sl: real, close: real, rr: real, fraction: real, exit: real)
    requires entry != 0.0 && sl != 0.0 && close != 0.0 && exit != 0.0 && fraction >= 1.0
    requires if side == Buy then sl < entry else entry < sl
    ensures
      var r := MoneyR(side, Some(entry), Some(sl), Some(close), Some(rr), true, fraction, Some(exit));
      r.Some? && r.value * (if side == Buy then entry - sl else sl - entry)
                 == if side == Buy then exit - entry else entry - exit
  {
    var risk, reward := -Reward(side, entry, sl), Reward(side, entry, exit);
    assert (reward / risk) * risk == reward;
    assert MoneyR(side, Some(entry), Some(sl), Some(close), Some(rr), true, fraction, Some(exit))
        == Some(Blend(1.0, reward, Reward(side, entry, close), risk));
    WholeBlend(reward, Reward(side, entry, close), risk);
  }

  lemma WholeBlend(reward: real, last: real, risk: real)
    requires risk > 0.0
    ensures Blend(1.0, reward, last, risk) == reward / risk
  {
  }

  /** A trade that was not managed at TP1 counts the same live and from its row: its ratio,
      scaled by the multiplier it was sized with, at the time it closed. */
  lemma PlainContributionsAgree(t: ClosedTrade, now: int)
    requires !t.tp1Hit && t.closedAt.Some? && t.closedAt.value != 0
    ensures ContributionFromTrade(t, now) == ContributionFromRow(Stored(t))
    ensures t.realizedRr == None ==> ContributionFromTrade(t, now) == None
    ensures t.realizedRr.Some? ==>
              && ContributionFromTrade(t, now).Some? && ContributionFromTrade(t, now).value.closedAt == t.closedAt.value
              && ContributionFromTrade(t, now).value.r
                 == t.realizedRr.value * if t.riskMultiplier == 0.0 then 1.0 else t.riskMultiplier
  {
    if t.realizedRr.Some? {
      PlainEntry(t, now);
    }
  }

  lemma PlainEntry(t: ClosedTrade, now: int)
    requires !t.tp1Hit && t.closedAt.Some? && t.closedAt.value != 0 && t.realizedRr.Some?
    ensures ContributionFromTrade(t, now)
         == Some(Entry(t.closedAt.value, Weighted(t.realizedRr.value, t.riskMultiplier)))
  {
  }

  /** Hit or not, a trade without lots, and a row whose lots left are not fewer, count their
      ratio too. */
  lemma LotlessTradesCountTheirRatio(t: ClosedTrade, row: TradeRow, now: int)
    ensures t.entryLots <= 0.0 && t.realizedRr.Some? ==>
              ContributionFromTrade(t, now).Some?
              && ContributionFromTrade(t, now).value.r == Weighted(t.realizedRr.value, t.riskMultiplier)
    ensures (row.currentLots < 0.0 || row.currentLots >= row.entryLots)
            && row.realizedRr.Some? && row.closedAt.Some? ==>
              ContributionFromRow(row)
              == Some(Entry(row.closedAt.value, Weighted(row.realizedRr.value, row.riskMultiplier)))
  {
  }

  /** A close without a time is taken to be now; a row without one does not count. */
  lemma UntimedCloses(t: ClosedTrade, row: TradeRow, now: int)
    ensures t.realizedRr.Some? && (t.closedAt == None || t.closedAt == Some(0))
            && ContributionFromTrade(t, now).Some? ==>
              ContributionFromTrade(t, now).value.closedAt == now
    ensures row.realizedRr == None || row.closedAt == None ==> ContributionFromRow(row) == None
  {
  }

  /** The rows that count, in their order. */
  lemma {:induction false} OutcomesInOrder(row: Option<Entry>, rows: seq<Option<Entry>>)
    ensures Outcomes([]) == []
    ensures Outcomes([row] + rows) == (if row.Some? then [row.value] else []) + Outcomes(rows)
  {
    var all := [row] + rows;
    if rows == [] {
      assert all[..0] == [] && all == [row];
    } else {
      assert all[..|all| - 1] == [row] + rows[..|rows| - 1] && all[|all| - 1] == rows[|rows| - 1];
      OutcomesInOrder(row, rows[..|rows| - 1]);
    }
  }

  /** Sizing is reduced, to the configured multiplier, exactly while the throttle is switched
      on and the last drawdown outside the band was above it. */
  lemma {:induction false} ReducedAfterTheCrossing(c: Config, evs: seq<Event>)
    requires c.Valid()
    ensures
      var on := Run(c, FRESH, evs).engaged;
      && SaysLastCrossing(c, Drawdowns(c, evs), on)
      && SizingMultiplier(c, Run(c, FRESH, evs)) == (if c.enabled then if on then c.multiplier else 1.0 else 1.0)
  {
    FlagIsTheLastCrossing(c, evs);
  }
}
