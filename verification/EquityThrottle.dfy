/** The equity-curve throttle: R accounting of closed trades, drawdown of the
    cumulative R series, and the engage/release switch over a rolling window. */
module EquityThrottle {
  import opened Sums

  const DAY_MS := 86_400_000

  // ---------------------------------------------------------------- drawdown

  ghost function Total(cs: seq<real>): real
  {
    if cs == [] then 0.0 else Total(cs[..|cs| - 1]) + cs[|cs| - 1]
  }

  /** d is the largest loss over all suffixes of cs (the empty suffix loses 0). */
  ghost predicate IsWorstSuffix(cs: seq<real>, d: real)
  {
    && (exists i :: 0 <= i <= |cs| && Total(cs[i..]) == -d)
    && (forall i :: 0 <= i <= |cs| ==> -Total(cs[i..]) <= d)
  }

  /** Drawdown, by what one more contribution does to it. */
  function Drawdown(cs: seq<real>): real
  {
    if cs == [] then 0.0 else Max(0.0, Drawdown(cs[..|cs| - 1]) - cs[|cs| - 1])
  }

  lemma {:induction false} DrawdownIsWorstSuffix(cs: seq<real>)
    ensures IsWorstSuffix(cs, Drawdown(cs))
  {
    if cs == [] {
      assert Total(cs[0..]) == 0.0;
    } else {
      var init, c := cs[..|cs| - 1], cs[|cs| - 1];
      DrawdownIsWorstSuffix(init);
      forall i | 0 <= i <= |init|
        ensures Total(cs[i..]) == Total(init[i..]) + c
      {
        assert cs[i..][..|cs| - i - 1] == init[i..];
      }
      assert Total(cs[|cs|..]) == 0.0;
      var k :| 0 <= k <= |init| && Total(init[k..]) == -Drawdown(init);
      assert Total(cs[k..]) == -Drawdown(init) + c;
    }
  }

  /** The running-peak accumulator computes the worst suffix. */
  method ComputeDrawdownR(contributions: seq<real>) returns (dd: real)
    ensures IsWorstSuffix(contributions, dd)
    ensures dd == Drawdown(contributions)
  {
    var total, peak := 0.0, 0.0;
    for k := 0 to |contributions|
      invariant total <= peak
      invariant peak - total == Drawdown(contributions[..k])
    {
      assert contributions[..k + 1][..k] == contributions[..k];
      total := total + contributions[k];
      if total > peak {
        peak := total;
      }
    }
    assert contributions[..|contributions|] == contributions;
    dd := Max(0.0, peak - total);
    DrawdownIsWorstSuffix(contributions);
  }

  /** Forgetting old trades never deepens the drawdown. */
  lemma {:induction false} DroppingAPrefixNeverDeepens(cs: seq<real>, k: nat)
    requires k <= |cs|
    ensures Drawdown(cs[k..]) <= Drawdown(cs)
  {
    DrawdownIsWorstSuffix(cs);
    DrawdownIsWorstSuffix(cs[k..]);
    var i :| 0 <= i <= |cs[k..]| && Total(cs[k..][i..]) == -Drawdown(cs[k..]);
    assert cs[k..][i..] == cs[k + i..];
  }

  // ------------------------------------------------------------- R accounting

  datatype Side = Buy | Sell

  function Reward(side: Side, entry: real, price: real): real
  {
    if side == Buy then price - entry else entry - price
  }

  function OrZero(p: Option<real>): real { if p.Some? then p.value else 0.0 }

  function MoneyR(side: Side, entry: Option<real>, originalSl: Option<real>, close: Option<real>,
                  realizedRr: Option<real>, tp1Hit: bool, tp1Fraction: real, tp1Exit: Option<real>): Option<real>
  {
    if realizedRr.None? then None
    else if !tp1Hit || tp1Fraction <= 0.0 then realizedRr
    else if OrZero(entry) == 0.0 || OrZero(originalSl) == 0.0 || OrZero(close) == 0.0 || OrZero(tp1Exit) == 0.0 then
      realizedRr
    else
      var risk := -Reward(side, entry.value, originalSl.value);
      if risk <= 0.0 then realizedRr
      else
        Some(Blend(Min(1.0, Max(0.0, tp1Fraction)), Reward(side, entry.value, tp1Exit.value),
                   Reward(side, entry.value, close.value), risk))
  }

  function Blend(fraction: real, tp1Reward: real, finalReward: real, risk: real): real
    requires risk > 0.0
  {
    fraction * (tp1Reward / risk) + (1.0 - fraction) * (finalReward / risk)
  }

  lemma ShareTimesRatio(part: real, whole: real, reward: real, risk: real)
    requires whole > 0.0 && risk > 0.0
    ensures (part / whole) * (reward / risk) * (risk * whole) == part * reward
  {
    var p, q := part / whole, reward / risk;
    assert p * whole == part && q * risk == reward;
    assert p * q * (risk * whole) == (p * whole) * (q * risk);
  }

  lemma ShareComplement(part: real, whole: real)
    requires whole > 0.0
    ensures (whole - part) / whole == 1.0 - part / whole
  {
    var p, q := part / whole, (whole - part) / whole;
    assert p * whole == part;
    assert q * whole == whole - part;
    assert (p + q) * whole == p * whole + q * whole;
    assert p + q == 1.0;
  }

  /** Blended R, times the money at risk on the whole position, is the money made
      by the lots closed at TP1 plus the money made by the remaining lots. */
  lemma MoneyRIsMoneyOverRisk(side: Side, entry: real, sl: real, close: real, rr: real,
                              lots: real, tp1Lots: real, tp1Exit: real)
    requires entry != 0.0 && sl != 0.0 && close != 0.0 && tp1Exit != 0.0
    requires 0.0 < tp1Lots <= lots
    requires Reward(side, entry, sl) < 0.0
    ensures
      var r := MoneyR(side, Some(entry), Some(sl), Some(close), Some(rr), true, tp1Lots / lots, Some(tp1Exit));
      r.Some? && r.value * (-Reward(side, entry, sl) * lots)
                 == tp1Lots * Reward(side, entry, tp1Exit) + (lots - tp1Lots) * Reward(side, entry, close)
  {
    var risk := -Reward(side, entry, sl);
    var f := tp1Lots / lots;
    assert 0.0 < f <= 1.0;
    ShareTimesRatio(tp1Lots, lots, Reward(side, entry, tp1Exit), risk);
    ShareTimesRatio(lots - tp1Lots, lots, Reward(side, entry, close), risk);
    ShareComplement(tp1Lots, lots);
    var a, b := f * (Reward(side, entry, tp1Exit) / risk), (1.0 - f) * (Reward(side, entry, close) / risk);
    assert (a + b) * (risk * lots) == a * (risk * lots) + b * (risk * lots);
  }

  datatype ClosedTrade = ClosedTrade(
    side: Side, realizedRr: Option<real>, closedAt: Option<int>, riskMultiplier: real,
    planEntry: Option<real>, planStop: Option<real>, entryPrice: Option<real>, closePrice: Option<real>,
    entryLots: real, tp1Lots: real, tp1Hit: bool, tp1ClosePrice: Option<real>, tp1: Option<real>)

  datatype TradeRow = TradeRow(
    side: Side, realizedRr: Option<real>, closedAt: Option<int>, riskMultiplier: real,
    planEntry: Option<real>, planStop: Option<real>, entryPrice: Option<real>, closePrice: Option<real>,
    entryLots: real, currentLots: real, tp1Hit: bool, tp1: Option<real>)

  function Or(p: Option<real>, q: Option<real>): Option<real> { if OrZero(p) != 0.0 then p else q }

  function OrOne(m: real): real { if m == 0.0 then 1.0 else m }

  function Weighted(r: real, multiplier: real): real { r * OrOne(multiplier) }

  function ContributionFromTrade(t: ClosedTrade, now: int): Option<Entry>
  {
    var fraction := if t.entryLots > 0.0 then t.tp1Lots / t.entryLots else 0.0;
    var r := MoneyR(t.side, Or(t.entryPrice, t.planEntry), t.planStop, t.closePrice, t.realizedRr,
                    t.tp1Hit, fraction, Or(t.tp1ClosePrice, t.tp1));
    if r.None? then None
    else
      var closedAt := if t.closedAt.Some? && t.closedAt.value != 0 then t.closedAt.value else now;
      Some(Entry(closedAt, Weighted(r.value, t.riskMultiplier)))
  }

  /** The TP1 leg of a stored row is priced at the planned level; its share is
      recovered from the lots left. */
  function ContributionFromRow(t: TradeRow): Option<Entry>
  {
    if t.realizedRr.None? || t.closedAt.None? then None
    else
      var fraction := if t.tp1Hit && t.entryLots > 0.0 && 0.0 <= t.currentLots < t.entryLots
                      then 1.0 - t.currentLots / t.entryLots else 0.0;
      var r := MoneyR(t.side, Or(t.planEntry, t.entryPrice), t.planStop, t.closePrice, t.realizedRr,
                      t.tp1Hit, fraction, t.tp1);
      if r.None? then None else Some(Entry(t.closedAt.value, Weighted(r.value, t.riskMultiplier)))
  }

  /** The row a trade leaves behind once its TP1 lots were taken off. */
  function Stored(t: ClosedTrade): TradeRow
  {
    TradeRow(t.side, t.realizedRr, t.closedAt, t.riskMultiplier, t.planEntry, t.planStop, t.entryPrice,
             t.closePrice, t.entryLots, if t.tp1Hit then t.entryLots - t.tp1Lots else t.entryLots, t.tp1Hit, t.tp1)
  }

  lemma BlendIsInjective(f: real, x: real, y: real, last: real, risk: real, m: real)
    requires f > 0.0 && risk > 0.0 && m > 0.0
    ensures Blend(f, x, last, risk) * m == Blend(f, y, last, risk) * m <==> x == y
  {
    var p, q := x / risk, y / risk;
    assert p * risk == x && q * risk == y;
    if p != q {
      assert f * p != f * q;
      assert Blend(f, x, last, risk) != Blend(f, y, last, risk);
    }
  }

  /** A trade managed at TP1 contributes the same R after a restart exactly when its
      partial close was priced at the planned TP1 level. */
  lemma StoredContributionAgrees(t: ClosedTrade, now: int)
    requires t.realizedRr.Some? && t.closedAt.Some? && t.closedAt.value != 0 && t.riskMultiplier >= 0.0
    requires t.entryPrice == t.planEntry && t.entryPrice.Some? && t.entryPrice.value != 0.0
    requires t.tp1.Some? && t.tp1.value != 0.0 && OrZero(t.planStop) != 0.0 && OrZero(t.closePrice) != 0.0
    requires t.tp1Hit && 0.0 < t.tp1Lots <= t.entryLots
    requires Reward(t.side, t.entryPrice.value, t.planStop.value) < 0.0
    ensures ContributionFromTrade(t, now) == ContributionFromRow(Stored(t))
            <==> Or(t.tp1ClosePrice, t.tp1) == t.tp1
  {
    var row := Stored(t);
    var f := t.tp1Lots / t.entryLots;
    assert 0.0 < f <= 1.0;
    ShareComplement(row.currentLots, row.entryLots);
    assert row.entryLots - row.currentLots == t.tp1Lots;
    var risk := -Reward(t.side, t.entryPrice.value, t.planStop.value);
    var exit := Or(t.tp1ClosePrice, t.tp1);
    var x, y := Reward(t.side, t.entryPrice.value, exit.value), Reward(t.side, t.entryPrice.value, t.tp1.value);
    var last := Reward(t.side, t.entryPrice.value, t.closePrice.value);
    assert ContributionFromTrade(t, now)
        == Some(Entry(t.closedAt.value, Weighted(Blend(f, x, last, risk), t.riskMultiplier)));
    assert ContributionFromRow(row)
        == Some(Entry(t.closedAt.value, Weighted(Blend(f, y, last, risk), t.riskMultiplier)));
    BlendIsInjective(f, x, y, last, risk, OrOne(t.riskMultiplier));
  }

  // -------------------------------------------------------- window and switch

  datatype Config = Config(enabled: bool, threshold: real, release: real, multiplier: real, windowDays: int)
  {
    ghost predicate Valid()
    {
      && 0.0 < release <= threshold
      && 0.0 < multiplier <= 1.0
      && 1 <= windowDays
    }
  }

  datatype Entry = Entry(closedAt: int, r: real)

  datatype Throttle = Throttle(window: seq<Entry>, engaged: bool, dd: real)

  const FRESH := Throttle([], false, 0.0)

  function Contributions(w: seq<Entry>): (cs: seq<real>)
    ensures |cs| == |w|
  {
    seq(|w|, i requires 0 <= i < |w| => w[i].r)
  }

  function Cutoff(c: Config, now: int): int { now - c.windowDays * DAY_MS }

  function DropExpired(w: seq<Entry>, cutoff: int): seq<Entry>
  {
    if w == [] || w[0].closedAt >= cutoff then w else DropExpired(w[1..], cutoff)
  }

  function Switch(c: Config, engaged: bool, dd: real): bool
  {
    if dd > c.threshold then true else if dd < c.release then false else engaged
  }

  function Refresh(c: Config, t: Throttle, now: int): Throttle
  {
    var w := DropExpired(t.window, Cutoff(c, now));
    var dd := Drawdown(Contributions(w));
    Throttle(w, Switch(c, t.engaged, dd), dd)
  }

  /** Stable sort on the close time. */
  function Insert(w: seq<Entry>, e: Entry): seq<Entry>
  {
    if w == [] || w[|w| - 1].closedAt <= e.closedAt then w + [e]
    else Insert(w[..|w| - 1], e) + [w[|w| - 1]]
  }

  function SortByTime(es: seq<Entry>): seq<Entry>
  {
    if es == [] then [] else Insert(SortByTime(es[..|es| - 1]), es[|es| - 1])
  }

  /** What happens to a tracker: a close is recorded, the window is rebuilt from
      storage, or somebody looks (preview or stats). */
  datatype Event = Close(entry: Entry, now: int) | Hydrate(rows: seq<Entry>, now: int) | Look(now: int)

  function Step(c: Config, t: Throttle, ev: Event): Throttle
  {
    match ev
    case Close(e, now) => Refresh(c, t.(window := t.window + [e]), now)
    case Hydrate(rows, now) => Refresh(c, t.(window := SortByTime(rows)), now)
    case Look(now) => Refresh(c, t, now)
  }

  function Run(c: Config, t: Throttle, evs: seq<Event>): Throttle
  {
    if evs == [] then t else Step(c, Run(c, t, evs[..|evs| - 1]), evs[|evs| - 1])
  }

  /** Multiplier a preview hands to sizing. */
  function SizingMultiplier(c: Config, t: Throttle): real
  {
    if t.engaged && c.enabled then c.multiplier else 1.0
  }

  // ------------------------------------------------------------------ tracker

  class EquityThrottleTracker {
    const config: Config
    var window: seq<Entry>
    var engaged: bool
    var ddR: real

    function Abs(): Throttle
      reads this
    {
      Throttle(window, engaged, ddR)
    }

    constructor (c: Config)
      ensures config == c && Abs() == FRESH
    {
      config := c;
      window, engaged, ddR := [], false, 0.0;
    }

    method RefreshLocked(now: int)
      modifies this
      ensures Abs() == Refresh(config, old(Abs()), now)
    {
      var cutoff := now - config.windowDays * DAY_MS;
      while window != [] && window[0].closedAt < cutoff
        invariant DropExpired(window, cutoff) == DropExpired(old(window), cutoff)
        invariant engaged == old(engaged)
        decreases |window|
      {
        window := window[1..];
      }
      ddR := ComputeDrawdownR(Contributions(window));
      if ddR > config.threshold {
        engaged := true;
      } else if ddR < config.release {
        engaged := false;
      }
    }

    /** entry is None when the trade carries no outcome. */
    method RecordTradeClosed(entry: Option<Entry>, now: int)
      modifies this
      ensures Abs() == if entry.None? then old(Abs()) else Step(config, old(Abs()), Close(entry.value, now))
    {
      if entry.None? {
        return;
      }
      window := window + [entry.value];
      RefreshLocked(now);
    }

    /** Rows without an outcome contribute None and are skipped. */
    method HydrateRows(rows: seq<Option<Entry>>, now: int)
      modifies this
      ensures Abs() == Step(config, old(Abs()), Hydrate(Outcomes(rows), now))
    {
      var entries: seq<Entry> := [];
      for k := 0 to |rows|
        invariant entries == Outcomes(rows[..k])
      {
        assert rows[..k + 1][..k] == rows[..k];
        if rows[k].Some? {
          entries := entries + [rows[k].value];
        }
      }
      assert rows[..|rows|] == rows;
      window := SortByTime(entries);
      RefreshLocked(now);
    }

    method Preview(now: int) returns (multiplier: real, drawdownR: real, on: bool)
      modifies this
      ensures Abs() == Step(config, old(Abs()), Look(now))
      ensures multiplier == SizingMultiplier(config, Abs()) && drawdownR == Abs().dd
      ensures on == (Abs().engaged && config.enabled)
    {
      RefreshLocked(now);
      on := engaged && config.enabled;
      multiplier := if on then config.multiplier else 1.0;
      drawdownR := ddR;
    }
  }

  function Outcomes(rows: seq<Option<Entry>>): seq<Entry>
  {
    if rows == [] then []
    else Outcomes(rows[..|rows| - 1]) + if rows[|rows| - 1].Some? then [rows[|rows| - 1].value] else []
  }
}
