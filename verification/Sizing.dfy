/** Position sizing: lots from money at risk, against the worst fill that is still
    accepted, and the TP1 level and lots derived from it. */
module Sizing {
  import opened Sums

  // ------------------------------------------------------------- rounding

  function HalfEven(y: real): int
  {
    var f := y.Floor;
    var d := y - f as real;
    if d < 0.5 then f else if d > 0.5 then f + 1 else if f % 2 == 0 then f else f + 1
  }

  function Round2(x: real): real { HalfEven(x * 100.0) as real / 100.0 }

  /** A whole number of hundredths. */
  ghost predicate Cents(x: real) { (x * 100.0).Floor as real == x * 100.0 }

  lemma CentsRoundToThemselves(x: real)
    requires Cents(x)
    ensures Round2(x) == x
  {
  }

  lemma WholeTimesCents(n: int, step: real)
    requires Cents(step)
    ensures Cents(Steps(n, step))
  {
    var c, m := (step * 100.0).Floor, n as real;
    assert (m * step) * 100.0 == m * (step * 100.0);
    assert (n * c) as real == m * c as real;
    assert Steps(n, step) * 100.0 == (n * c) as real;
  }

  // ------------------------------------------------------------- lots

  function StepsIn(lots: real, step: real): int
    requires step > 0.0
  {
    (lots / step).Floor
  }

  function Steps(n: int, step: real): real { n as real * step }

  /** The largest step multiple not above the wish. */
  function Stepped(lots: real, step: real): real
    requires step > 0.0
  {
    Steps(StepsIn(lots, step), step)
  }

  lemma Between(q: real, n: int, step: real, lots: real)
    requires step > 0.0 && n as real <= q < n as real + 1.0 && lots == q * step
    ensures Steps(n, step) <= lots < Steps(n, step) + step
    ensures n >= 0 ==> Steps(n, step) >= 0.0
  {
    var low, high := Steps(n, step), (n as real + 1.0) * step;
    Scaled(n as real, q, step, low, lots);
    Scaled(q, n as real + 1.0, step, lots, high);
    ScaledSum(n as real, 1.0, step, low, step, high);
    Scaled(0.0, n as real, step, 0.0, low);
  }

  lemma SteppedIsBelow(lots: real, step: real)
    requires step > 0.0
    ensures Stepped(lots, step) <= lots < Stepped(lots, step) + step
    ensures lots >= 0.0 ==> Stepped(lots, step) >= 0.0
  {
    var q := lots / step;
    assert lots == q * step;
    Scaled(0.0, q, step, 0.0, lots);
    Between(q, StepsIn(lots, step), step, lots);
  }

  lemma SteppedIsCents(lots: real, step: real)
    requires step > 0.0 && Cents(step)
    ensures Cents(Stepped(lots, step))
  {
    WholeTimesCents(StepsIn(lots, step), step);
  }

  function NormaliseLots(lots: real, step: real, lo: real, hi: real): real
    requires step > 0.0
  {
    Round2(Max(lo, Min(Stepped(lots, step), hi)))
  }

  /** With steps and limits in hundredths the final rounding changes nothing, and the
      result is the largest admissible volume not above the wish, unless the minimum
      or the maximum decides. */
  lemma NormalisedLots(lots: real, step: real, lo: real, hi: real)
    requires step > 0.0 && Cents(step) && Cents(lo) && Cents(hi)
    ensures
      var r := NormaliseLots(lots, step, lo, hi);
      && lo <= r <= Max(lo, hi)
      && (r <= lots <==> lo <= lots)
      && (r == lo || r == hi || (r <= lots < r + step))
      && (r < hi ==> lots < r + step) && (r == lo || r <= hi)
      && (r == lo || r == hi || exists n: int :: r == Steps(n, step))
  {
    SteppedIsBelow(lots, step);
    SteppedIsCents(lots, step);
    CentsRoundToThemselves(Max(lo, Min(Stepped(lots, step), hi)));
  }

  // ------------------------------------------------------------- instrument

  datatype SymbolInfo = SymbolInfo(
    digits: int, point: real, tickSize: real, tickValue: real, ask: real, bid: real,
    lotStep: real, lotMin: real, lotMax: real, volumeStep: real, volumeMin: real, volumeMax: real,
    stopsLevel: int, freezeLevel: int)

  function PipSize(point: real, digits: int): real { if digits == 5 || digits == 3 then point * 10.0 else point }

  datatype LotCalc = LotCalc(lots: real, riskAmount: real)

  function Pip(si: SymbolInfo): real { PipSize(si.point, si.digits) }

  function RiskPips(entry: real, stop: real, si: SymbolInfo): real
    requires Pip(si) != 0.0
  {
    Abs(entry - stop) / Pip(si)
  }

  function PipValue(si: SymbolInfo): real
    requires si.tickSize != 0.0
  {
    (si.tickValue / si.tickSize) * Pip(si)
  }

  /** Money one lot loses between entry and stop, by way of pips. */
  function PipMoney(entry: real, stop: real, si: SymbolInfo): real
    requires Pip(si) != 0.0 && si.tickSize != 0.0
  {
    RiskPips(entry, stop, si) * PipValue(si)
  }

  /** None: a division by zero aborts the planning. */
  function CalculateLotSize(riskAmount: real, entry: real, stop: real, si: SymbolInfo, maxLot: real,
                            minLot: real): Option<LotCalc>
  {
    if Pip(si) == 0.0 then None
    else if RiskPips(entry, stop, si) == 0.0 || si.tickSize == 0.0 then Some(LotCalc(minLot, riskAmount))
    else if PipValue(si) == 0.0 then Some(LotCalc(minLot, riskAmount))
    else if si.lotStep <= 0.0 then None
    else Some(FromUnit(riskAmount, PipMoney(entry, stop, si), si, maxLot, minLot))
  }

  function FromUnit(riskAmount: real, unit: real, si: SymbolInfo, maxLot: real, minLot: real): LotCalc
    requires si.lotStep > 0.0
  {
    LotCalc(NormaliseLots(Quotient(riskAmount, unit), si.lotStep, minLot, Min(maxLot, si.lotMax)), riskAmount)
  }

  function Quotient(a: real, b: real): real { if b == 0.0 then 0.0 else a / b }

  ghost predicate Tradable(si: SymbolInfo)
  {
    && si.point > 0.0 && si.tickSize > 0.0 && si.tickValue > 0.0
    && si.lotStep > 0.0 && Cents(si.lotStep) && Cents(si.lotMax)
  }

  /** Money one lot makes or loses over a distance in price. */
  function LotMoney(distance: real, si: SymbolInfo): real
    requires si.tickSize > 0.0
  {
    distance * (si.tickValue / si.tickSize)
  }

  /** Lots that lose exactly the amount over a distance. */
  function RawLots(riskAmount: real, distance: real, si: SymbolInfo): real
    requires si.tickSize > 0.0
  {
    Quotient(riskAmount, LotMoney(distance, si))
  }

  lemma PipsCancel(distance: real, pip: real, k: real, money: real)
    requires pip > 0.0 && distance > 0.0 && k > 0.0 && money == distance * k
    ensures distance / pip != 0.0 && k * pip != 0.0 && money > 0.0
    ensures (distance / pip) * (k * pip) == money
  {
    var d := distance / pip;
    assert d * pip == distance;
    assert d * (k * pip) == (d * pip) * k;
    Scaled(0.0, distance, k, 0.0, money);
  }

  /** The pip unit drops out of the formula. */
  lemma LotsFromDistance(riskAmount: real, entry: real, stop: real, si: SymbolInfo, maxLot: real, minLot: real)
    requires Tradable(si) && entry != stop
    ensures LotMoney(Abs(entry - stop), si) > 0.0
    ensures CalculateLotSize(riskAmount, entry, stop, si, maxLot, minLot)
            == Some(FromUnit(riskAmount, LotMoney(Abs(entry - stop), si), si, maxLot, minLot))
  {
    PipsCancel(Abs(entry - stop), Pip(si), si.tickValue / si.tickSize, LotMoney(Abs(entry - stop), si));
    assert PipMoney(entry, stop, si) == LotMoney(Abs(entry - stop), si);
  }

  lemma QuotientBound(lots: real, amount: real, unit: real, cost: real)
    requires unit > 0.0 && cost == lots * unit
    ensures cost <= amount <==> lots <= Quotient(amount, unit)
  {
    var raw := amount / unit;
    assert amount == raw * unit;
    Scaled(lots, raw, unit, cost, amount);
  }

  /** What the lots lose over a distance. */
  function Cost(lots: real, distance: real, si: SymbolInfo): real
    requires si.tickSize > 0.0
  {
    lots * LotMoney(distance, si)
  }

  lemma LotsFromUnit(amount: real, unit: real, si: SymbolInfo, maxLot: real, minLot: real, cost: real)
    requires unit > 0.0 && Tradable(si) && Cents(maxLot) && Cents(minLot)
    requires cost == FromUnit(amount, unit, si, maxLot, minLot).lots * unit
    ensures FromUnit(amount, unit, si, maxLot, minLot).lots >= minLot
    ensures cost <= amount <==> minLot <= Quotient(amount, unit)
  {
    var raw := Quotient(amount, unit);
    NormalisedLots(raw, si.lotStep, minLot, Min(maxLot, si.lotMax));
    QuotientBound(FromUnit(amount, unit, si, maxLot, minLot).lots, amount, unit, cost);
  }

  /** What sizing over a distance is to give. */
  ghost predicate RespectsTheMoney(amount: real, distance: real, si: SymbolInfo, minLot: real, lots: real)
    requires si.tickSize > 0.0
  {
    lots >= minLot && (Cost(lots, distance, si) <= amount <==> minLot <= RawLots(amount, distance, si))
  }

  lemma LotsOverDistance(amount: real, distance: real, si: SymbolInfo, maxLot: real, minLot: real)
    requires Tradable(si) && LotMoney(distance, si) > 0.0 && Cents(maxLot) && Cents(minLot)
    ensures RespectsTheMoney(amount, distance, si, minLot,
                             FromUnit(amount, LotMoney(distance, si), si, maxLot, minLot).lots)
  {
    var unit := LotMoney(distance, si);
    var lots := FromUnit(amount, unit, si, maxLot, minLot).lots;
    LotsFromUnit(amount, unit, si, maxLot, minLot, lots * unit);
  }

  /** The lots respect the money at risk exactly when the minimum lot does. */
  lemma LotsAreBounded(riskAmount: real, entry: real, stop: real, si: SymbolInfo, maxLot: real, minLot: real)
    requires Tradable(si) && entry != stop && Cents(maxLot) && Cents(minLot)
    ensures CalculateLotSize(riskAmount, entry, stop, si, maxLot, minLot).Some?
    ensures
      var lots := CalculateLotSize(riskAmount, entry, stop, si, maxLot, minLot).value.lots;
      RespectsTheMoney(riskAmount, Abs(entry - stop), si, minLot, lots)
  {
    LotsFromDistance(riskAmount, entry, stop, si, maxLot, minLot);
    LotsOverDistance(riskAmount, Abs(entry - stop), si, maxLot, minLot);
  }

  /** A pip is ten points where prices carry an extra digit, and one point otherwise. */
  lemma PipsInPoints(point: real)
    ensures PipSize(point, 5) == 10.0 * point == PipSize(point, 3)
    ensures forall digits :: digits != 5 && digits != 3 ==> PipSize(point, digits) == point
  {
  }

  /** Without a distance to the stop, or without the money value of a tick, the minimum lot is
      taken; a symbol without points, or otherwise without a lot step, cannot be sized. */
  lemma DegenerateSymbols(amount: real, entry: real, stop: real, si: SymbolInfo, maxLot: real, minLot: real)
    ensures si.point == 0.0 ==> CalculateLotSize(amount, entry, stop, si, maxLot, minLot) == None
    ensures si.point != 0.0 && (entry == stop || si.tickSize == 0.0 || si.tickValue == 0.0) ==>
              CalculateLotSize(amount, entry, stop, si, maxLot, minLot) == Some(LotCalc(minLot, amount))
    ensures si.point > 0.0 && entry != stop && si.tickSize > 0.0 && si.tickValue > 0.0 && si.lotStep <= 0.0 ==>
              CalculateLotSize(amount, entry, stop, si, maxLot, minLot) == None
  {
    if si.point > 0.0 && entry != stop && si.tickSize > 0.0 && si.tickValue > 0.0 {
      RatioIsPositive(Abs(entry - stop), Pip(si));
      RatioIsPositive(si.tickValue, si.tickSize);
      Scaled(0.0, si.tickValue / si.tickSize, Pip(si), 0.0, PipValue(si));
    }
  }

  lemma RatioIsPositive(a: real, b: real)
    requires a > 0.0 && b > 0.0
    ensures a / b > 0.0
  {
    assert (a / b) * b == a;
  }

  /** More lots would be too many: one more step passes the money or one of the limits. */
  ghost predicate OneMoreIsTooMany(amount: real, distance: real, si: SymbolInfo, maxLot: real, lots: real)
    requires si.tickSize > 0.0
  {
    var more := lots + si.lotStep;
    more > maxLot || more > si.lotMax || Cost(more, distance, si) > amount
  }

  /** The lots are whole steps, unless one of the three limits decides. */
  ghost predicate WholeOrLimit(si: SymbolInfo, maxLot: real, minLot: real, lots: real)
  {
    lots == minLot || lots == maxLot || lots == si.lotMax || exists n: int :: lots == Steps(n, si.lotStep)
  }

  lemma MoreThanWished(raw: real, si: SymbolInfo, maxLot: real, minLot: real, lots: real)
    requires Tradable(si) && Cents(maxLot) && Cents(minLot)
    requires lots == NormaliseLots(raw, si.lotStep, minLot, Min(maxLot, si.lotMax))
    ensures (lots == minLot || (lots <= maxLot && lots <= si.lotMax)) && WholeOrLimit(si, maxLot, minLot, lots)
    ensures lots + si.lotStep > maxLot || lots + si.lotStep > si.lotMax || lots + si.lotStep > raw
  {
    NormalisedLots(raw, si.lotStep, minLot, Min(maxLot, si.lotMax));
  }

  lemma MoreFromUnit(amount: real, unit: real, si: SymbolInfo, maxLot: real, minLot: real, moreCost: real)
    requires unit > 0.0 && Tradable(si) && Cents(maxLot) && Cents(minLot)
    requires moreCost == (FromUnit(amount, unit, si, maxLot, minLot).lots + si.lotStep) * unit
    ensures
      var lots := FromUnit(amount, unit, si, maxLot, minLot).lots;
      && (lots == minLot || (lots <= maxLot && lots <= si.lotMax))
      && WholeOrLimit(si, maxLot, minLot, lots)
      && (lots + si.lotStep > maxLot || lots + si.lotStep > si.lotMax || moreCost > amount)
  {
    var raw, lots := Quotient(amount, unit), FromUnit(amount, unit, si, maxLot, minLot).lots;
    QuotientBound(lots + si.lotStep, amount, unit, moreCost);
    MoreThanWished(raw, si, maxLot, minLot, lots);
  }

  lemma MoreOverDistance(amount: real, distance: real, si: SymbolInfo, maxLot: real, minLot: real)
    requires Tradable(si) && LotMoney(distance, si) > 0.0 && Cents(maxLot) && Cents(minLot)
    ensures
      var lots := FromUnit(amount, LotMoney(distance, si), si, maxLot, minLot).lots;
      && (lots == minLot || (lots <= maxLot && lots <= si.lotMax))
      && WholeOrLimit(si, maxLot, minLot, lots) && OneMoreIsTooMany(amount, distance, si, maxLot, lots)
  {
    var unit := LotMoney(distance, si);
    MoreFromUnit(amount, unit, si, maxLot, minLot,
                 (FromUnit(amount, unit, si, maxLot, minLot).lots + si.lotStep) * unit);
  }

  /** The lots are the largest there can be: within the configured and the broker's maximum,
      unless the minimum lot passes them, and one step more would pass a limit or the money. */
  lemma LotsAreTheLargest(riskAmount: real, entry: real, stop: real, si: SymbolInfo, maxLot: real, minLot: real)
    requires Tradable(si) && entry != stop && Cents(maxLot) && Cents(minLot)
    ensures CalculateLotSize(riskAmount, entry, stop, si, maxLot, minLot).Some?
    ensures
      var lots := CalculateLotSize(riskAmount, entry, stop, si, maxLot, minLot).value.lots;
      && (minLot <= maxLot && minLot <= si.lotMax ==> lots <= maxLot && lots <= si.lotMax)
      && (lots == minLot || (lots <= maxLot && lots <= si.lotMax))
      && WholeOrLimit(si, maxLot, minLot, lots)
      && OneMoreIsTooMany(riskAmount, Abs(entry - stop), si, maxLot, lots)
  {
    LotsFromDistance(riskAmount, entry, stop, si, maxLot, minLot);
    MoreOverDistance(riskAmount, Abs(entry - stop), si, maxLot, minLot);
  }

  // ------------------------------------------------------------- planning

  datatype Direction = Long | Short

  datatype Signal = Signal(direction: Direction, entry: real, stop: real, tp2: real)

  datatype Config = Config(spreadMultiplier: real, maxSlip: real, tp1Trigger: real, tp1Percentage: real,
                           maxLot: real, minLot: real)

  datatype Plan = Plan(direction: Direction, entry: real, stop: real, tp1: real, tp2: real, lots: real,
                       tp1Lots: real, riskAmount: real, multiplier: real)

  function Spread(si: SymbolInfo): real { if si.ask != 0.0 && si.bid != 0.0 then si.ask - si.bid else 0.0 }

  function Surcharge(c: Config, si: SymbolInfo): real { Spread(si) * c.spreadMultiplier }

  function SlipBand(c: Config, s: Signal): real { c.maxSlip * Abs(s.entry - s.stop) }

  function PessimisticEntry(c: Config, s: Signal): real
  {
    if s.direction == Short then s.entry - SlipBand(c, s) else s.entry + SlipBand(c, s)
  }

  function SizingDistance(c: Config, s: Signal, si: SymbolInfo): real
  {
    Abs(PessimisticEntry(c, s) - s.stop) + Surcharge(c, si)
  }

  function SizingStop(c: Config, s: Signal, si: SymbolInfo): real
  {
    if s.direction == Long then s.entry - SizingDistance(c, s, si) else s.entry + SizingDistance(c, s, si)
  }

  function Tp1Offset(c: Config, s: Signal): real { (c.tp1Trigger / 100.0) * Abs(s.tp2 - s.entry) }

  function Tp1Level(c: Config, s: Signal): real
  {
    if s.direction == Long then s.entry + Tp1Offset(c, s) else s.entry - Tp1Offset(c, s)
  }

  /** The configured share of a position. */
  function Tp1Wish(c: Config, lots: real): real { lots * (c.tp1Percentage / 100.0) }

  function Tp1Lots(c: Config, lots: real, volumeStep: real): real
    requires volumeStep >= 0.0
  {
    var step := if volumeStep == 0.0 then 0.01 else volumeStep;
    if c.tp1Percentage > 0.0 && 0.0 < c.tp1Trigger < 100.0 then Tp1Share(lots, Tp1Wish(c, lots), step) else 0.0
  }

  /** The wish in whole steps: none if that is less than a step, and not the whole position. */
  function Tp1Share(lots: real, wish: real, step: real): real
    requires step > 0.0
  {
    var share := Round2(Stepped(wish, step));
    if share < step then 0.0
    else if share >= lots then Round2(Stepped(lots - step, step))
    else share
  }

  function Amount(baseRisk: real, multiplier: real): real { baseRisk * Clamp(multiplier) }

  function MakePlan(c: Config, s: Signal, si: SymbolInfo, baseRisk: real, multiplier: real): Option<Plan>
    requires si.volumeStep >= 0.0
  {
    var sized := CalculateLotSize(Amount(baseRisk, multiplier), s.entry, SizingStop(c, s, si), si, c.maxLot, c.minLot);
    if sized.None? then None
    else Some(Plan(s.direction, s.entry, s.stop, Tp1Level(c, s), s.tp2, sized.value.lots,
                   Tp1Lots(c, sized.value.lots, si.volumeStep), sized.value.riskAmount, Clamp(multiplier)))
  }

  // ------------------------------------------------------------- laws

  ghost predicate Sane(c: Config, s: Signal, si: SymbolInfo)
  {
    && Tradable(si) && si.volumeStep >= 0.0 && si.ask >= si.bid
    && c.spreadMultiplier >= 0.0 && c.maxSlip >= 0.0
    && Cents(c.maxLot) && Cents(c.minLot)
    && (if s.direction == Long then s.stop < s.entry else s.entry < s.stop)
  }

  /** What one lot loses, in price, from a fill down to the planned stop. */
  function Loss(d: Direction, fill: real, stop: real): real { if d == Long then fill - stop else stop - fill }

  function Slip(d: Direction, fill: real, entry: real): real { if d == Long then fill - entry else entry - fill }

  lemma SizingCoversTheBand(c: Config, s: Signal, si: SymbolInfo, fill: real)
    requires Sane(c, s, si)
    ensures Surcharge(c, si) >= 0.0 && SizingDistance(c, s, si) > 0.0
    ensures Abs(s.entry - SizingStop(c, s, si)) == SizingDistance(c, s, si)
    ensures Slip(s.direction, fill, s.entry) <= SlipBand(c, s)
            ==> Loss(s.direction, fill, s.stop) + Surcharge(c, si) <= SizingDistance(c, s, si)
  {
    assert Spread(si) * c.spreadMultiplier >= 0.0;
    assert c.maxSlip * Abs(s.entry - s.stop) >= 0.0;
  }

  /** The sized position respects the money at risk exactly when the configured
      minimum lot does. */
  lemma SizedRiskIsBounded(c: Config, s: Signal, si: SymbolInfo, baseRisk: real, multiplier: real)
    requires Sane(c, s, si)
    ensures MakePlan(c, s, si, baseRisk, multiplier).Some?
    ensures
      var p := MakePlan(c, s, si, baseRisk, multiplier).value;
      && p.riskAmount == Amount(baseRisk, multiplier) && p.lots >= c.minLot
      && (Cost(p.lots, SizingDistance(c, s, si), si) <= p.riskAmount
          <==> c.minLot <= RawLots(p.riskAmount, SizingDistance(c, s, si), si))
  {
    var amount := Amount(baseRisk, multiplier);
    SizingCoversTheBand(c, s, si, s.entry);
    LotsAreBounded(amount, s.entry, SizingStop(c, s, si), si, c.maxLot, c.minLot);
  }

  /** And so is the position of every plan: it is the largest one the money covers at the
      sizing distance, within both limits. */
  lemma PlansAreTheLargest(c: Config, s: Signal, si: SymbolInfo, baseRisk: real, multiplier: real)
    requires Sane(c, s, si)
    ensures MakePlan(c, s, si, baseRisk, multiplier).Some?
    ensures
      var p := MakePlan(c, s, si, baseRisk, multiplier).value;
      && (c.minLot <= c.maxLot && c.minLot <= si.lotMax ==> p.lots <= c.maxLot && p.lots <= si.lotMax)
      && WholeOrLimit(si, c.maxLot, c.minLot, p.lots)
      && OneMoreIsTooMany(p.riskAmount, SizingDistance(c, s, si), si, c.maxLot, p.lots)
  {
    SizingCoversTheBand(c, s, si, s.entry);
    LotsAreTheLargest(Amount(baseRisk, multiplier), s.entry, SizingStop(c, s, si), si, c.maxLot, c.minLot);
  }

  /** The distance a plan is sized over: the stop distance, the slippage allowed on top, and
      the spread with its multiplier where both quotes are known. */
  lemma SizingDistanceIs(c: Config, s: Signal, si: SymbolInfo)
    requires Sane(c, s, si)
    ensures SizingDistance(c, s, si)
         == Abs(s.entry - s.stop) + c.maxSlip * Abs(s.entry - s.stop)
            + if si.ask == 0.0 || si.bid == 0.0 then 0.0 else (si.ask - si.bid) * c.spreadMultiplier
  {
    assert c.maxSlip * Abs(s.entry - s.stop) >= 0.0;
  }

  /** What a plan carries over from the signal, and its money: the base risk, scaled by a
      multiplier between nothing and the whole. */
  lemma PlanIsOfTheSignal(c: Config, s: Signal, si: SymbolInfo, baseRisk: real, multiplier: real)
    requires si.volumeStep >= 0.0 && MakePlan(c, s, si, baseRisk, multiplier).Some?
    ensures
      var p := MakePlan(c, s, si, baseRisk, multiplier).value;
      && p.direction == s.direction && p.entry == s.entry && p.stop == s.stop && p.tp2 == s.tp2
      && (0.0 <= multiplier <= 1.0 ==> p.multiplier == multiplier && p.riskAmount == baseRisk * multiplier)
      && (multiplier > 1.0 ==> p.multiplier == 1.0 && p.riskAmount == baseRisk)
      && (multiplier < 0.0 ==> p.multiplier == 0.0 && p.riskAmount == 0.0)
      && p.tp1Lots == Tp1Lots(c, p.lots, si.volumeStep) && p.tp1 == Tp1Level(c, s)
  {
  }

  lemma CostGrows(lots: real, small: real, big: real, si: SymbolInfo)
    requires lots >= 0.0 && si.tickSize > 0.0 && si.tickValue > 0.0 && small <= big
    ensures Cost(lots, small, si) <= Cost(lots, big, si)
  {
    var k := si.tickValue / si.tickSize;
    Scaled(small, big, k, LotMoney(small, si), LotMoney(big, si));
    if lots > 0.0 {
      Scaled(LotMoney(small, si), LotMoney(big, si), lots, Cost(lots, small, si), Cost(lots, big, si));
    }
  }

  /** For every fill inside the allowed slippage band, stop and spread together cost
      at most the planned amount. */
  lemma EveryAcceptedFillIsCovered(c: Config, s: Signal, si: SymbolInfo, baseRisk: real, multiplier: real, fill: real)
    requires Sane(c, s, si) && c.minLot >= 0.0
    requires Slip(s.direction, fill, s.entry) <= SlipBand(c, s)
    requires c.minLot <= RawLots(Amount(baseRisk, multiplier), SizingDistance(c, s, si), si)
    ensures MakePlan(c, s, si, baseRisk, multiplier).Some?
    ensures
      var p := MakePlan(c, s, si, baseRisk, multiplier).value;
      Cost(p.lots, Loss(s.direction, fill, s.stop) + Surcharge(c, si), si) <= p.riskAmount
  {
    SizedRiskIsBounded(c, s, si, baseRisk, multiplier);
    SizingCoversTheBand(c, s, si, fill);
    var p := MakePlan(c, s, si, baseRisk, multiplier).value;
    CostGrows(p.lots, Loss(s.direction, fill, s.stop) + Surcharge(c, si), SizingDistance(c, s, si), si);
  }

  /** TP1 lies strictly between entry and TP2, on either side of the market. */
  lemma Tp1StrictlyBetween(c: Config, s: Signal)
    requires 0.0 < c.tp1Trigger < 100.0
    requires if s.direction == Long then s.entry < s.tp2 else s.tp2 < s.entry
    ensures if s.direction == Long then s.entry < Tp1Level(c, s) < s.tp2 else s.tp2 < Tp1Level(c, s) < s.entry
  {
    var f, range := c.tp1Trigger / 100.0, Abs(s.tp2 - s.entry);
    Scaled(0.0, f, range, 0.0, Tp1Offset(c, s));
    Scaled(f, 1.0, range, Tp1Offset(c, s), range);
  }

  /** And exactly the configured part of the way from entry to TP2. */
  lemma Tp1PartOfTheWay(c: Config, s: Signal)
    requires if s.direction == Long then s.entry < s.tp2 else s.tp2 < s.entry
    ensures (Tp1Level(c, s) - s.entry) * 100.0 == (s.tp2 - s.entry) * c.tp1Trigger
  {
    var range := Abs(s.tp2 - s.entry);
    assert Tp1Offset(c, s) * 100.0 == c.tp1Trigger * range;
    if s.direction == Short {
      assert (-range) * c.tp1Trigger == -(c.tp1Trigger * range);
    }
  }

  /** For a volume step in hundredths the TP1 lots are a step multiple, leave part of
      the position open, and never exceed the configured share of it. */
  lemma CentStepsLeaveARest(c: Config, lots: real, volumeStep: real)
    requires volumeStep >= 0.0 && Cents(volumeStep) && lots > 0.0 && c.tp1Percentage <= 100.0
    ensures
      var step := if volumeStep == 0.0 then 0.01 else volumeStep;
      var r := Tp1Lots(c, lots, volumeStep);
      && 0.0 <= r < lots
      && (exists n: int :: r == Steps(n, step))
      && (c.tp1Percentage > 0.0 ==> r <= Tp1Wish(c, lots))
  {
    var step := if volumeStep == 0.0 then 0.01 else volumeStep;
    assert Cents(0.01);
    assert 0.0 == Steps(0, step);
    if c.tp1Percentage > 0.0 {
      var f, wish := c.tp1Percentage / 100.0, Tp1Wish(c, lots);
      Scaled(0.0, f, lots, 0.0, wish);
      Scaled(f, 1.0, lots, wish, lots);
      ShareLeavesARest(lots, wish, step);
    }
  }

  /** Which step multiple: the largest one within the configured share, if that is a step at
      least and leaves a rest; a step less than the position, in whole steps, if the share
      is all of it; and none at all without a share or a trigger short of TP2. */
  lemma Tp1LotsAreTheShare(c: Config, lots: real, volumeStep: real)
    requires volumeStep >= 0.0 && Cents(volumeStep) && lots > 0.0 && c.tp1Percentage <= 100.0
    ensures
      var step := if volumeStep == 0.0 then 0.01 else volumeStep;
      var r := Tp1Lots(c, lots, volumeStep);
      if c.tp1Percentage <= 0.0 || c.tp1Trigger <= 0.0 || c.tp1Trigger >= 100.0 || Tp1Wish(c, lots) < step then r == 0.0
      else if c.tp1Percentage < 100.0 then r <= Tp1Wish(c, lots) < r + step
      else r <= lots - step < r + step || r <= lots < r + step
  {
    var step := if volumeStep == 0.0 then 0.01 else volumeStep;
    assert Cents(0.01);
    if c.tp1Percentage > 0.0 {
      WishIsAShare(c.tp1Percentage, lots, Tp1Wish(c, lots));
      ShareIsTheLargest(lots, Tp1Wish(c, lots), step);
    }
  }

  lemma WishIsAShare(percentage: real, lots: real, wish: real)
    requires 0.0 < percentage <= 100.0 && lots > 0.0 && wish == lots * (percentage / 100.0)
    ensures 0.0 < wish <= lots && (percentage < 100.0 ==> wish < lots)
  {
    var f := percentage / 100.0;
    Scaled(0.0, f, lots, 0.0, wish);
    Scaled(f, 1.0, lots, wish, lots);
  }

  lemma ShareIsTheLargest(lots: real, wish: real, step: real)
    requires step > 0.0 && Cents(step) && 0.0 < wish <= lots
    ensures
      var r := Tp1Share(lots, wish, step);
      && (wish < step ==> r == 0.0)
      && (step <= wish < lots ==> r <= wish < r + step)
      && (step <= wish == lots ==> r <= lots - step < r + step || r <= lots < r + step)
  {
    var share, rest := Stepped(wish, step), Stepped(lots - step, step);
    SharesBounds(lots, wish, step, share, rest);
    Tp1ShareIs(lots, wish, step, share, rest);
  }

  lemma Tp1ShareIs(lots: real, wish: real, step: real, share: real, rest: real)
    requires step > 0.0 && share == Round2(Stepped(wish, step)) && rest == Round2(Stepped(lots - step, step))
    ensures Tp1Share(lots, wish, step) == if share < step then 0.0 else if share >= lots then rest else share
  {
  }

  lemma SharesBounds(lots: real, wish: real, step: real, share: real, rest: real)
    requires step > 0.0 && Cents(step) && 0.0 < wish <= lots
    requires share == Stepped(wish, step) && rest == Stepped(lots - step, step)
    ensures Round2(share) == share && Round2(rest) == rest
    ensures share <= wish < share + step && rest <= lots - step < rest + step
    ensures wish >= step ==> share >= step
  {
    ShareLeavesARest(lots, wish, step);
    SteppedIsBelow(wish, step);
    SteppedIsBelow(lots - step, step);
    if wish >= step {
      OneStepFits(wish, step);
    }
  }

  /** Whoever wishes for a step gets one. */
  lemma OneStepFits(wish: real, step: real)
    requires step > 0.0 && wish >= step
    ensures Stepped(wish, step) >= step
  {
    var q := wish / step;
    assert q * step == wish;
    Scaled(1.0, q, step, step, wish);
    Scaled(1.0, StepsIn(wish, step) as real, step, step, Stepped(wish, step));
  }

  /** Both cases of the TP1 share, on plain numbers. */
  lemma ShareLeavesARest(lots: real, wish: real, step: real)
    requires step > 0.0 && Cents(step) && 0.0 < wish <= lots
    ensures
      var share, rest := Stepped(wish, step), Stepped(lots - step, step);
      && Round2(share) == share == Steps(StepsIn(wish, step), step) && 0.0 <= share <= wish
      && Round2(rest) == rest == Steps(StepsIn(lots - step, step), step) && rest <= lots - step
      && (share >= step ==> 0.0 <= rest)
  {
    SteppedIsBelow(wish, step);
    SteppedIsCents(wish, step);
    CentsRoundToThemselves(Stepped(wish, step));
    SteppedIsBelow(lots - step, step);
    SteppedIsCents(lots - step, step);
    CentsRoundToThemselves(Stepped(lots - step, step));
  }
}
