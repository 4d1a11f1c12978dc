/** The rule chain: each rule maps a context to a verdict plus data; the engine stops
    at the first rejection and composes the two multipliers afterwards. */
module RiskEngine {
  import opened Sums
  import ClusterRisk
  import Sizing

  datatype Side = Buy | Sell

  datatype Signal = Signal(id: string, symbol: string, resolved: string, side: Side, stopLoss: real, tp2: real)

  datatype OpenTrade = OpenTrade(signalId: string, symbol: string, side: Side)

  datatype Quote = Quote(ask: real, bid: real, point: real, digits: int)

  datatype Config = Config(maxLosingStreak: int, maxDailyLossPct: real, maxPerSymbol: int,
                           minRr: real, spreadThreshold: real, noHedging: bool)

  datatype Context = Context(
    signal: Signal, open: seq<OpenTrade>, config: Config, dailyLossPct: real,
    effectiveOpen: int, effectiveSymbol: int, quote: Option<Quote>,
    dataFresh: bool, paused: bool,
    cluster: Option<ClusterRisk.Verdict>, throttle: real)

  /** The entries of a rule's data that the engine reads. */
  datatype Data = Data(multiplier: Option<real>, plannedR: Option<real>, throttle: Option<real>)

  const NOTHING := Data(None, None, None)

  datatype Result = Reject | Approve(data: Data)

  type Rule = Context -> Result

  function Verdict(ok: bool): Result { if ok then Approve(NOTHING) else Reject }

  function LossGuardRule(c: Context): Result { Verdict(c.dataFresh && !c.paused) }

  function ClusterRule(c: Context): Result
  {
    match c.cluster
    case None => Approve(Data(Some(1.0), Some(1.0), None))
    case Some(Approved(planned)) => Approve(Data(Some(planned), Some(planned), None))
    case Some(_) => Reject
  }

  function ThrottleRule(c: Context): Result
  {
    if c.throttle < 1.0 then Approve(Data(None, None, Some(c.throttle))) else Approve(NOTHING)
  }

  function Opposite(side: Side): Side { if side == Buy then Sell else Buy }

  function NoHedgingRule(c: Context): Result
  {
    Verdict(!c.config.noHedging
            || forall t :: t in c.open ==> !(t.symbol == c.signal.symbol && t.side == Opposite(c.signal.side)))
  }

  function Slots(config: Config): int { if config.maxLosingStreak < 1 then 1 else config.maxLosingStreak }

  function MaxOpenRule(c: Context): Result { Verdict(c.effectiveOpen < Slots(c.config)) }

  function MaxSymbolRule(c: Context): Result { Verdict(c.effectiveSymbol < c.config.maxPerSymbol) }

  function DuplicateRule(c: Context): Result
  {
    Verdict(forall t :: t in c.open ==> t.signalId != c.signal.id || t.signalId == "unknown")
  }

  function DailyLossRule(c: Context): Result
  {
    var budget := c.config.maxDailyLossPct;
    var safety := budget * 0.95;
    Verdict(c.dailyLossPct < safety && c.dailyLossPct + budget / Slots(c.config) as real <= safety)
  }

  function FillPrice(q: Quote, side: Side): real { if side == Buy then q.ask else q.bid }

  function Usable(q: Option<Quote>): bool
  {
    q.Some? && q.value.ask > 0.0 && q.value.bid > 0.0 && Sizing.PipSize(q.value.point, q.value.digits) > 0.0
  }

  /** Directional distances to stop and target, from the live fill price. */
  function RiskDistance(s: Signal, fill: real): real { if s.side == Buy then fill - s.stopLoss else s.stopLoss - fill }

  function RewardDistance(s: Signal, fill: real): real { if s.side == Buy then s.tp2 - fill else fill - s.tp2 }

  function MinRrRule(c: Context): Result
  {
    if !Usable(c.quote) then Reject
    else
      var fill := FillPrice(c.quote.value, c.signal.side);
      var pip := Sizing.PipSize(c.quote.value.point, c.quote.value.digits);
      if RiskDistance(c.signal, fill) <= 0.0 || RewardDistance(c.signal, fill) <= 0.0 then Reject
      else
        var slPips, tpPips := RiskDistance(c.signal, fill) / pip, RewardDistance(c.signal, fill) / pip;
        if slPips == 0.0 then Reject else Verdict(tpPips / slPips >= c.config.minRr)
  }

  function SpreadRule(c: Context): Result
  {
    if !Usable(c.quote) then Reject
    else
      var q := c.quote.value;
      var pip := Sizing.PipSize(q.point, q.digits);
      var spread := (q.ask - q.bid) / pip;
      var sl := Abs(FillPrice(q, c.signal.side) - c.signal.stopLoss) / pip;
      if spread < 0.0 || sl == 0.0 then Reject else Verdict(spread / sl <= c.config.spreadThreshold)
  }

  const ALL_RULES: seq<Rule> := [LossGuardRule, ClusterRule, ThrottleRule, NoHedgingRule, MaxOpenRule,
                                 MaxSymbolRule, DuplicateRule, DailyLossRule, MinRrRule, SpreadRule]

  // ------------------------------------------------------------------ engine

  function Update<T>(a: Option<T>, b: Option<T>): Option<T> { if b.Some? then b else a }

  function Merge(a: Data, b: Data): Data
  {
    Data(Update(a.multiplier, b.multiplier), Update(a.plannedR, b.plannedR), Update(a.throttle, b.throttle))
  }

  ghost predicate AllApprove(rules: seq<Rule>, c: Context)
  {
    forall k :: 0 <= k < |rules| ==> rules[k](c).Approve?
  }

  ghost function Gathered(rules: seq<Rule>, c: Context): Data
    requires AllApprove(rules, c)
  {
    if rules == [] then NOTHING
    else Merge(Gathered(rules[..|rules| - 1], c), rules[|rules| - 1](c).data)
  }

  function GetOr(o: Option<real>, default: real): real { if o.Some? then o.value else default }

  /** NotConfigured: evaluating without any rule is an error. */
  datatype Decision = NotConfigured | Rejected | Accepted(multiplier: real, plannedR: real)

  /** The throttle scales the cluster multiplier; it never replaces it. */
  function Compose(d: Data): Decision
  {
    var throttle := GetOr(d.throttle, 1.0);
    var multiplier := if throttle < 1.0 then GetOr(d.multiplier, 1.0) * throttle else GetOr(d.multiplier, 1.0);
    Accepted(multiplier, GetOr(d.plannedR, multiplier))
  }

  method Evaluate(rules: seq<Rule>, c: Context) returns (decision: Decision)
    ensures decision.NotConfigured? <==> rules == []
    ensures decision.Rejected? <==> rules != [] && !AllApprove(rules, c)
    ensures decision.Accepted? ==> decision == Compose(Gathered(rules, c))
  {
    if rules == [] {
      return NotConfigured;
    }
    var data := NOTHING;
    for k := 0 to |rules|
      invariant AllApprove(rules[..k], c)
      invariant data == Gathered(rules[..k], c)
    {
      var result := rules[k](c);
      if result.Reject? {
        return Rejected;
      }
      assert rules[..k + 1][..k] == rules[..k];
      data := Merge(data, result.data);
    }
    assert rules[..|rules|] == rules;
    return Compose(data);
  }

  // -------------------------------------------------------------------- laws

  ghost predicate WellFormed(c: Context)
  {
    && 0.0 < c.throttle <= 1.0
    && c.config.maxDailyLossPct > 0.0
    && (c.cluster.Some? && c.cluster.value.Approved? ==> c.cluster.value.planned > 0.0)
  }

  lemma AllRulesApprove(c: Context)
    requires AllApprove(ALL_RULES, c)
    ensures LossGuardRule(c).Approve? && ClusterRule(c).Approve? && NoHedgingRule(c).Approve?
    ensures MaxOpenRule(c).Approve? && MaxSymbolRule(c).Approve? && DuplicateRule(c).Approve?
    ensures DailyLossRule(c).Approve? && MinRrRule(c).Approve? && SpreadRule(c).Approve?
  {
    assert ALL_RULES[0](c).Approve? && ALL_RULES[1](c).Approve? && ALL_RULES[3](c).Approve?;
    assert ALL_RULES[4](c).Approve? && ALL_RULES[5](c).Approve? && ALL_RULES[6](c).Approve?;
    assert ALL_RULES[7](c).Approve? && ALL_RULES[8](c).Approve? && ALL_RULES[9](c).Approve?;
  }

  /** Pips drop out of a ratio of distances. */
  lemma PipRatio(x: real, y: real, pip: real, bound: real, least: real)
    requires pip > 0.0 && y > 0.0 && least == bound * y
    ensures y / pip > 0.0
    ensures (x / pip) / (y / pip) >= bound <==> x >= least
    ensures (x / pip) / (y / pip) <= bound <==> x <= least
  {
    var a, b := x / pip, y / pip;
    assert a * pip == x && b * pip == y;
    Scaled(0.0, b, pip, 0.0, y);
    var q := a / b;
    assert q * b == a;
    assert q * y == (q * b) * pip;
    Scaled(bound, q, y, least, x);
    Scaled(q, bound, y, x, least);
  }

  /** At the live price, the ask for a buy and the bid for a sell, stop and target lie on their
      sides, the target far enough out, and the spread is a small enough part of the distance
      to the stop. */
  ghost predicate GoodQuote(c: Context, q: Quote)
  {
    var risk := if c.signal.side == Buy then q.ask - c.signal.stopLoss else c.signal.stopLoss - q.bid;
    var reward := if c.signal.side == Buy then c.signal.tp2 - q.ask else q.bid - c.signal.tp2;
    && q.ask > 0.0 && q.bid > 0.0 && q.point > 0.0
    && risk > 0.0 && reward > 0.0 && reward >= c.config.minRr * risk
    && 0.0 <= q.ask - q.bid <= c.config.spreadThreshold * risk
  }

  lemma MinRrIsExact(c: Context, risk: real, reward: real)
    requires Usable(c.quote)
    requires risk == RiskDistance(c.signal, FillPrice(c.quote.value, c.signal.side))
    requires reward == RewardDistance(c.signal, FillPrice(c.quote.value, c.signal.side))
    ensures MinRrRule(c).Approve? <==> risk > 0.0 && reward > 0.0 && reward >= c.config.minRr * risk
  {
    if risk > 0.0 && reward > 0.0 {
      PipRatio(reward, risk, Sizing.PipSize(c.quote.value.point, c.quote.value.digits),
               c.config.minRr, c.config.minRr * risk);
    }
  }

  lemma SpreadIsExact(c: Context, risk: real)
    requires Usable(c.quote) && risk == RiskDistance(c.signal, FillPrice(c.quote.value, c.signal.side)) > 0.0
    ensures SpreadRule(c).Approve? <==>
              0.0 <= c.quote.value.ask - c.quote.value.bid <= c.config.spreadThreshold * risk
  {
    var q, pip := c.quote.value, Sizing.PipSize(c.quote.value.point, c.quote.value.digits);
    assert Abs(FillPrice(q, c.signal.side) - c.signal.stopLoss) == risk;
    PipRatio(q.ask - q.bid, risk, pip, c.config.spreadThreshold, c.config.spreadThreshold * risk);
    SignOverPip(q.ask - q.bid, pip);
  }

  /** The two quote rules together, both ways. */
  lemma QuoteRulesAreExact(c: Context)
    ensures MinRrRule(c).Approve? && SpreadRule(c).Approve? <==> c.quote.Some? && GoodQuote(c, c.quote.value)
  {
    if Usable(c.quote) {
      var fill := FillPrice(c.quote.value, c.signal.side);
      MinRrIsExact(c, RiskDistance(c.signal, fill), RewardDistance(c.signal, fill));
      if RiskDistance(c.signal, fill) > 0.0 {
        SpreadIsExact(c, RiskDistance(c.signal, fill));
      }
    }
  }

  lemma SignOverPip(x: real, pip: real)
    requires pip > 0.0
    ensures x / pip < 0.0 <==> x < 0.0
  {
    var q := x / pip;
    assert q * pip == x;
    Scaled(q, 0.0, pip, x, 0.0);
  }

  /** Fresh unpaused data, a group that takes the signal, no opposing trade on its symbol if
      hedging is off, room under both caps, no trade of the same signal, one more slot of the
      budget within 95% of the daily limit, and a good live quote. */
  ghost predicate Acceptable(c: Context)
  {
    && c.dataFresh && !c.paused && (c.cluster.None? || c.cluster.value.Approved?)
    && (c.config.noHedging ==> forall t :: t in c.open && t.symbol == c.signal.symbol ==> t.side == c.signal.side)
    && (c.effectiveOpen < c.config.maxLosingStreak || c.effectiveOpen < 1) && c.effectiveSymbol < c.config.maxPerSymbol
    && (forall t :: t in c.open && t.signalId == c.signal.id ==> t.signalId == "unknown")
    && c.dailyLossPct < c.config.maxDailyLossPct * 0.95
    && c.dailyLossPct + OneSlot(c.config) <= c.config.maxDailyLossPct * 0.95
    && c.quote.Some? && GoodQuote(c, c.quote.value)
  }

  /** One trade's part of the daily limit, which is split among the losing trades allowed. */
  ghost function OneSlot(config: Config): real
  {
    if config.maxLosingStreak <= 1 then config.maxDailyLossPct
    else config.maxDailyLossPct / config.maxLosingStreak as real
  }

  /** The full chain accepts exactly the acceptable: no rule lets anything else pass, and none
      refuses more. */
  lemma AcceptanceIsExact(c: Context)
    ensures AllApprove(ALL_RULES, c) <==> Acceptable(c)
  {
    QuoteRulesAreExact(c);
    EachRuleIsExact(c);
    if Acceptable(c) {
      AllOfThemApprove(c);
    } else if AllApprove(ALL_RULES, c) {
      AllRulesApprove(c);
    }
  }

  lemma EachRuleIsExact(c: Context)
    ensures LossGuardRule(c).Approve? <==> c.dataFresh && !c.paused
    ensures ClusterRule(c).Approve? <==> c.cluster.None? || c.cluster.value.Approved?
    ensures ThrottleRule(c).Approve?
    ensures NoHedgingRule(c).Approve? <==>
      (c.config.noHedging ==> forall t :: t in c.open && t.symbol == c.signal.symbol ==> t.side == c.signal.side)
    ensures MaxOpenRule(c).Approve? <==> c.effectiveOpen < c.config.maxLosingStreak || c.effectiveOpen < 1
    ensures MaxSymbolRule(c).Approve? <==> c.effectiveSymbol < c.config.maxPerSymbol
    ensures DuplicateRule(c).Approve? <==>
      forall t :: t in c.open && t.signalId == c.signal.id ==> t.signalId == "unknown"
    ensures DailyLossRule(c).Approve? <==>
      && c.dailyLossPct < c.config.maxDailyLossPct * 0.95
      && c.dailyLossPct + OneSlot(c.config) <= c.config.maxDailyLossPct * 0.95
  {
  }

  lemma AllOfThemApprove(c: Context)
    requires LossGuardRule(c).Approve? && ClusterRule(c).Approve? && NoHedgingRule(c).Approve?
    requires MaxOpenRule(c).Approve? && MaxSymbolRule(c).Approve? && DuplicateRule(c).Approve?
    requires DailyLossRule(c).Approve? && MinRrRule(c).Approve? && SpreadRule(c).Approve?
    ensures AllApprove(ALL_RULES, c)
  {
    assert ThrottleRule(c).Approve?;
    forall k | 0 <= k < |ALL_RULES| ensures ALL_RULES[k](c).Approve? {
      assert k == 0 || k == 1 || k == 2 || k == 3 || k == 4 || k == 5 || k == 6 || k == 7 || k == 8 || k == 9;
    }
  }

  /** What acceptance guarantees, with the budget in slots. */
  lemma AcceptanceGuards(c: Context)
    requires AllApprove(ALL_RULES, c)
    ensures c.dataFresh && !c.paused
    ensures c.effectiveOpen < Slots(c.config) && c.effectiveSymbol < c.config.maxPerSymbol
    ensures c.dailyLossPct + c.config.maxDailyLossPct / Slots(c.config) as real <= c.config.maxDailyLossPct * 0.95
    ensures forall t :: t in c.open && t.signalId == c.signal.id ==> t.signalId == "unknown"
    ensures c.config.noHedging ==>
              forall t :: t in c.open && t.symbol == c.signal.symbol ==> t.side == c.signal.side
    ensures c.quote.Some? && GoodQuote(c, c.quote.value)
  {
    AcceptanceIsExact(c);
  }

  ghost function Reserved(c: Context): real
    requires c.cluster.Some? ==> c.cluster.value.Approved?
  {
    if c.cluster.Some? then c.cluster.value.planned else 1.0
  }

  /** At which size: the cluster's planned R times the throttle, hence never above the
      R that will be reserved. */
  lemma {:induction false} AcceptanceSizes(c: Context)
    requires WellFormed(c) && AllApprove(ALL_RULES, c)
    ensures c.cluster.Some? ==> c.cluster.value.Approved?
    ensures
      var d := Compose(Gathered(ALL_RULES, c));
      && d.plannedR == Reserved(c)
      && d.multiplier == Reserved(c) * c.throttle
      && 0.0 < d.multiplier <= d.plannedR
  {
    GatheredFromAll(c);
    ComposeScales(Reserved(c), c.throttle);
    assert Gathered(ALL_RULES, c) == Data(Some(Reserved(c)), Some(Reserved(c)),
                                          if c.throttle < 1.0 then Some(c.throttle) else None);
  }

  lemma ComposeScales(r: real, t: real)
    requires r > 0.0 && 0.0 < t <= 1.0
    ensures
      var d := Compose(Data(Some(r), Some(r), if t < 1.0 then Some(t) else None));
      d == Accepted(r * t, r) && 0.0 < r * t <= r
  {
    ScalingShrinks(r, t);
  }

  lemma ScalingShrinks(planned: real, throttle: real)
    requires planned > 0.0 && 0.0 < throttle <= 1.0
    ensures 0.0 < planned * throttle <= planned
  {
    assert planned * throttle > 0.0;
    assert planned * (1.0 - throttle) >= 0.0;
    assert planned * (1.0 - throttle) == planned - planned * throttle;
  }

  lemma {:induction false} FirstThreeGather(c: Context)
    requires AllApprove([LossGuardRule, ClusterRule, ThrottleRule], c)
    ensures ClusterRule(c).Approve? && ThrottleRule(c).Approve?
    ensures Gathered([LossGuardRule, ClusterRule, ThrottleRule], c)
            == Data(ClusterRule(c).data.multiplier, ClusterRule(c).data.plannedR, ThrottleRule(c).data.throttle)
  {
    var one: seq<Rule>, two: seq<Rule>, three: seq<Rule> :=
      [LossGuardRule], [LossGuardRule, ClusterRule], [LossGuardRule, ClusterRule, ThrottleRule];
    assert three[0](c).Approve? && three[1](c).Approve? && three[2](c).Approve?;
    assert one[..0] == [] && two[..1] == one && three[..2] == two;
    assert Gathered(one, c) == NOTHING;
    assert Gathered(two, c) == ClusterRule(c).data;
  }

  /** Only the cluster and the throttle rule contribute data. */
  lemma {:induction false} RestGathersNothing(k: nat, c: Context)
    requires 3 <= k <= |ALL_RULES| && AllApprove(ALL_RULES[..k], c)
    ensures ClusterRule(c).Approve? && ThrottleRule(c).Approve?
    ensures Gathered(ALL_RULES[..k], c)
            == Data(ClusterRule(c).data.multiplier, ClusterRule(c).data.plannedR, ThrottleRule(c).data.throttle)
  {
    var some := ALL_RULES[..k];
    if k > 3 {
      assert some[..k - 1] == ALL_RULES[..k - 1];
      assert AllApprove(ALL_RULES[..k - 1], c) by {
        assert forall j :: 0 <= j < k - 1 ==> ALL_RULES[..k - 1][j] == some[j];
      }
      RestGathersNothing(k - 1, c);
      assert some[k - 1](c).Approve?;
      assert some[k - 1](c).data == NOTHING;
    } else {
      assert some == [LossGuardRule, ClusterRule, ThrottleRule];
      FirstThreeGather(c);
    }
  }

  lemma {:induction false} GatheredFromAll(c: Context)
    requires AllApprove(ALL_RULES, c)
    ensures ClusterRule(c).Approve? && ThrottleRule(c).Approve?
    ensures Gathered(ALL_RULES, c)
            == Data(ClusterRule(c).data.multiplier, ClusterRule(c).data.plannedR, ThrottleRule(c).data.throttle)
  {
    assert ALL_RULES[1](c) == ClusterRule(c);
    assert ALL_RULES[..|ALL_RULES|] == ALL_RULES;
    RestGathersNothing(|ALL_RULES|, c);
  }

  /** On a day without any loss the budget projection lets a trade through exactly
      when the budget is split into at least two slots: with a single slot the 95%
      safety stop refuses every trade. */
  lemma OneSlotNeverTrades(c: Context)
    requires c.config.maxDailyLossPct > 0.0 && c.dailyLossPct == 0.0
    ensures DailyLossRule(c).Approve? <==> Slots(c.config) >= 2
  {
    var n, b := Slots(c.config), c.config.maxDailyLossPct;
    Share(b, n, b / n as real);
  }

  lemma Share(whole: real, n: int, share: real)
    requires whole > 0.0 && n >= 1 && share == whole / n as real
    ensures share > 0.0
    ensures if n == 1 then share == whole else share <= whole / 2.0
  {
    var m := n as real;
    assert share * m == whole;
    Scaled(0.0, share, m, 0.0, whole);
    if n >= 2 {
      assert m >= 2.0;
      assert 2.0 * share == share * 2.0;
      if m > 2.0 {
        Scaled(2.0, m, share, share * 2.0, whole);
      }
    }
  }
}
