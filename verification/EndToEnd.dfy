/** The parts joined: the rule chain is the admission step, the loss tracker's amount is the
    admission slot, and what the day can lose at its stops is within its budget. */
module EndToEnd {
  import opened Sums
  import opened Tally
  import Admission
  import AdmissionLaws
  import ClusterRisk
  import LossGuardLaws
  import LossGuards
  import OrderManager
  import RiskEngine
  import Sizing

  /** The loss tracker hands the planner exactly one slot of the day's budget. */
  lemma TrackerAmountIsASlot(c: LossGuards.Config, g: LossGuards.Guards, p: Admission.Params)
    requires c.limit == p.lossPct
    ensures LossGuards.DailyRisk(c, g, p.maxLosingStreak) == Admission.RiskPerTrade(p, g.startEquity)
  {
  }

  /** So the risk admission records for a plan is the money the planner sizes it with. */
  lemma PlannedRiskIsSized(c: LossGuards.Config, g: LossGuards.Guards, p: Admission.Params, multiplier: real)
    requires c.limit == p.lossPct
    ensures Admission.PlannedRisk(p, g.startEquity, multiplier)
         == Sizing.Amount(LossGuards.DailyRisk(c, g, p.maxLosingStreak), multiplier)
  {
    TrackerAmountIsASlot(c, g, p);
  }

  /** The circuit breaker reaches the chain: on a day the tracker has opened and on which any
      guard has fired, the rules refuse every signal, whatever else its context says. */
  lemma {:induction false} TrippedDayRejectsEverySignal(
    g: LossGuards.Config, run: seq<LossGuardLaws.Timed>, j: nat, k: nat, now: int, c: RiskEngine.Context)
    requires LossGuardLaws.InOrder(run) && j <= k < |run| && run[j].event.Daily? && now >= 0
    requires forall i :: j <= i < |run| ==> LossGuards.Today(g, run[i].at) == LossGuards.Today(g, now)
    requires
      var blank := LossGuards.State(LossGuards.BLANK, 0, false);
      LossGuardLaws.Trips(g, LossGuardLaws.Run(g, blank, run[..k]).guards, run[k].event)
    requires
      var s := LossGuardLaws.Run(g, LossGuards.State(LossGuards.BLANK, 0, false), run);
      c.dataFresh == LossGuards.Fresh(s, now) && c.paused == LossGuards.Paused(s.guards, now)
    ensures !RiskEngine.AllApprove(RiskEngine.ALL_RULES, c)
  {
    LossGuardLaws.OnceTrippedNothingPasses(g, run, j, k, now);
    assert RiskEngine.ALL_RULES[0](c) == RiskEngine.LossGuardRule(c);
  }

  /** The context a lock holder builds from what it has counted. */
  ghost predicate BuiltFrom(c: RiskEngine.Context, p: Admission.Params, s: Admission.State)
    requires s.lock.Counted?
  {
    && c.effectiveOpen == s.lock.open && c.effectiveSymbol == s.lock.symbolOpen
    && c.config.maxLosingStreak == p.maxLosingStreak && c.config.maxPerSymbol == p.symbolCap
    && c.config.maxDailyLossPct == p.lossPct && 0.0 < c.throttle <= 1.0
    && c.cluster == if p.InGroup(s.lock.symbol) then Some(ClusterRisk.Preview(p.group, s.cluster)) else None
  }

  lemma AcceptanceEnables(c: RiskEngine.Context, p: Admission.Params, s: Admission.State)
    requires p.Valid() && s.lock.Counted? && BuiltFrom(c, p, s)
    requires RiskEngine.AllApprove(RiskEngine.ALL_RULES, c)
    ensures c.cluster.Some? ==> c.cluster.value.Approved?
    ensures Admission.Enabled(p, s, Admission.Judge(1.0, c.throttle))
  {
    ClusterRisk.ApprovalFitsTheBudget(p.group, s.cluster);
    RiskEngine.AcceptanceGuards(c);
    RiskEngine.AcceptanceSizes(c);
  }

  /** Whatever the rule chain accepts, the admission step may take, with the same size and
      the same reservation; so the caps and budgets proved of the step hold of the chain. */
  lemma {:induction false} AcceptanceIsAJudgement(c: RiskEngine.Context, p: Admission.Params, s: Admission.State)
    requires p.Valid() && s.lock.Counted? && BuiltFrom(c, p, s)
    requires RiskEngine.AllApprove(RiskEngine.ALL_RULES, c)
    ensures
      var step := Admission.Judge(1.0, c.throttle);
      var d := RiskEngine.Compose(RiskEngine.Gathered(RiskEngine.ALL_RULES, c));
      && Admission.Enabled(p, s, step)
      && Admission.Apply(p, s, step).lock == Admission.Judged(s.lock.signalId, s.lock.symbol, d.multiplier, d.plannedR)
  {
    AcceptanceEnables(c, p, s);
    RiskEngine.AcceptanceSizes(c);
    ReservedIsApproved(c, p, s);
    JudgedLock(p, s, c.throttle, RiskEngine.Reserved(c), RiskEngine.Reserved(c) * c.throttle);
  }

  lemma ReservedIsApproved(c: RiskEngine.Context, p: Admission.Params, s: Admission.State)
    requires s.lock.Counted? && BuiltFrom(c, p, s) && (c.cluster.Some? ==> c.cluster.value.Approved?)
    ensures RiskEngine.Reserved(c) == Admission.ApprovedR(p, s, 1.0)
  {
  }

  lemma JudgedLock(p: Admission.Params, s: Admission.State, throttle: real, planned: real, multiplier: real)
    requires Admission.Enabled(p, s, Admission.Judge(1.0, throttle))
    requires planned == Admission.ApprovedR(p, s, 1.0) && multiplier == planned * throttle
    ensures Admission.Apply(p, s, Admission.Judge(1.0, throttle)).lock
         == Admission.Judged(s.lock.signalId, s.lock.symbol, multiplier, planned)
  {
    assert throttle == 1.0 ==> multiplier == planned;
  }

  // ---------------------------------------------------------------- the whole day

  /** The order loop's run that placed a trade: what the broker answered, the orders sent,
      and the fill the last of them got. */
  datatype Placement = Placement(broker: nat -> OrderManager.Attempt, sent: seq<OrderManager.Order>, cut: nat, tp: real,
                                 ticket: int, price: real, volume: real)

  /** How a stored trade came about: its sizing, its placement, whether levels are shifted to
      the fill, and whether the broker took the shift, which the engine does not insist on. */
  datatype Origin = Origin(config: Sizing.Config, signal: Sizing.Signal, info: Sizing.SymbolInfo,
                           baseRisk: real, multiplier: real, orders: OrderManager.Config, placed: Placement,
                           adjustLevels: bool, shiftTaken: bool)

  /** The planned risk is the one on record, the minimum lot did not decide the size, and
      the order loop ended with this fill, of at most the planned volume. */
  ghost predicate Explains(o: Origin, risk: real)
  {
    && Sizing.Sane(o.config, o.signal, o.info) && o.baseRisk >= 0.0 && o.orders.maxSlip == o.config.maxSlip
    && risk == Sizing.Amount(o.baseRisk, o.multiplier)
    && o.config.minLot <= Sizing.RawLots(risk, Sizing.SizingDistance(o.config, o.signal, o.info), o.info)
    && PlanOf(o).Some? && Places(o, PlanOf(o).value)
  }

  function PlanOf(o: Origin): Option<Sizing.Plan>
    requires o.info.volumeStep >= 0.0
  {
    Sizing.MakePlan(o.config, o.signal, o.info, o.baseRisk, o.multiplier)
  }

  ghost predicate Places(o: Origin, plan: Sizing.Plan)
    requires o.info.lotStep > 0.0
  {
    var p := o.placed;
    && OrderManager.Disciplined(o.orders, plan, o.info, p.tp, p.broker, p.sent, p.cut)
    && OrderManager.EndsWell(o.orders, plan, p.broker, true, OrderManager.Done(p.ticket, p.price, p.volume),
                             p.sent, true)
    && 0.0 <= p.volume <= plan.lots
  }

  const SHIFT_FROM := 0.00000001

  predicate Shifted(o: Origin)
  {
    o.adjustLevels && o.shiftTaken && Abs(o.placed.price - o.signal.entry) > SHIFT_FROM
  }

  /** The stop of the filled order. */
  function SentStop(o: Origin): real
  {
    if o.placed.sent == [] then o.signal.stop else o.placed.sent[|o.placed.sent| - 1].sl
  }

  /** The stop the broker holds: the planned one shifted along with the fill, or, when no
      shift is due or the broker refused it, the one the filled order carried. */
  function BrokerStop(o: Origin): real
  {
    if Shifted(o) then o.signal.stop + (o.placed.price - o.signal.entry) else SentStop(o)
  }

  /** What the trade loses when stopped out, the spread included. */
  ghost function StopLoss(o: Origin): real
    requires o.info.tickSize > 0.0
  {
    Sizing.Cost(o.placed.volume, Sizing.Loss(o.signal.direction, o.placed.price, BrokerStop(o))
                                 + Sizing.Surcharge(o.config, o.info), o.info)
  }

  /** How far the stop was widened before the fill. */
  function Widening(o: Origin): real { Sizing.Loss(o.signal.direction, o.signal.stop, SentStop(o)) }

  /** The money value of a fill's distance beyond the band and of the widening of its stop;
      a shifted stop has neither. */
  ghost function Overrun(o: Origin): real
    requires o.info.tickSize > 0.0
  {
    if Shifted(o) then 0.0
    else Sizing.Cost(o.placed.volume, OrderManager.Beyond(o.config, o.signal, o.placed.price), o.info)
         + Sizing.Cost(o.placed.volume, Widening(o), o.info)
  }

  /** The stop moves along with the fill, or else fills beyond the band are closed again and
      no answer before the fill called the stops invalid. */
  ghost predicate Contained(o: Origin)
  {
    Shifted(o) || (WithinBand(o) && !CalledInvalid(o.placed))
  }

  /** An answer before the fill called the stops invalid. */
  ghost predicate CalledInvalid(p: Placement)
  {
    p.sent != [] && OrderManager.InvalidBefore(p.broker, |p.sent| - 1)
  }

  /** Fills beyond the band are closed again, or are far enough to be shifted. */
  predicate WithinBand(o: Origin)
  {
    o.orders.closeOnExceed || (o.adjustLevels && o.shiftTaken && Sizing.SlipBand(o.config, o.signal) >= SHIFT_FROM)
  }

  lemma KeptNearby(o: Origin, plan: Sizing.Plan)
    requires Sizing.Sane(o.config, o.signal, o.info) && o.orders.maxSlip == o.config.maxSlip
    requires WithinBand(o) && !Shifted(o)
    requires plan.direction == o.signal.direction && plan.entry == o.signal.entry && plan.stop == o.signal.stop
    requires Places(o, plan)
    ensures OrderManager.Beyond(o.config, o.signal, o.placed.price) == 0.0
  {
    OrderManager.BandIsNotNegative(o.config, o.signal);
    if o.orders.closeOnExceed {
      OrderManager.NothingBeyond(o.config, o.signal, o.orders, plan, o.placed.price);
    }
  }

  lemma SentStopOfThePlan(o: Origin, plan: Sizing.Plan)
    requires o.info.lotStep > 0.0 && Places(o, plan)
    requires plan.direction == o.signal.direction && plan.stop == o.signal.stop
    ensures Widening(o) >= 0.0
    ensures !CalledInvalid(o.placed) ==> Widening(o) == 0.0
  {
    OrderManager.SentStopIsOutward(o.orders, plan, o.info, o.placed.tp, o.placed.broker, o.placed.sent, o.placed.cut);
  }

  lemma NoOverrun(o: Origin, plan: Sizing.Plan)
    requires Sizing.Sane(o.config, o.signal, o.info) && o.orders.maxSlip == o.config.maxSlip && Contained(o)
    requires plan.direction == o.signal.direction && plan.entry == o.signal.entry && plan.stop == o.signal.stop
    requires Places(o, plan)
    ensures Overrun(o) == 0.0
  {
    if !Shifted(o) {
      KeptNearby(o, plan);
      SentStopOfThePlan(o, plan);
      OrderManager.ZeroCostsNothing(o.placed.volume, o.info);
    }
  }

  /** The loss at the broker's stop, whatever became of it, for a plan within its risk. */
  lemma LossAtTheBroker(o: Origin, plan: Sizing.Plan)
    requires Sizing.Sane(o.config, o.signal, o.info) && plan.riskAmount >= 0.0 && 0.0 <= o.placed.volume <= plan.lots
    requires plan.direction == o.signal.direction && plan.entry == o.signal.entry && plan.stop == o.signal.stop
    requires Sizing.Cost(plan.lots, Sizing.SizingDistance(o.config, o.signal, o.info), o.info) <= plan.riskAmount
    ensures StopLoss(o) <= plan.riskAmount + Overrun(o)
  {
    var d, surcharge := o.signal.direction, Sizing.Surcharge(o.config, o.info);
    OrderManager.BandIsNotNegative(o.config, o.signal);
    OrderManager.ZeroCostsNothing(o.placed.volume, o.info);
    var price := if Shifted(o) then o.signal.entry else o.placed.price;
    OrderManager.FillsCostAtMost(o.config, o.signal, o.info, plan, price, o.placed.volume);
    if Shifted(o) {
      assert Sizing.Loss(d, o.placed.price, BrokerStop(o)) == Sizing.Loss(d, price, o.signal.stop);
    } else {
      OrderManager.LossAtAnotherStop(plan, o.info, o.placed.volume, price, surcharge, SentStop(o));
    }
  }

  lemma StopLossIsCovered(o: Origin, risk: real)
    requires Explains(o, risk)
    ensures StopLoss(o) <= risk + Overrun(o)
    ensures Contained(o) ==> Overrun(o) == 0.0
  {
    var plan := PlanOf(o).value;
    OrderManager.PlanKeepsLevels(o.config, o.signal, o.info, o.baseRisk, o.multiplier);
    Sizing.SizedRiskIsBounded(o.config, o.signal, o.info, o.baseRisk, o.multiplier);
    OrderManager.AmountIsNonNegative(o.baseRisk, o.multiplier);
    LossAtTheBroker(o, plan);
    if Contained(o) {
      NoOverrun(o, plan);
    }
  }

  ghost predicate AllExplained(risks: map<string, real>, origins: map<string, Origin>)
  {
    origins.Keys == risks.Keys && forall t :: t in risks ==> Explains(origins[t], risks[t])
  }

  ghost function StopLosses(risks: map<string, real>, origins: map<string, Origin>): map<string, real>
    requires AllExplained(risks, origins)
  {
    map t | t in risks :: StopLoss(origins[t])
  }

  ghost function Overruns(risks: map<string, real>, origins: map<string, Origin>): map<string, real>
    requires AllExplained(risks, origins)
  {
    map t | t in risks :: Overrun(origins[t])
  }

  lemma {:induction false} SumsWithin(a: map<string, real>, b: map<string, real>, c: map<string, real>)
    requires a.Keys == b.Keys == c.Keys && forall t :: t in a ==> a[t] <= b[t] + c[t]
    ensures Sum(a) <= Sum(b) + Sum(c)
    decreases |a|
  {
    if a != map[] {
      var t :| t in a;
      SumSplit(a, t);
      SumSplit(b, t);
      SumSplit(c, t);
      assert (a - {t}).Keys == a.Keys - {t} && (b - {t}).Keys == b.Keys - {t} && (c - {t}).Keys == c.Keys - {t};
      SumsWithin(a - {t}, b - {t}, c - {t});
    } else {
      assert b == map[] && c == map[];
    }
  }

  lemma {:induction false} ZerosSumToZero(m: map<string, real>)
    requires forall t :: t in m ==> m[t] == 0.0
    ensures Sum(m) == 0.0
    decreases |m|
  {
    if m != map[] {
      var t :| t in m;
      SumSplit(m, t);
      ZerosSumToZero(m - {t});
    }
  }

  lemma {:induction false} LossesWithinRisks(risks: map<string, real>, origins: map<string, Origin>)
    requires AllExplained(risks, origins)
    ensures Sum(StopLosses(risks, origins)) <= Sum(risks) + Sum(Overruns(risks, origins))
    ensures (forall t :: t in origins ==> Contained(origins[t])) ==> Sum(Overruns(risks, origins)) == 0.0
  {
    var losses, overruns := StopLosses(risks, origins), Overruns(risks, origins);
    forall t | t in risks
      ensures losses[t] <= risks[t] + overruns[t] && (Contained(origins[t]) ==> overruns[t] == 0.0)
    {
      StopLossIsCovered(origins[t], risks[t]);
    }
    SumsWithin(losses, risks, overruns);
    if forall t :: t in origins ==> Contained(origins[t]) {
      ZerosSumToZero(overruns);
    }
  }

  /** The promise of the whole admission path: on every interleaving, if every trade then
      open were stopped out at the stop its broker holds, all of them together would lose no
      more than the day's budget and the overruns of fills kept beyond the band and of
      widened stops; and no more than the budget when none of them has any. */
  lemma {:induction false} AllStopsTogetherFitTheBudget(
    p: Admission.Params, s: Admission.State, steps: seq<Admission.Step>, t: Admission.State,
    origins: map<string, Origin>)
    requires p.Valid() && AdmissionLaws.Start(p, s) && Admission.Reaches(p, s, steps, t)
    requires AllExplained(AdmissionLaws.OwnRisk(t), origins)
    ensures
      var risks, budget := AdmissionLaws.OwnRisk(t), Admission.DailyBudget(p, t.startEquity);
      && Sum(StopLosses(risks, origins)) <= budget + Sum(Overruns(risks, origins))
      && ((forall k :: k in origins ==> Contained(origins[k])) ==> Sum(StopLosses(risks, origins)) <= budget)
  {
    LossesWithinRisks(AdmissionLaws.OwnRisk(t), origins);
    AdmissionLaws.DailyBudgetHolds(p, s, steps, t);
    WaitingIsNonNegative(p, s, steps, t);
  }

  lemma {:induction false} WaitingIsNonNegative(
    p: Admission.Params, s: Admission.State, steps: seq<Admission.Step>, t: Admission.State)
    requires p.Valid() && AdmissionLaws.Start(p, s) && Admission.Reaches(p, s, steps, t)
    ensures Sum(AdmissionLaws.WaitingRisk(t)) >= 0.0
  {
    AdmissionLaws.SoundAtStart(p, s);
    AdmissionLaws.SoundAlways(p, s, steps, t);
    SumNonNegative(AdmissionLaws.WaitingRisk(t));
  }
}
