/** The shared cluster budget under concurrent admission: it holds on every run whose
    closes follow their opens and that does not re-admit a signal which is still being
    unwound, and two runs show that neither hypothesis can be dropped. */
module ClusterBudget {
  import opened Sums
  import opened ClusterRisk
  import opened Admission

  /** The order the budget relies on. */
  ghost predicate Ordered(p: Params, s: State, step: Step)
  {
    match step
    case TakeLock(signalId, _) => forall i :: i in s.flights ==> s.flights[i].signalId != signalId
    case BookClose(tradeId, rr) =>
      tradeId in s.closing && p.InGroup(s.closing[tradeId].symbol)
      ==> rr >= 0.0 || (tradeId in s.cluster.open && rr >= -1.0)
    case _ => true
  }

  ghost predicate OrderedRun(p: Params, s: State, steps: seq<Step>)
    decreases |steps|
  {
    steps == [] || (Enabled(p, s, steps[0]) && Ordered(p, s, steps[0])
                    && OrderedRun(p, Apply(p, s, steps[0]), steps[1..]))
  }

  // ---------------------------------------------------------------- invariant

  ghost predicate Unbooked(f: Flight) { f.phase in {Reserved, Planned, Filled, Added, NotAdded} }

  ghost predicate Sized(planned: real, multiplier: real) { 0.0 < multiplier <= planned }

  /** An approval that has not reached the cluster book yet. */
  ghost function Promised(p: Params, s: State): real
  {
    if s.lock.Judged? && p.InGroup(s.lock.symbol) then s.lock.planned else 0.0
  }

  ghost function PromisedSlots(p: Params, s: State): nat
  {
    if s.lock.Judged? && p.InGroup(s.lock.symbol) then 1 else 0
  }

  ghost predicate Fits(p: Params, s: State, maxR: real, maxSlots: nat)
  {
    && Used(s.cluster) + Promised(p, s) <= maxR
    && Concurrent(s.cluster) + PromisedSlots(p, s) <= maxSlots
  }

  ghost predicate NonNegative(c: ClusterState)
  {
    && (forall k :: k in c.pending ==> c.pending[k] >= 0.0)
    && (forall k :: k in c.open ==> c.open[k] >= 0.0)
  }

  ghost predicate Covered(p: Params, c: ClusterState, f: Flight)
  {
    && Sized(f.planned, f.multiplier)
    && (p.InGroup(f.symbol) ==> f.signalId in c.pending && c.pending[f.signalId] == f.planned)
  }

  /** Every flight of the group that is not booked yet still has its own reservation,
      of exactly the R it was previewed at and at least what sizing uses. */
  ghost predicate FlightsReserved(p: Params, s: State)
  {
    forall i :: i in s.flights && Unbooked(s.flights[i]) ==> Covered(p, s.cluster, s.flights[i])
  }

  ghost predicate LockReserved(p: Params, s: State)
  {
    && (s.lock.Judged? || s.lock.ClusterHeld? ==> Sized(s.lock.planned, s.lock.multiplier))
    && (s.lock.ClusterHeld? && p.InGroup(s.lock.symbol)
        ==> s.lock.signalId in s.cluster.pending && s.cluster.pending[s.lock.signalId] == s.lock.planned)
  }

  ghost predicate SignalsDistinct(s: State)
  {
    && (forall i, j :: i in s.flights && j in s.flights && i != j ==> s.flights[i].signalId != s.flights[j].signalId)
    && (!s.lock.Free? ==> forall i :: i in s.flights ==> s.flights[i].signalId != s.lock.signalId)
  }

  ghost predicate TradeIdsDistinct(s: State)
  {
    forall i, j :: i in s.flights && j in s.flights && i != j && s.flights[i].tradeId != ""
      ==> s.flights[i].tradeId != s.flights[j].tradeId
  }

  ghost predicate Phased(f: Flight)
  {
    && (f.phase in {Reserved, Planned} ==> f.tradeId == "")
    && (f.phase in {Filled, Added, NotAdded} ==> f.tradeId != "")
  }

  ghost predicate TradeIdsPhased(s: State)
  {
    forall i :: i in s.flights ==> Phased(s.flights[i])
  }

  /** A trade enters the cluster book only when its own flight books it. */
  ghost predicate TradesUnbooked(s: State)
  {
    forall i :: i in s.flights && s.flights[i].phase in {Filled, Added, NotAdded}
      ==> s.flights[i].tradeId !in s.cluster.open
  }

  lemma TakeLockKeepsApart(p: Params, s: State, signalId: string, symbol: string)
    requires SignalsDistinct(s)
    requires Enabled(p, s, TakeLock(signalId, symbol)) && Ordered(p, s, TakeLock(signalId, symbol))
    ensures SignalsDistinct(Apply(p, s, TakeLock(signalId, symbol)))
  {
  }

  lemma CommitKeepsApart(p: Params, s: State, id: nat)
    requires SignalsDistinct(s) && Enabled(p, s, Commit(id))
    ensures SignalsDistinct(Apply(p, s, Commit(id)))
  {
  }

  lemma OthersKeepSignals(p: Params, s: State, step: Step)
    requires Enabled(p, s, step) && !step.TakeLock? && !step.Commit?
    ensures
      var t := Apply(p, s, step);
      && (forall i :: i in t.flights ==> i in s.flights && t.flights[i].signalId == s.flights[i].signalId)
      && (t.lock.Free? || (!s.lock.Free? && t.lock.signalId == s.lock.signalId))
  {
  }

  lemma SignalsDistinctKept(p: Params, s: State, step: Step)
    requires SignalsDistinct(s) && Enabled(p, s, step) && Ordered(p, s, step)
    ensures SignalsDistinct(Apply(p, s, step))
  {
    if step.TakeLock? {
      TakeLockKeepsApart(p, s, step.signalId, step.symbol);
    } else if step.Commit? {
      CommitKeepsApart(p, s, step.id);
    } else {
      OthersKeepSignals(p, s, step);
    }
  }

  lemma FillKeepsTradeIdsDistinct(p: Params, s: State, id: nat, tradeId: string)
    requires TradeIdsDistinct(s) && Enabled(p, s, Fill(id, tradeId))
    ensures TradeIdsDistinct(Apply(p, s, Fill(id, tradeId)))
  {
  }

  lemma OthersKeepTradeIds(p: Params, s: State, step: Step)
    requires Enabled(p, s, step) && !step.Fill?
    ensures
      var t := Apply(p, s, step);
      forall i :: i in t.flights && t.flights[i].tradeId != "" ==>
        i in s.flights && t.flights[i].tradeId == s.flights[i].tradeId
  {
  }

  lemma TradeIdsDistinctKept(p: Params, s: State, step: Step)
    requires TradeIdsDistinct(s) && TradeIdsPhased(s) && Enabled(p, s, step)
    ensures TradeIdsDistinct(Apply(p, s, step))
  {
    if step.Fill? {
      FillKeepsTradeIdsDistinct(p, s, step.id, step.tradeId);
    } else {
      OthersKeepTradeIds(p, s, step);
    }
  }

  lemma TradeIdsPhasedKept(p: Params, s: State, step: Step)
    requires TradeIdsPhased(s) && Enabled(p, s, step)
    ensures TradeIdsPhased(Apply(p, s, step))
  {
    var t := Apply(p, s, step);
    forall i | i in t.flights ensures Phased(t.flights[i]) {
      assert i in s.flights ==> Phased(s.flights[i]);
    }
  }

  lemma BookKeepsUnbooked(p: Params, s: State, id: nat)
    requires TradesUnbooked(s) && TradeIdsDistinct(s) && TradeIdsPhased(s) && Enabled(p, s, Book(id))
    ensures TradesUnbooked(Apply(p, s, Book(id)))
  {
    var t := Apply(p, s, Book(id));
    assert Phased(s.flights[id]);
    assert forall k :: k in t.cluster.open ==> k in s.cluster.open || k == s.flights[id].tradeId;
  }

  lemma TradesUnbookedKept(p: Params, s: State, step: Step)
    requires TradesUnbooked(s) && TradeIdsDistinct(s) && TradeIdsPhased(s) && Enabled(p, s, step)
    ensures TradesUnbooked(Apply(p, s, step))
  {
    if step.Book? {
      BookKeepsUnbooked(p, s, step.id);
    } else {
      OpenOnlyShrinks(p, s, step);
    }
  }

  lemma OpenOnlyShrinks(p: Params, s: State, step: Step)
    requires Enabled(p, s, step) && !step.Book?
    ensures Apply(p, s, step).cluster.open.Keys <= s.cluster.open.Keys
  {
  }

  lemma ThrottledIsSized(planned: real, throttle: real)
    requires planned > 0.0 && 0.0 < throttle <= 1.0
    ensures Sized(planned, if throttle < 1.0 then planned * throttle else planned)
  {
    assert planned * (1.0 - throttle) >= 0.0;
    assert planned * (1.0 - throttle) == planned - planned * throttle;
    assert planned * throttle > 0.0;
  }

  lemma JudgedIsSized(p: Params, s: State, other: real, throttle: real)
    requires p.Valid() && Enabled(p, s, Judge(other, throttle))
    ensures
      var planned := ApprovedR(p, s, other);
      Sized(planned, if throttle < 1.0 then planned * throttle else planned)
  {
    ApprovalFitsTheBudget(p.group, s.cluster);
    ThrottledIsSized(ApprovedR(p, s, other), throttle);
  }

  predicate MovesLock(step: Step)
  {
    step.TakeLock? || step.Judge? || step.Reject? || step.ReserveCluster? || step.Commit?
  }

  lemma LockStepReserves(p: Params, s: State, step: Step)
    requires p.Valid() && LockReserved(p, s) && Enabled(p, s, step) && MovesLock(step)
    ensures LockReserved(p, Apply(p, s, step))
  {
    if step.Judge? {
      JudgedIsSized(p, s, step.otherMultiplier, step.throttle);
    }
  }

  /** Steps of other calls leave the lock and its holder's reservation alone. */
  lemma OtherStepsSpareTheLock(p: Params, s: State, step: Step)
    requires SignalsDistinct(s) && Enabled(p, s, step) && !MovesLock(step)
    ensures
      var t := Apply(p, s, step);
      && t.lock == s.lock
      && (s.lock.ClusterHeld? ==>
            && (s.lock.signalId in t.cluster.pending <==> s.lock.signalId in s.cluster.pending)
            && (s.lock.signalId in t.cluster.pending
                ==> t.cluster.pending[s.lock.signalId] == s.cluster.pending[s.lock.signalId]))
  {
  }

  lemma LockReservedKept(p: Params, s: State, step: Step)
    requires p.Valid() && SignalsDistinct(s) && LockReserved(p, s) && Enabled(p, s, step)
    ensures LockReserved(p, Apply(p, s, step))
  {
    if MovesLock(step) {
      LockStepReserves(p, s, step);
    } else {
      OtherStepsSpareTheLock(p, s, step);
    }
  }

  predicate TouchesPending(step: Step) { step.ReserveCluster? || step.Book? || step.Unwind? }

  /** The steps that change a reservation leave those of other signals alone. */
  lemma ReservationsAreOwn(p: Params, s: State, step: Step)
    requires SignalsDistinct(s) && FlightsReserved(p, s) && Enabled(p, s, step) && TouchesPending(step)
    ensures FlightsReserved(p, Apply(p, s, step))
  {
    var t := Apply(p, s, step);
    forall i | i in t.flights && Unbooked(t.flights[i]) ensures Covered(p, t.cluster, t.flights[i]) {
      assert i in s.flights && t.flights[i] == s.flights[i] && Covered(p, s.cluster, s.flights[i]);
    }
  }

  lemma CommitIsCovered(p: Params, s: State, id: nat)
    requires LockReserved(p, s) && FlightsReserved(p, s) && Enabled(p, s, Commit(id))
    ensures FlightsReserved(p, Apply(p, s, Commit(id)))
  {
  }

  predicate MovesOneFlight(step: Step) { step.Plan? || step.Fill? || step.Add? || step.AddFails? || step.Fail? }

  /** A flight moves on or fails with its reservation untouched. */
  lemma MovingKeepsReservations(p: Params, s: State, step: Step)
    requires Enabled(p, s, step) && MovesOneFlight(step)
    ensures
      var t, f := Apply(p, s, step), s.flights[step.id];
      && t.cluster == s.cluster && step.id in t.flights && t.flights == s.flights[step.id := t.flights[step.id]]
      && t.flights[step.id].signalId == f.signalId && t.flights[step.id].symbol == f.symbol
      && t.flights[step.id].planned == f.planned && t.flights[step.id].multiplier == f.multiplier
      && (step.Fail? || Unbooked(f)) && (step.Fail? ==> !Unbooked(t.flights[step.id]))
  {
  }

  lemma LockStepsKeepReservations(p: Params, s: State, step: Step)
    requires Enabled(p, s, step) && (step.TakeLock? || step.Judge? || step.Reject?)
    ensures Apply(p, s, step).cluster == s.cluster && Apply(p, s, step).flights == s.flights
  {
  }

  lemma StoreStepsKeepReservations(p: Params, s: State, step: Step)
    requires Enabled(p, s, step) && (step.Close? || step.Adopt? || step.Latch?)
    ensures Apply(p, s, step).cluster == s.cluster && Apply(p, s, step).flights == s.flights
  {
  }

  lemma BookCloseKeepsReservations(p: Params, s: State, tradeId: string, rr: real)
    requires Enabled(p, s, BookClose(tradeId, rr))
    ensures Apply(p, s, BookClose(tradeId, rr)).cluster.pending == s.cluster.pending
    ensures Apply(p, s, BookClose(tradeId, rr)).flights == s.flights
  {
  }

  lemma FinishKeepsReservations(p: Params, s: State, id: nat)
    requires Enabled(p, s, Finish(id))
    ensures Apply(p, s, Finish(id)).cluster == s.cluster && Apply(p, s, Finish(id)).flights == s.flights - {id}
  {
  }

  lemma FlightsReservedKept(p: Params, s: State, step: Step)
    requires SignalsDistinct(s) && LockReserved(p, s) && FlightsReserved(p, s)
    requires Enabled(p, s, step) && Ordered(p, s, step)
    ensures FlightsReserved(p, Apply(p, s, step))
  {
    if step.Commit? {
      CommitIsCovered(p, s, step.id);
    } else if TouchesPending(step) {
      ReservationsAreOwn(p, s, step);
    } else if MovesOneFlight(step) {
      MovingKeepsReservations(p, s, step);
    } else if step.BookClose? {
      BookCloseKeepsReservations(p, s, step.tradeId, step.rr);
    } else if step.Finish? {
      FinishKeepsReservations(p, s, step.id);
    } else if step.Close? || step.Adopt? || step.Latch? {
      StoreStepsKeepReservations(p, s, step);
    } else {
      LockStepsKeepReservations(p, s, step);
    }
  }

  lemma NonNegativeKept(p: Params, s: State, step: Step)
    requires NonNegative(s.cluster) && LockReserved(p, s) && Enabled(p, s, step)
    ensures NonNegative(Apply(p, s, step).cluster)
  {
  }

  /** The state of the cluster book that goes with the flights. */
  ghost predicate BookSound(p: Params, s: State)
  {
    SignalsDistinct(s) && TradeIdsDistinct(s) && TradeIdsPhased(s) && TradesUnbooked(s)
    && LockReserved(p, s) && FlightsReserved(p, s) && NonNegative(s.cluster)
  }

  lemma BookKept(p: Params, s: State, step: Step)
    requires p.Valid() && BookSound(p, s) && Enabled(p, s, step) && Ordered(p, s, step)
    ensures BookSound(p, Apply(p, s, step))
  {
    SignalsDistinctKept(p, s, step);
    TradeIdsDistinctKept(p, s, step);
    TradeIdsPhasedKept(p, s, step);
    TradesUnbookedKept(p, s, step);
    LockReservedKept(p, s, step);
    FlightsReservedKept(p, s, step);
    NonNegativeKept(p, s, step);
  }

  lemma ReserveFits(c: ClusterState, id: string, planned: real)
    requires id in c.pending ==> c.pending[id] >= 0.0
    ensures Used(Reserve(c, id, planned)) <= Used(c) + planned
    ensures Concurrent(Reserve(c, id, planned)) <= Concurrent(c) + 1
  {
    SumPut(c.pending, id, planned);
    SizePut(c.pending, id, planned);
  }

  lemma JudgeFits(p: Params, s: State, other: real, throttle: real, maxR: real, maxSlots: nat)
    requires p.Valid() && p.group.maxLossR <= maxR && p.group.maxConcurrent <= maxSlots
    requires Fits(p, s, maxR, maxSlots) && Enabled(p, s, Judge(other, throttle))
    ensures Fits(p, Apply(p, s, Judge(other, throttle)), maxR, maxSlots)
  {
    ApprovalFitsTheBudget(p.group, s.cluster);
  }

  lemma ReserveClusterFits(p: Params, s: State, maxR: real, maxSlots: nat)
    requires NonNegative(s.cluster) && Fits(p, s, maxR, maxSlots) && Enabled(p, s, ReserveCluster)
    ensures Fits(p, Apply(p, s, ReserveCluster), maxR, maxSlots)
  {
    ReserveFits(s.cluster, s.lock.signalId, s.lock.planned);
  }

  lemma UnwindFits(p: Params, s: State, id: nat, maxR: real, maxSlots: nat)
    requires NonNegative(s.cluster) && Fits(p, s, maxR, maxSlots) && Enabled(p, s, Unwind(id))
    ensures Fits(p, Apply(p, s, Unwind(id)), maxR, maxSlots)
  {
    ReleaseFrees(s.cluster, s.flights[id].signalId);
  }

  predicate TouchesTheBook(step: Step)
  {
    step.Judge? || step.ReserveCluster? || step.Book? || step.Unwind? || step.BookClose?
  }

  lemma OtherStepsSpareTheBook(p: Params, s: State, step: Step)
    requires Enabled(p, s, step) && !TouchesTheBook(step)
    ensures Apply(p, s, step).cluster == s.cluster
    ensures Apply(p, s, step).lock == s.lock || (!s.lock.Judged? && !Apply(p, s, step).lock.Judged?)
  {
  }

  /** No step but a booking or a close raises what the group uses, except an approval
      within the budget. */
  lemma QuietFits(p: Params, s: State, step: Step, maxR: real, maxSlots: nat)
    requires p.Valid() && p.group.maxLossR <= maxR && p.group.maxConcurrent <= maxSlots
    requires NonNegative(s.cluster) && Fits(p, s, maxR, maxSlots) && Enabled(p, s, step)
    requires !step.Book? && !step.BookClose?
    ensures Fits(p, Apply(p, s, step), maxR, maxSlots)
  {
    if step.Judge? {
      JudgeFits(p, s, step.otherMultiplier, step.throttle, maxR, maxSlots);
    } else if step.ReserveCluster? {
      ReserveClusterFits(p, s, maxR, maxSlots);
    } else if step.Unwind? {
      UnwindFits(p, s, step.id, maxR, maxSlots);
    } else {
      OtherStepsSpareTheBook(p, s, step);
    }
  }

  lemma FitsKept(p: Params, s: State, step: Step, maxR: real, maxSlots: nat)
    requires p.Valid() && p.group.maxLossR <= maxR && p.group.maxConcurrent <= maxSlots
    requires FlightsReserved(p, s) && TradesUnbooked(s) && NonNegative(s.cluster) && Fits(p, s, maxR, maxSlots)
    requires Enabled(p, s, step) && Ordered(p, s, step)
    ensures Fits(p, Apply(p, s, step), maxR, maxSlots)
  {
    if step.Book? {
      BookFits(p, s, step.id, maxR, maxSlots);
    } else if step.BookClose? {
      BookCloseFits(p, s, step.tradeId, step.rr, maxR, maxSlots);
    } else {
      QuietFits(p, s, step, maxR, maxSlots);
    }
  }

  lemma BookFits(p: Params, s: State, id: nat, maxR: real, maxSlots: nat)
    requires FlightsReserved(p, s) && TradesUnbooked(s) && Fits(p, s, maxR, maxSlots) && Enabled(p, s, Book(id))
    ensures Fits(p, Apply(p, s, Book(id)), maxR, maxSlots)
  {
    OpenedMoves(s.cluster, s.flights[id].signalId, s.flights[id].tradeId);
  }

  lemma BookCloseFits(p: Params, s: State, tradeId: string, rr: real, maxR: real, maxSlots: nat)
    requires NonNegative(s.cluster) && Fits(p, s, maxR, maxSlots)
    requires Enabled(p, s, BookClose(tradeId, rr)) && Ordered(p, s, BookClose(tradeId, rr))
    ensures Fits(p, Apply(p, s, BookClose(tradeId, rr)), maxR, maxSlots)
  {
    ClosedConverts(s.cluster, tradeId, rr);
  }

  lemma {:induction false} FitsAlways(p: Params, s: State, steps: seq<Step>, t: State, maxR: real, maxSlots: nat)
    requires p.Valid() && p.group.maxLossR <= maxR && p.group.maxConcurrent <= maxSlots
    requires BookSound(p, s) && Fits(p, s, maxR, maxSlots)
    requires Reaches(p, s, steps, t) && OrderedRun(p, s, steps)
    ensures Fits(p, t, maxR, maxSlots) && BookSound(p, t)
    decreases |steps|
  {
    if steps != [] {
      BookKept(p, s, steps[0]);
      FitsKept(p, s, steps[0], maxR, maxSlots);
      FitsAlways(p, Apply(p, s, steps[0]), steps[1..], t, maxR, maxSlots);
    }
  }

  /** Realised loss, pending and open together stay within the day's cluster budget
      (or within what was hydrated, when a restart found more than that), on every
      ordered interleaving; and no trade is sized above the R reserved for it. */
  lemma {:induction false} ClusterBudgetHolds(p: Params, s: State, steps: seq<Step>, t: State)
    requires p.Valid() && Init(s) && Reaches(p, s, steps, t) && OrderedRun(p, s, steps)
    ensures Used(t.cluster) <= Max(p.group.maxLossR, Used(s.cluster))
    ensures t.cluster.realized <= Max(p.group.maxLossR, Used(s.cluster))
    ensures Concurrent(t.cluster) <= p.group.maxConcurrent || Concurrent(t.cluster) <= Concurrent(s.cluster)
    ensures forall i :: i in t.flights && Unbooked(t.flights[i]) && p.InGroup(t.flights[i].symbol) ==>
              (t.flights[i].signalId in t.cluster.pending
               && t.flights[i].multiplier <= t.cluster.pending[t.flights[i].signalId])
  {
    var limit, held := p.group.maxConcurrent, Concurrent(s.cluster);
    var slots := if limit >= held then limit else held;
    FitsAlways(p, s, steps, t, Max(p.group.maxLossR, Used(s.cluster)), slots);
    SumNonNegative(t.cluster.pending);
    SumNonNegative(t.cluster.open);
    assert Promised(p, t) >= 0.0;
  }

  // ------------------------------------------------- the hypotheses are needed

  lemma {:induction false} ReachesOneMore(p: Params, s: State, steps: seq<Step>, t: State, step: Step)
    requires Reaches(p, s, steps, t) && Enabled(p, t, step)
    ensures Reaches(p, s, steps + [step], Apply(p, t, step))
    decreases |steps|
  {
    var longer := steps + [step];
    if steps == [] {
      assert longer[1..] == [];
    } else {
      ReachesOneMore(p, Apply(p, s, steps[0]), steps[1..], t, step);
      assert longer[0] == steps[0] && longer[1..] == steps[1..] + [step];
    }
  }

  lemma Take(p: Params, s: State, steps: seq<Step>, t: State, step: Step) returns (more: seq<Step>, u: State)
    requires Reaches(p, s, steps, t) && Enabled(p, t, step)
    ensures Reaches(p, s, more, u) && u == Apply(p, t, step) && more == steps + [step]
  {
    ReachesOneMore(p, s, steps, t, step);
    more, u := steps + [step], Apply(p, t, step);
  }

  const EXAMPLE := Params(3, 3, Group("indices", {"US100"}, 1.5, 2, 2, 0.5, 0.25), 2.5)

  const IDLE := State(map[], {}, map[], map[], map[], NewDay(0), Free, 10000.0)

  /** Admission of a signal of the group, up to its commit. */
  lemma Admit(s: State, steps: seq<Step>, t: State, x: string, id: nat) returns (more: seq<Step>, u: State)
    requires Reaches(EXAMPLE, s, steps, t)
    requires t.lock.Free? && x !in t.pendingIds && t.store == map[] && id !in t.flights
    requires |t.store| + Count(t.pending) < 3 && PendingFor(t.pending, "US100") < 3
    requires Preview(EXAMPLE.group, t.cluster).Approved?
    ensures Reaches(EXAMPLE, s, more, u)
    ensures
      var r := Preview(EXAMPLE.group, t.cluster).planned;
      u == t.(lock := Free, cluster := Reserve(t.cluster, x, r), pending := PendingAdd(t.pending, "US100"),
              pendingIds := t.pendingIds + {x},
              flights := t.flights[id := Flight(x, "US100", r, r, 0.0, "", Reserved, false)])
  {
    assert Tally.Where(t.store, IsOn("US100")) == {};
    more, u := Take(EXAMPLE, s, steps, t, TakeLock(x, "US100"));
    more, u := Take(EXAMPLE, s, more, u, Judge(1.0, 1.0));
    more, u := Take(EXAMPLE, s, more, u, ReserveCluster);
    more, u := Take(EXAMPLE, s, more, u, Commit(id));
  }

  /** From reserved to stored. */
  lemma FillAndAdd(s: State, steps: seq<Step>, t: State, id: nat, trade: string) returns (more: seq<Step>, u: State)
    requires Reaches(EXAMPLE, s, steps, t)
    requires id in t.flights && t.flights[id].phase == Reserved && trade != "" && Unused(t, trade)
    ensures Reaches(EXAMPLE, s, more, u)
    ensures u.cluster == t.cluster && u.closing == t.closing
    ensures trade in u.store && u.store[trade].symbol == t.flights[id].symbol
    ensures id in u.flights && u.flights[id].phase == Added && u.flights[id].tradeId == trade
    ensures u.flights[id].signalId == t.flights[id].signalId && u.flights[id].symbol == t.flights[id].symbol
  {
    more, u := Take(EXAMPLE, s, steps, t, Plan(id));
    more, u := Take(EXAMPLE, s, more, u, Fill(id, trade));
    more, u := Take(EXAMPLE, s, more, u, Add(id));
  }

  lemma EmptySums(c: ClusterState)
    requires c.pending == map[] && c.open == map[]
    ensures Used(c) == c.realized
  {
  }

  /** The close of a trade overtakes its own booking: the loss is charged a full R and
      the trade is then booked as open for good. */
  lemma CloseBeforeBookBreaksTheBudget() returns (steps: seq<Step>, t: State)
    ensures EXAMPLE.Valid() && Init(IDLE) && Reaches(EXAMPLE, IDLE, steps, t)
    ensures Used(t.cluster) > EXAMPLE.group.maxLossR
  {
    steps, t := CloseIsBookedFirst();
    var book := t.cluster;
    steps, t := Take(EXAMPLE, IDLE, steps, t, Book(0));
    assert t.cluster == Opened(book, "x", "t");
    OpenedMoves(book, "x", "t");
    EmptySums(book.(pending := map[]));
    SumPut(map[], "x", 1.0);
  }

  lemma FilledAndStored() returns (steps: seq<Step>, t: State)
    ensures Reaches(EXAMPLE, IDLE, steps, t)
    ensures 0 in t.flights && t.flights[0].phase == Added && t.flights[0].signalId == "x"
    ensures t.flights[0].symbol == "US100" && t.flights[0].tradeId == "t"
    ensures Enabled(EXAMPLE, t, Close("t"))
    ensures t.store["t"].symbol == "US100" && t.closing == map[] && t.cluster == Reserve(NewDay(0), "x", 1.0)
  {
    steps, t := [], IDLE;
    EmptySums(t.cluster);
    ApprovalFitsTheBudget(EXAMPLE.group, t.cluster);
    steps, t := Admit(IDLE, steps, t, "x", 0);
    steps, t := FillAndAdd(IDLE, steps, t, 0, "t");
  }

  /** "x" is filled, stored, closed at a full loss and booked as closed. */
  lemma CloseIsBookedFirst() returns (steps: seq<Step>, t: State)
    ensures Reaches(EXAMPLE, IDLE, steps, t)
    ensures 0 in t.flights && t.flights[0].phase == Added && t.flights[0].signalId == "x"
    ensures t.flights[0].symbol == "US100" && t.flights[0].tradeId == "t"
    ensures t.cluster.open == map[] && t.cluster.realized == 1.0 && t.cluster.pending == map["x" := 1.0]
  {
    steps, t := FilledAndStored();
    var book := t.cluster;
    steps, t := Take(EXAMPLE, IDLE, steps, t, Close("t"));
    steps, t := Take(EXAMPLE, IDLE, steps, t, BookClose("t", -1.0));
    assert Damage(-1.0, Held(book.open, "t")) == 1.0;
  }

  lemma HalfAnRIsLeft()
    ensures Preview(EXAMPLE.group, Reserve(NewDay(0), "x", 1.0)) == Approved(0.5)
  {
    EmptySums(NewDay(0));
    ReserveUses(NewDay(0), "x", 1.0);
  }

  const FAILED := Flight("x", "US100", 1.0, 1.0, 0.0, "", Failing, false)
  const AGAIN := Flight("x", "US100", 0.5, 0.5, 0.0, "", Reserved, false)

  lemma AdmitAndFail() returns (steps: seq<Step>, t: State)
    ensures Reaches(EXAMPLE, IDLE, steps, t)
    ensures t == IDLE.(flights := map[0 := FAILED], cluster := Reserve(NewDay(0), "x", 1.0))
  {
    steps, t := [], IDLE;
    EmptySums(t.cluster);
    ApprovalFitsTheBudget(EXAMPLE.group, t.cluster);
    steps, t := Admit(IDLE, steps, t, "x", 0);
    steps, t := Take(EXAMPLE, IDLE, steps, t, Fail(0));
    assert t.pending == map[] && t.pendingIds == {};
  }

  /** The first half: "x" is admitted, fails, and is admitted again before the first
      attempt has given its cluster reservation back. */
  lemma ReadmitTwice() returns (steps: seq<Step>, t: State)
    ensures Reaches(EXAMPLE, IDLE, steps, t)
    ensures t.lock.Free? && t.pendingIds == {"x"} && t.store == map[] && t.closing == map[]
    ensures t.flights == map[0 := FAILED, 1 := AGAIN]
    ensures t.pending == map["US100" := 1] && t.cluster == Reserve(NewDay(0), "x", 0.5)
  {
    steps, t := AdmitAndFail();
    HalfAnRIsLeft();
    steps, t := Admit(IDLE, steps, t, "x", 1);
    assert t.cluster.pending == map["x" := 0.5];
  }

  lemma ReadmitLosesAReservation() returns (steps: seq<Step>, t: State)
    ensures Reaches(EXAMPLE, IDLE, steps, t)
    ensures t.lock.Free? && t.pendingIds == {"x"} && t.store == map[] && t.closing == map[]
    ensures t.flights == map[1 := AGAIN]
    ensures t.pending == map["US100" := 1] && t.cluster == NewDay(0)
  {
    steps, t := ReadmitTwice();
    UnwindingTheFirst(t);
    steps, t := Take(EXAMPLE, IDLE, steps, t, Unwind(0));
  }

  lemma UnwindingTheFirst(t: State)
    requires t.flights == map[0 := FAILED, 1 := AGAIN] && t.cluster == Reserve(NewDay(0), "x", 0.5)
    ensures Enabled(EXAMPLE, t, Unwind(0))
    ensures Apply(EXAMPLE, t, Unwind(0)) == t.(flights := map[1 := AGAIN], cluster := NewDay(0))
  {
    assert Release(t.cluster, "x").pending == map[];
  }

  /** A signal is admitted again while its failed first attempt is still giving its
      reservation back: a third signal gets the whole budget, and the second trade is
      then booked at a full R on top. */
  lemma ReadmitWhileUnwindingBreaksTheBudget() returns (steps: seq<Step>, t: State)
    ensures EXAMPLE.Valid() && Init(IDLE) && Reaches(EXAMPLE, IDLE, steps, t)
    ensures Used(t.cluster) > EXAMPLE.group.maxLossR
  {
    steps, t := ReadmitLosesAReservation();
    EmptySums(t.cluster);
    CountPut(map[], "US100", 1);
    ApprovalFitsTheBudget(EXAMPLE.group, t.cluster);
    steps, t := Admit(IDLE, steps, t, "y", 2);
    assert t.cluster.pending == map["y" := 1.0];
    steps, t := FillAndAdd(IDLE, steps, t, 1, "t");
    OpenedMoves(t.cluster, "x", "t");
    ReserveUses(NewDay(0), "y", 1.0);
    steps, t := Take(EXAMPLE, IDLE, steps, t, Book(1));
  }
}
