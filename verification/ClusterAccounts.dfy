/** How far disorder can drive a group over its budget: an exact list of the steps that
    overrun it, on every run whatever its order. */
module ClusterAccounts {
  import opened Sums
  import opened ClusterRisk
  import opened Admission
  import opened ClusterBudget

  ghost predicate Possible(p: Params, s: State, steps: seq<Step>)
    decreases |steps|
  {
    steps == [] || (Enabled(p, s, steps[0]) && Possible(p, Apply(p, s, steps[0]), steps[1..]))
  }

  /** A booking in the group that finds no reservation. */
  ghost predicate Unreserved(p: Params, s: State, step: Step)
    requires Enabled(p, s, step)
  {
    step.Book? && p.InGroup(s.flights[step.id].symbol) && s.flights[step.id].signalId !in s.cluster.pending
  }

  ghost function OpenR(c: ClusterState, tradeId: string): real { if tradeId in c.open then c.open[tradeId] else 0.0 }

  /** What a close loses beyond the R the trade had open. */
  ghost function LossBeyond(c: ClusterState, tradeId: string, rr: real): real
  {
    Max(0.0, Damage(rr, Held(c.open, tradeId)) - OpenR(c, tradeId))
  }

  /** What one step adds beyond what was reserved or open for it: a full R for an unreserved
      booking, and for a close the loss beyond the R the trade had open. */
  ghost function Overrun(p: Params, s: State, step: Step): real
    requires Enabled(p, s, step)
  {
    if Unreserved(p, s, step) then 1.0
    else if step.BookClose? && p.InGroup(s.closing[step.tradeId].symbol) then
      LossBeyond(s.cluster, step.tradeId, step.rr)
    else 0.0
  }

  ghost function Excess(p: Params, s: State, steps: seq<Step>): real
    requires Possible(p, s, steps)
    decreases |steps|
  {
    if steps == [] then 0.0 else Overrun(p, s, steps[0]) + Excess(p, Apply(p, s, steps[0]), steps[1..])
  }

  ghost function Intruders(p: Params, s: State, steps: seq<Step>): nat
    requires Possible(p, s, steps)
    decreases |steps|
  {
    if steps == [] then 0
    else (if Unreserved(p, s, steps[0]) then 1 else 0) + Intruders(p, Apply(p, s, steps[0]), steps[1..])
  }

  // ---------------------------------------------------------------- invariant

  ghost predicate PlannedIsPositive(s: State) { s.lock.Judged? || s.lock.ClusterHeld? ==> s.lock.planned > 0.0 }

  ghost predicate Booked(s: State)
  {
    TradeIdsDistinct(s) && TradeIdsPhased(s) && TradesUnbooked(s) && PlannedIsPositive(s) && NonNegative(s.cluster)
  }

  lemma PlannedStaysPositive(p: Params, s: State, step: Step)
    requires p.Valid() && PlannedIsPositive(s) && Enabled(p, s, step)
    ensures PlannedIsPositive(Apply(p, s, step))
  {
    if step.Judge? {
      JudgedIsSized(p, s, step.otherMultiplier, step.throttle);
    }
  }

  lemma BookStaysNonNegative(p: Params, s: State, step: Step)
    requires NonNegative(s.cluster) && PlannedIsPositive(s) && Enabled(p, s, step)
    ensures NonNegative(Apply(p, s, step).cluster)
  {
  }

  lemma BookedKept(p: Params, s: State, step: Step)
    requires p.Valid() && Booked(s) && Enabled(p, s, step)
    ensures Booked(Apply(p, s, step))
  {
    TradeIdsDistinctKept(p, s, step);
    TradeIdsPhasedKept(p, s, step);
    TradesUnbookedKept(p, s, step);
    PlannedStaysPositive(p, s, step);
    BookStaysNonNegative(p, s, step);
  }

  lemma BookAccount(p: Params, s: State, id: nat, maxR: real, maxSlots: nat)
    requires Booked(s) && Fits(p, s, maxR, maxSlots) && Enabled(p, s, Book(id))
    ensures Fits(p, Apply(p, s, Book(id)), maxR + Overrun(p, s, Book(id)),
                 maxSlots + if Unreserved(p, s, Book(id)) then 1 else 0)
  {
    assert Phased(s.flights[id]);
    OpenedMoves(s.cluster, s.flights[id].signalId, s.flights[id].tradeId);
  }

  lemma CloseUses(c: ClusterState, tradeId: string, rr: real)
    ensures Used(Closed(c, tradeId, rr)) <= Used(c) + LossBeyond(c, tradeId, rr)
    ensures Concurrent(Closed(c, tradeId, rr)) <= Concurrent(c)
  {
    ClosedConverts(c, tradeId, rr);
  }

  lemma CloseIsOfTheGroup(p: Params, s: State, tradeId: string, rr: real)
    requires Enabled(p, s, BookClose(tradeId, rr))
    ensures
      var t := Apply(p, s, BookClose(tradeId, rr));
      && t.lock == s.lock
      && t.cluster == if !p.InGroup(s.closing[tradeId].symbol) then s.cluster
                      else Closed(s.cluster, tradeId, rr)
  {
  }

  lemma CloseAccount(p: Params, s: State, tradeId: string, rr: real, maxR: real, maxSlots: nat)
    requires Fits(p, s, maxR, maxSlots) && Enabled(p, s, BookClose(tradeId, rr))
    ensures Fits(p, Apply(p, s, BookClose(tradeId, rr)), maxR + Overrun(p, s, BookClose(tradeId, rr)), maxSlots)
  {
    CloseIsOfTheGroup(p, s, tradeId, rr);
    CloseUses(s.cluster, tradeId, rr);
  }

  lemma OverrunIsNoGain(p: Params, s: State, step: Step)
    requires Enabled(p, s, step)
    ensures Overrun(p, s, step) >= 0.0
    ensures !step.Book? && !step.BookClose? ==> Overrun(p, s, step) == 0.0 && !Unreserved(p, s, step)
    ensures step.BookClose? ==> !Unreserved(p, s, step)
  {
  }

  lemma StepAccount(p: Params, s: State, step: Step, maxR: real, maxSlots: nat)
    requires p.Valid() && p.group.maxLossR <= maxR && p.group.maxConcurrent <= maxSlots
    requires Booked(s) && Fits(p, s, maxR, maxSlots) && Enabled(p, s, step)
    ensures Fits(p, Apply(p, s, step), maxR + Overrun(p, s, step), maxSlots + if Unreserved(p, s, step) then 1 else 0)
    ensures Overrun(p, s, step) >= 0.0
  {
    OverrunIsNoGain(p, s, step);
    if step.Book? {
      BookAccount(p, s, step.id, maxR, maxSlots);
    } else if step.BookClose? {
      CloseAccount(p, s, step.tradeId, step.rr, maxR, maxSlots);
    } else {
      QuietFits(p, s, step, maxR, maxSlots);
    }
  }

  lemma {:induction false} RunAccount(p: Params, s: State, steps: seq<Step>, t: State, maxR: real, maxSlots: nat)
    requires p.Valid() && p.group.maxLossR <= maxR && p.group.maxConcurrent <= maxSlots
    requires Booked(s) && Fits(p, s, maxR, maxSlots) && Reaches(p, s, steps, t)
    ensures Possible(p, s, steps)
    ensures Fits(p, t, maxR + Excess(p, s, steps), maxSlots + Intruders(p, s, steps)) && Booked(t)
    decreases |steps|
  {
    if steps != [] {
      var step := steps[0];
      BookedKept(p, s, step);
      StepAccount(p, s, step, maxR, maxSlots);
      RunAccount(p, Apply(p, s, step), steps[1..], t,
                 maxR + Overrun(p, s, step), maxSlots + if Unreserved(p, s, step) then 1 else 0);
    }
  }

  /** The account, on every run whatever its order: the group uses at most its budget (or
      what it started with), a full R for each booking that found no reservation, and each
      close's loss beyond the R its trade had open; and at most its positions plus those
      bookings. */
  lemma {:induction false} BudgetIsAccountedFor(p: Params, s: State, steps: seq<Step>, t: State)
    requires p.Valid() && Init(s) && Reaches(p, s, steps, t)
    ensures Possible(p, s, steps)
    ensures Used(t.cluster) <= Max(p.group.maxLossR, Used(s.cluster)) + Excess(p, s, steps)
    ensures Concurrent(t.cluster)
         <= (if p.group.maxConcurrent >= Concurrent(s.cluster) then p.group.maxConcurrent else Concurrent(s.cluster))
            + Intruders(p, s, steps)
  {
    var limit, held := p.group.maxConcurrent, Concurrent(s.cluster);
    var slots := if limit >= held then limit else held;
    RunAccount(p, s, steps, t, Max(p.group.maxLossR, Used(s.cluster)), slots);
    assert Promised(p, t) >= 0.0;
  }

  // ------------------------------------------------------------------ ordered runs

  lemma OrderedStepDoesNotOverrun(p: Params, s: State, step: Step)
    requires BookSound(p, s) && Enabled(p, s, step) && Ordered(p, s, step)
    ensures Overrun(p, s, step) == 0.0 && !Unreserved(p, s, step)
  {
    if step.Book? {
      assert Unbooked(s.flights[step.id]);
    } else if step.BookClose? && step.tradeId in s.cluster.open && step.rr >= -1.0 {
      DamageAtMostRisk(step.rr, s.cluster.open[step.tradeId]);
    }
  }

  /** Ordered runs have nothing on the account: there the budget holds as it stands. */
  lemma {:induction false} OrderedRunsDoNotOverrun(p: Params, s: State, steps: seq<Step>)
    requires p.Valid() && BookSound(p, s) && OrderedRun(p, s, steps)
    ensures Possible(p, s, steps) && Excess(p, s, steps) == 0.0 && Intruders(p, s, steps) == 0
    decreases |steps|
  {
    if steps != [] {
      OrderedStepDoesNotOverrun(p, s, steps[0]);
      BookKept(p, s, steps[0]);
      OrderedRunsDoNotOverrun(p, Apply(p, s, steps[0]), steps[1..]);
    }
  }
}
