/** What closes do to a group over a day: every loss is counted and booked at the R its trade
    had, and the counted losses first reduce and then end what the group may still take. */
module ClusterLosses {
  import opened Sums
  import opened ClusterRisk
  import opened Admission
  import opened ClusterBudget
  import opened ClusterAccounts

  /** A trade of the group is booked as closed at a loss. */
  ghost predicate Loses(p: Params, s: State, step: Step)
    requires Enabled(p, s, step)
  {
    step.BookClose? && p.InGroup(s.closing[step.tradeId].symbol) && step.rr < 0.0
  }

  /** The R such a close loses: its own ratio, times the R the trade was open with, or a full
      R when the book does not know the trade. */
  ghost function LostR(p: Params, s: State, step: Step): real
    requires Enabled(p, s, step)
  {
    if !Loses(p, s, step) then 0.0
    else if step.tradeId in s.cluster.open then (0.0 - step.rr) * s.cluster.open[step.tradeId]
    else 0.0 - step.rr
  }

  ghost function Losses(p: Params, s: State, steps: seq<Step>): nat
    requires Possible(p, s, steps)
    decreases |steps|
  {
    if steps == [] then 0
    else (if Loses(p, s, steps[0]) then 1 else 0) + Losses(p, Apply(p, s, steps[0]), steps[1..])
  }

  ghost function LostInAll(p: Params, s: State, steps: seq<Step>): real
    requires Possible(p, s, steps)
    decreases |steps|
  {
    if steps == [] then 0.0 else LostR(p, s, steps[0]) + LostInAll(p, Apply(p, s, steps[0]), steps[1..])
  }

  lemma CloseCounts(p: Params, s: State, tradeId: string, rr: real)
    requires Enabled(p, s, BookClose(tradeId, rr))
    ensures
      var step := BookClose(tradeId, rr);
      && Apply(p, s, step).cluster.losses == s.cluster.losses + (if Loses(p, s, step) then 1 else 0)
      && Apply(p, s, step).cluster.realized == s.cluster.realized + LostR(p, s, step)
  {
    CloseIsOfTheGroup(p, s, tradeId, rr);
  }

  lemma OthersBookNoLoss(p: Params, s: State, step: Step)
    requires Enabled(p, s, step) && !step.BookClose?
    ensures Apply(p, s, step).cluster.losses == s.cluster.losses
    ensures Apply(p, s, step).cluster.realized == s.cluster.realized
  {
  }

  /** Over every run of a day: the group has lost what its losing closes lost, and counted
      each of them, whatever else happened in between. */
  lemma {:induction false} LossesAreCounted(p: Params, s: State, steps: seq<Step>, t: State)
    requires Reaches(p, s, steps, t)
    ensures Possible(p, s, steps)
    ensures t.cluster.losses == s.cluster.losses + Losses(p, s, steps)
    ensures t.cluster.realized == s.cluster.realized + LostInAll(p, s, steps)
    decreases |steps|
  {
    if steps != [] {
      if steps[0].BookClose? {
        CloseCounts(p, s, steps[0].tradeId, steps[0].rr);
      } else {
        OthersBookNoLoss(p, s, steps[0]);
      }
      LossesAreCounted(p, Apply(p, s, steps[0]), steps[1..], t);
    }
  }

  /** Once as many losses are booked as the group allows, no signal of it is admitted any
      more, whatever else follows that day. */
  lemma {:induction false} LossLimitClosesTheGroup(
    p: Params, s: State, before: seq<Step>, m: State, after: seq<Step>, t: State, other: real, throttle: real)
    requires Reaches(p, s, before, m) && Reaches(p, m, after, t) && Possible(p, s, before)
    requires s.cluster.losses + Losses(p, s, before) >= p.group.maxLosses
    requires t.lock.Counted? && p.InGroup(t.lock.symbol)
    ensures !Enabled(p, t, Judge(other, throttle))
  {
    LossesAreCounted(p, s, before, m);
    LossesAreCounted(p, m, after, t);
    VerdictsAreExact(p.group, t.cluster);
  }

  /** After the first loss every admission into the group is at the reduced R at most. */
  lemma {:induction false} AfterALossRIsReduced(
    p: Params, s: State, before: seq<Step>, m: State, after: seq<Step>, t: State, other: real, throttle: real)
    requires Reaches(p, s, before, m) && Reaches(p, m, after, t) && Possible(p, s, before)
    requires Losses(p, s, before) >= 1
    requires t.lock.Counted? && p.InGroup(t.lock.symbol) && Enabled(p, t, Judge(other, throttle))
    ensures Apply(p, t, Judge(other, throttle)).lock.planned <= p.group.afterLoss
  {
    LossesAreCounted(p, s, before, m);
    LossesAreCounted(p, m, after, t);
    VerdictsAreExact(p.group, t.cluster);
  }
}
